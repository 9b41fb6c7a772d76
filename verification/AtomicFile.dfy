/** A file that is replaced as a whole: written to a temporary file, synced,
    renamed over the path, and the directory synced after the rename. */
module AtomicFile {

  /** What WriteFile reports: an error before the rename, an error after it
      (ErrWrittenNotDurable), or nil. */
  datatype WriteOutcome = NotWritten | NotDurable | Durable

  /** The contents a power loss may leave at the path once a write of `data`
      has ended with `o`. */
  function CrashAfter<T(==)>(crash: set<T>, data: T, o: WriteOutcome): (r: set<T>)
    ensures o.Durable? ==> r == {data}
    ensures r <= crash + {data}
    ensures o.NotDurable? ==> crash <= r && data in r
  {
    match o
    case NotWritten => crash
    case NotDurable => crash + {data}
    case Durable => {data}
  }

  /** What a reader finds at the path then. */
  function SeenAfter<T>(seen: T, data: T, o: WriteOutcome): T {
    if o.NotWritten? then seen else data
  }

  class File<T(==)> {
    /** What a reader finds at the path. */
    var visible: T
    /** What a power loss may leave there. */
    ghost var crash: set<T>

    ghost predicate Valid()
      reads this
    {
      visible in crash
    }

    constructor (content: T)
      ensures Valid() && visible == content && crash == {content}
    {
      visible := content;
      crash := {content};
    }

    /** The rename: readers see the new content at once, a power loss may still
        leave the old directory entry. */
    method Rename(data: T)
      requires Valid()
      modifies this
      ensures Valid() && visible == data && crash == old(crash) + {data}
    {
      visible := data;
      crash := crash + {data};
    }

    /** A directory sync that succeeded: what is visible is what survives. */
    method SyncDirectory()
      requires Valid()
      modifies this
      ensures Valid() && visible == old(visible) && crash == {visible}
    {
      crash := {visible};
    }

    /** Every step may fail. `steps` counts the steps that succeed: creating
        the temporary file, setting its mode, writing it, syncing it, closing it
        and renaming it are the first six, opening and syncing the directory the
        last two.
        A power loss at any point of the call finds old or new content only:
        before the rename `crash` is untouched, between the rename and the end
        of the directory sync it is the old set with `data` added. */
    method WriteFile(data: T, steps: nat) returns (o: WriteOutcome)
      requires Valid()
      modifies this
      ensures Valid()
      ensures crash == CrashAfter(old(crash), data, o)
      ensures visible == SeenAfter(old(visible), data, o)
      ensures o == if steps < 6 then NotWritten else if steps < 8 then NotDurable else Durable
    {
      if steps < 6 {
        return NotWritten; // the temporary file is removed, the path untouched
      }
      Rename(data);
      if steps < 7 {
        return NotDurable; // the directory could not be opened
      }
      if steps < 8 {
        return NotDurable; // the directory could not be synced
      }
      SyncDirectory();
      return Durable;
    }
  }
}
