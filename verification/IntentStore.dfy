/** The intents file and its copy in memory. */
module IntentStore {
  import opened AtomicFile
  import opened Withdrawal

  datatype SaveResult = Wrote(o: WriteOutcome) | Exists | Stale

  class FileStore {
    var intents: Intents
    const file: File<Intents>

    /** Memory and a reader of the file never disagree. */
    ghost predicate Valid()
      reads this, file
    {
      file.Valid() && file.visible == intents
    }

    constructor (f: File<Intents>)
      requires f.Valid()
      ensures Valid() && file == f && intents == f.visible
    {
      file := f;
      intents := f.visible;
    }

    /** Memory is rolled back exactly when the file still holds the old
        content. */
    method Put(id: string, r: Intent, steps: nat) returns (o: WriteOutcome)
      requires Valid()
      modifies this`intents, file
      ensures Valid()
      ensures intents == if o.NotWritten? then old(intents) else old(intents)[id := r]
      ensures file.crash == CrashAfter(old(file.crash), old(intents)[id := r], o)
    {
      var had := id in intents;
      var previous := if had then intents[id] else r;
      intents := intents[id := r];
      o := file.WriteFile(intents, steps);
      if o.NotWritten? {
        if had {
          intents := intents[id := previous];
        } else {
          intents := intents - {id};
        }
        assert intents == old(intents);
      }
    }

    method Create(id: string, r: Intent, steps: nat) returns (res: SaveResult)
      requires Valid()
      modifies this`intents, file
      ensures Valid()
      ensures res.Exists? <==> id in old(intents)
      ensures !res.Stale?
      ensures res.Exists? ==> intents == old(intents) && file.crash == old(file.crash)
      ensures res.Wrote? ==> intents == if res.o.NotWritten? then old(intents) else old(intents)[id := r]
      ensures res.Wrote? ==> file.crash == CrashAfter(old(file.crash), old(intents)[id := r], res.o)
    {
      if id in intents {
        return Exists;
      }
      var o := Put(id, r, steps);
      return Wrote(o);
    }

    /** Only over a record that is still in the state the writer read. */
    method Update(id: string, r: Intent, from: State, steps: nat) returns (res: SaveResult)
      requires Valid()
      modifies this`intents, file
      ensures Valid()
      ensures res.Stale? <==> !(id in old(intents) && old(intents)[id].state == from)
      ensures !res.Exists?
      ensures res.Stale? ==> intents == old(intents) && file.crash == old(file.crash)
      ensures res.Wrote? ==> intents == if res.o.NotWritten? then old(intents) else old(intents)[id := r]
      ensures res.Wrote? ==> file.crash == CrashAfter(old(file.crash), old(intents)[id := r], res.o)
    {
      if id !in intents || intents[id].state != from {
        return Stale;
      }
      var o := Put(id, r, steps);
      return Wrote(o);
    }

    /** The ids of the records in one state, each once. */
    method List(state: State) returns (ids: seq<string>)
      ensures forall id :: id in ids <==> id in intents && intents[id].state == state
      ensures forall i, j :: 0 <= i < j < |ids| ==> ids[i] != ids[j]
    {
      ids := [];
      var left := intents.Keys;
      while left != {}
        invariant left <= intents.Keys
        invariant forall id :: id in ids <==> id in intents && id !in left && intents[id].state == state
        invariant forall i, j :: 0 <= i < j < |ids| ==> ids[i] != ids[j]
        decreases |left|
      {
        var id :| id in left;
        left := left - {id};
        if intents[id].state == state {
          ids := ids + [id];
        }
      }
    }
  }
}
