/** The spent set as the process holds it: the entries in memory and the file
    they are written to. Times are readings of the wall clock, handed in by
    the caller; `steps` says how far a write of the file gets. */
module SpentStore {
  import opened AtomicFile
  import opened SpentSet

  datatype ReserveResult = Got | Taken | NotPersisted(o: WriteOutcome)

  /** What an outpoint held before Reserve wrote over it. */
  datatype Was = Absent | Present(entry: Entry)

  function WasIn(m: Entries, p: Outpoint): Was {
    if p in m then Present(m[p]) else Absent
  }

  /** The entries with what Reserve wrote over put back. */
  function PutBack(m: Entries, previous: map<Outpoint, Was>): Entries {
    map p | p in m.Keys + previous.Keys && (p in previous ==> previous[p].Present?)
      :: if p in previous then previous[p].entry else m[p]
  }

  lemma PutBackUndoesReserve(m: Entries, inputs: seq<Outpoint>, intent: string, now: nat, ttl: nat,
                             previous: map<Outpoint, Was>)
    requires previous.Keys == ToReserve(m, inputs, intent)
    requires forall p | p in previous :: previous[p] == WasIn(m, p)
    ensures PutBack(AfterReserve(m, inputs, intent, now, ttl), previous) == m
  {
  }

  /** One more input of the reservation. */
  lemma ReserveOne(m: Entries, inputs: seq<Outpoint>, p: Outpoint, intent: string, now: nat, ttl: nat)
    ensures ToReserve(m, inputs + [p], intent)
         == ToReserve(m, inputs, intent) + (if intent != "" && SentBy(m, p, intent) then {} else {p})
    ensures intent != "" && SentBy(m, p, intent) ==>
              AfterReserve(m, inputs + [p], intent, now, ttl) == AfterReserve(m, inputs, intent, now, ttl)
    ensures !(intent != "" && SentBy(m, p, intent)) ==>
              AfterReserve(m, inputs + [p], intent, now, ttl) ==
              AfterReserve(m, inputs, intent, now, ttl)[p := Entry(Reserved(now + ttl), now, false, intent)]
  {
    assert forall o :: o in inputs + [p] <==> o in inputs || o == p;
  }

  /** An outpoint not written yet is in memory as it was, and one written is no
      longer asked about. */
  lemma NotYetWritten(m: Entries, inputs: seq<Outpoint>, p: Outpoint, intent: string, now: nat, ttl: nat)
    requires p !in ToReserve(m, inputs, intent)
    ensures var m' := AfterReserve(m, inputs, intent, now, ttl);
            WasIn(m', p) == WasIn(m, p) && SentBy(m', p, intent) == SentBy(m, p, intent)
  {
  }

  lemma WrittenAgain(m: Entries, inputs: seq<Outpoint>, p: Outpoint, intent: string, now: nat, ttl: nat)
    requires p in ToReserve(m, inputs, intent)
    ensures ToReserve(m, inputs + [p], intent) == ToReserve(m, inputs, intent)
    ensures AfterReserve(m, inputs + [p], intent, now, ttl) == AfterReserve(m, inputs, intent, now, ttl)
  {
    ReserveOne(m, inputs, p, intent, now, ttl);
  }

  function Without(m: Entries, drop: Entry -> bool): Entries {
    map p | p in m && !drop(m[p]) :: m[p]
  }

  function Only(m: Entries, drop: Entry -> bool): Entries {
    map p | p in m && drop(m[p]) :: m[p]
  }

  lemma DropSplits(m: Entries, drop: Entry -> bool)
    ensures Without(m, drop) + Only(m, drop) == m
    ensures Only(m, drop) == map[] <==> Without(m, drop) == m
  {
    if Only(m, drop) == map[] {
      assert forall p | p in m :: p !in Only(m, drop);
    } else {
      var p :| p in Only(m, drop);
      assert p !in Without(m, drop);
    }
  }

  lemma MarkExactly(m: Entries, inputs: seq<Outpoint>, txid: string, intent: string, now: nat)
    ensures !CanMark(m, inputs, txid, intent) <==>
              exists p :: p in inputs && p in m && AnothersSend(m[p], txid, intent)
    ensures CanMark(m, inputs, txid, intent) ==>
              BecomeSent(m, AfterMark(m, inputs, txid, intent, now), inputs, intent, txid, now)
  {
  }

  class Store {
    var entries: Entries
    const file: File<Entries>

    ghost predicate Valid()
      reads this, file
    {
      file.Valid()
    }

    /** Loading drops the confirmed entries that are old and keeps the rest. */
    constructor (f: File<Entries>, now: nat)
      requires f.Valid()
      ensures Valid() && file == f && entries == AfterLoad(f.visible, now)
      ensures forall p :: p in entries <==>
                p in f.visible && !(f.visible[p].confirmed && f.visible[p].spentAt + 7200 < now)
      ensures forall p | p in entries :: entries[p] == f.visible[p]
    {
      file := f;
      entries := AfterLoad(f.visible, now);
    }

    /** The file after a write of `m` that ended with `o`. */
    ghost predicate Written(visible: Entries, crash: set<Entries>, m: Entries, o: WriteOutcome)
      reads this, file
    {
      file.visible == SeenAfter(visible, m, o) && file.crash == CrashAfter(crash, m, o)
    }

    ghost predicate Unwritten(visible: Entries, crash: set<Entries>)
      reads this, file
    {
      file.visible == visible && file.crash == crash
    }

    method Persist(steps: nat) returns (o: WriteOutcome)
      requires Valid()
      modifies file
      ensures Valid() && Written(old(file.visible), old(file.crash), entries, o)
    {
      o := file.WriteFile(entries, steps);
    }

    method CanBeReserved(inputs: seq<Outpoint>, intent: string, now: nat) returns (ok: bool)
      ensures ok == CanReserve(entries, inputs, intent, now)
    {
      for k := 0 to |inputs|
        invariant CanReserve(entries, inputs[..k], intent, now)
      {
        var p := inputs[k];
        if p in entries && !Expired(entries[p], now) && !(intent != "" && entries[p].intent == intent) {
          return false;
        }
      }
      assert inputs[..|inputs|] == inputs;
      return true;
    }

    /** Writes the reservations into memory and returns what they replaced. */
    method Overwrite(inputs: seq<Outpoint>, intent: string, now: nat, ttl: nat) returns (previous: map<Outpoint, Was>)
      modifies this`entries
      ensures entries == AfterReserve(old(entries), inputs, intent, now, ttl)
      ensures previous.Keys == ToReserve(old(entries), inputs, intent)
      ensures forall p | p in previous :: previous[p] == WasIn(old(entries), p)
    {
      previous := map[];
      for k := 0 to |inputs|
        invariant entries == AfterReserve(old(entries), inputs[..k], intent, now, ttl)
        invariant previous.Keys == ToReserve(old(entries), inputs[..k], intent)
        invariant forall p | p in previous :: previous[p] == WasIn(old(entries), p)
      {
        var p := inputs[k];
        assert inputs[..k + 1] == inputs[..k] + [p];
        if p in previous {
          WrittenAgain(old(entries), inputs[..k], p, intent, now, ttl);
        } else {
          NotYetWritten(old(entries), inputs[..k], p, intent, now, ttl);
          ReserveOne(old(entries), inputs[..k], p, intent, now, ttl);
        }
        if p !in previous && !(p in entries && intent != "" && entries[p].intent == intent && entries[p].kind.Sent?) {
          previous := previous[p := WasIn(entries, p)];
          entries := entries[p := Entry(Reserved(now + ttl), now, false, intent)];
        }
      }
      assert inputs[..|inputs|] == inputs;
    }

    /** All or nothing, on disk as well as in memory: unless the new set is
        known to be durable, memory is as it was. */
    method Reserve(inputs: seq<Outpoint>, intent: string, now: nat, ttl: nat, steps: nat) returns (r: ReserveResult)
      requires Valid()
      modifies this`entries, file
      ensures Valid()
      ensures r.Taken? <==> !CanReserve(old(entries), inputs, intent, now)
      ensures entries == if r.Got? then AfterReserve(old(entries), inputs, intent, now, ttl) else old(entries)
      ensures r.Taken? <==> exists p :: p in inputs && p in old(entries) && Claimed(old(entries)[p], intent, now)
      ensures r.Got? ==> BecomeReserved(old(entries), entries, inputs, intent, now + ttl, now)
      ensures r.NotPersisted? ==> !r.o.Durable? && ToReserve(old(entries), inputs, intent) != {}
      ensures if r.Taken? ||
              ToReserve(old(entries), inputs, intent) == {} then Unwritten(old(file.visible), old(file.crash))
              else Written(old(file.visible), old(file.crash), AfterReserve(old(entries), inputs, intent, now, ttl),
                           if r.NotPersisted? then r.o else Durable)
    {
      var free := CanBeReserved(inputs, intent, now);
      if !free {
        return Taken;
      }
      var previous := Overwrite(inputs, intent, now, ttl);
      PutBackUndoesReserve(old(entries), inputs, intent, now, ttl, previous);
      if previous.Keys == {} {
        return Got; // every input is this withdrawal's own send already
      }
      var o := Persist(steps);
      if !o.Durable? {
        entries := PutBack(entries, previous);
        return NotPersisted(o);
      }
      return Got;
    }

    /** Drops every entry that `drop` picks; the keys are visited in any order. */
    method DropWhere(drop: Entry -> bool) returns (dropped: Entries)
      modifies this`entries
      ensures entries == Without(old(entries), drop) && dropped == Only(old(entries), drop)
    {
      dropped := map[];
      var left := entries.Keys;
      while left != {}
        invariant left <= old(entries).Keys
        invariant entries == map p | p in old(entries) && (p in left || !drop(old(entries)[p])) :: old(entries)[p]
        invariant dropped == map p | p in old(entries) && p !in left && drop(old(entries)[p]) :: old(entries)[p]
        decreases |left|
      {
        var p :| p in left;
        if drop(entries[p]) {
          dropped := dropped[p := entries[p]];
          entries := entries - {p};
        }
        left := left - {p};
      }
    }

    /** Nothing is written when nothing is released. */
    method Release(intent: string, steps: nat) returns (o: WriteOutcome)
      requires Valid()
      modifies this`entries, file
      ensures Valid() && entries == AfterRelease(old(entries), intent)
      ensures forall p :: p in entries <==>
                p in old(entries) && !(old(entries)[p].kind.Reserved? && old(entries)[p].intent == intent)
      ensures forall p | p in entries :: entries[p] == old(entries)[p]
      ensures if entries == old(entries) then Unwritten(old(file.visible), old(file.crash))
              else Written(old(file.visible), old(file.crash), entries, o)
    {
      var drop := (e: Entry) => e.kind.Reserved? && e.intent == intent;
      var dropped := DropWhere(drop);
      DropSplits(old(entries), drop);
      assert entries == AfterRelease(old(entries), intent);
      if dropped == map[] {
        return Durable;
      }
      o := Persist(steps);
    }

    /** The entries come back when the file still holds them. The empty id,
        which would match every entry written without one, is refused. */
    method Forget(intent: string, steps: nat) returns (o: WriteOutcome)
      requires Valid()
      modifies this`entries, file
      ensures Valid()
      ensures intent == "" ==> o.NotWritten? && Unwritten(old(file.visible), old(file.crash))
      ensures entries == if o.NotWritten? then old(entries) else AfterForget(old(entries), intent)
      ensures !o.NotWritten? ==> forall p :: p in entries <==> p in old(entries) && old(entries)[p].intent != intent
      ensures forall p | p in entries :: entries[p] == old(entries)[p]
      ensures intent != "" ==>
                if AfterForget(old(entries), intent) == old(entries) then Unwritten(old(file.visible), old(file.crash))
                else Written(old(file.visible), old(file.crash), AfterForget(old(entries), intent), o)
    {
      if intent == "" {
        return NotWritten;
      }
      var drop := (e: Entry) => e.intent == intent;
      var dropped := DropWhere(drop);
      DropSplits(old(entries), drop);
      assert entries == AfterForget(old(entries), intent);
      if dropped == map[] {
        return Durable;
      }
      o := Persist(steps);
      if o.NotWritten? {
        entries := entries + dropped;
      }
    }

    /** The entries stay whatever becomes of the write: the transaction is out. */
    method MarkBroadcastFor(inputs: seq<Outpoint>, txid: string, intent: string, now: nat, steps: nat)
      returns (ok: bool, o: WriteOutcome)
      requires Valid()
      modifies this`entries, file
      ensures Valid() && ok == CanMark(old(entries), inputs, txid, intent)
      ensures entries == AfterMark(old(entries), inputs, txid, intent, now)
      ensures !ok <==> exists p :: p in inputs && p in old(entries) && AnothersSend(old(entries)[p], txid, intent)
      ensures ok ==> BecomeSent(old(entries), entries, inputs, intent, txid, now)
      ensures if ok then Written(old(file.visible), old(file.crash), entries, o)
              else Unwritten(old(file.visible), old(file.crash))
    {
      ok := CanBeMarked(inputs, txid, intent);
      MarkExactly(entries, inputs, txid, intent, now);
      if !ok {
        return false, NotWritten;
      }
      MarkEach(inputs, txid, intent, now);
      o := Persist(steps);
      return true, o;
    }

    method MarkEach(inputs: seq<Outpoint>, txid: string, intent: string, now: nat)
      modifies this`entries
      ensures entries == old(entries) + map p | p in inputs :: Entry(Sent(txid), now, false, intent)
    {
      for k := 0 to |inputs|
        invariant entries == old(entries) + map p | p in inputs[..k] :: Entry(Sent(txid), now, false, intent)
      {
        entries := entries[inputs[k] := Entry(Sent(txid), now, false, intent)];
      }
      assert inputs[..|inputs|] == inputs;
    }

    method CanBeMarked(inputs: seq<Outpoint>, txid: string, intent: string) returns (ok: bool)
      ensures ok == CanMark(entries, inputs, txid, intent)
    {
      for k := 0 to |inputs|
        invariant CanMark(entries, inputs[..k], txid, intent)
      {
        if inputs[k] in entries && SentByAnother(entries[inputs[k]], txid, intent) {
          return false;
        }
      }
      assert inputs[..|inputs|] == inputs;
      return true;
    }

    /** An expired reservation is dropped, in memory alone, by the lookup that
        finds it. */
    method IsSpent(p: Outpoint, now: nat) returns (spent: bool)
      modifies this`entries
      ensures spent ==
                (p in old(entries) && !(old(entries)[p].kind.Reserved? && now > old(entries)[p].kind.expiresAt))
      ensures entries == if p in old(entries) && Expired(old(entries)[p], now) then old(entries) - {p} else old(entries)
    {
      if p !in entries {
        return false;
      }
      if Expired(entries[p], now) {
        entries := entries - {p};
        return false;
      }
      return true;
    }

    method ConfirmSpentAll(inputs: seq<Outpoint>, steps: nat) returns (o: WriteOutcome)
      requires Valid()
      modifies this`entries, file
      ensures Valid() && entries == AfterConfirm(old(entries), inputs)
      ensures entries.Keys == old(entries).Keys
      ensures forall p | p in entries :: entries[p] ==
                old(entries)[p].(confirmed := old(entries)[p].confirmed || p in inputs)
      ensures if entries == old(entries) then Unwritten(old(file.visible), old(file.crash))
              else Written(old(file.visible), old(file.crash), entries, o)
    {
      var changed := false;
      for k := 0 to |inputs|
        invariant entries == AfterConfirm(old(entries), inputs[..k])
        invariant changed <==> entries != old(entries)
        invariant changed ==> exists p :: p in old(entries) && p in inputs[..k] && !old(entries)[p].confirmed
        invariant Unwritten(old(file.visible), old(file.crash)) && Valid()
      {
        var p := inputs[k];
        assert inputs[..k + 1] == inputs[..k] + [p];
        if p in entries && !entries[p].confirmed {
          entries := entries[p := entries[p].(confirmed := true)];
          changed := true;
          assert p in old(entries) && p in inputs[..k + 1];
          assert entries[p] != old(entries)[p];
        }
      }
      assert inputs[..|inputs|] == inputs;
      if !changed {
        return Durable;
      }
      o := Persist(steps);
    }

    method Prune(now: nat, steps: nat) returns (o: WriteOutcome)
      requires Valid()
      modifies this`entries, file
      ensures Valid() && entries == AfterPrune(old(entries), now)
      ensures forall p :: p in entries <==>
                p in old(entries) && !(old(entries)[p].confirmed && old(entries)[p].spentAt + 3600 < now) &&
                !(old(entries)[p].kind.Reserved? && now > old(entries)[p].kind.expiresAt)
      ensures forall p | p in entries :: entries[p] == old(entries)[p]
      ensures if entries == old(entries) then Unwritten(old(file.visible), old(file.crash))
              else Written(old(file.visible), old(file.crash), entries, o)
    {
      var drop := (e: Entry) => Prunable(e, now);
      var dropped := DropWhere(drop);
      DropSplits(old(entries), drop);
      assert entries == AfterPrune(old(entries), now);
      if dropped == map[] {
        return Durable;
      }
      o := Persist(steps);
    }

    /** The ids `pick` finds among the entries, each once. */
    method Owners(pick: Entry -> bool) returns (ids: seq<string>)
      ensures forall id :: id in ids <==> exists p :: p in entries && pick(entries[p]) && entries[p].intent == id
      ensures forall i, j :: 0 <= i < j < |ids| ==> ids[i] != ids[j]
    {
      ids := [];
      var left := entries.Keys;
      while left != {}
        invariant left <= entries.Keys
        invariant forall id :: id in ids <==>
                    exists p :: p in entries && p !in left && pick(entries[p]) && entries[p].intent == id
        invariant forall i, j :: 0 <= i < j < |ids| ==> ids[i] != ids[j]
        decreases |left|
      {
        var p :| p in left;
        left := left - {p};
        if pick(entries[p]) && entries[p].intent !in ids {
          ids := ids + [entries[p].intent];
        }
      }
    }
  }
}
