/** Every action keeps the facts about inputs, and what follows from them: no
    withdrawal of this engine double-spends another. */
module WithdrawalOwnership {
  import opened AtomicFile
  import opened SpentSet
  import opened Broadcaster
  import opened Withdrawal
  import opened WithdrawalRecords
  import opened WithdrawalInputs

  ghost predicate Inv(w: World) {
    RecordInv(w) && InputInv(w)
  }

  /** What an action must establish, before the flags are raised. */
  ghost predicate Kept(w: World, w': World, disturbs: bool) {
    KeptUnless(w, w', disturbs, false)
  }

  ghost predicate KeptUnless(w: World, w': World, disturbs: bool, unsettles: bool) {
    && EntriesInv(w')
    && (Orderly(w) && !disturbs ==> OutInv(w'))
    && (AllLive(w) && !disturbs && !unsettles ==> LiveInv(w'))
  }

  lemma ShrinkKeeps(w: World, w': World, m: Entries, who: string, unsettles: bool)
    requires Inv(w) && Writes(w, w', m) && w'.remarked == w.remarked && Shrinks(w, m, who) && Finished(w, who)
    requires AllLive(w) && !unsettles ==> Over(w, m, who)
    requires FlagsOk(w', m)
    requires forall i :: IsSender(w'.call, i) ==> w'.call == w.call
    requires w'.call.Building? ==> w'.call == w.call
    ensures KeptUnless(w, w', false, unsettles)
  {
    assert SendersKnown(w, m);
    WritesEntries(w, w', m);
    if Orderly(w) {
      ShrinkOut(w, w', m, who);
    }
    if AllLive(w) && !unsettles {
      ShrinkLive(w, w', m, who);
    }
  }

  /** No intent has the empty id. */
  lemma NobodyIsOver(w: World, m: Entries)
    requires RecordInv(w)
    ensures Over(w, m, "")
  {
  }

  /** A save that leaves the state, or ends the intent. */
  lemma SaveKeeps(w: World, w': World, id: string, r: Intent)
    requires Inv(w) && Saves(w, w', id, r) && KeepsInputs(w, id, r)
    requires id in w.store ==> Follows(w.store[id], r)
    requires id in w.store ==> r.state == w.store[id].state || r.state in {Confirmed, Failed}
    requires id !in w.store ==> r.state == Created
    requires id in w.store && !Held(r) ==> !Held(w.store[id])
    requires w.phase == Running || id !in w.store
    requires forall i :: IsSender(w'.call, i) ==>
      IsSender(w.call, i) && (w'.call.Marked? ==> w.call.Marked?) && i in w.store && w.store[i].state != Created
    requires forall i :: IsSender(w'.call, i) ==> r.state != Broadcast
    requires w'.call.Building? ==> w'.call == w.call && r.state !in {Built, Broadcast}
    ensures Kept(w, w', false)
  {
    assert w.store in w.storeCrash;
    SavesEntries(w, w', id, r);
    if Orderly(w) {
      if r.state == Broadcast {
        assert Out(w, id) && OutOk(w, id);
      }
      SavesOut(w, w', id, r);
    }
    if AllLive(w) {
      if r.state in {Built, Broadcast} {
        SaveStaysLive(w, id, r);
      }
      SavesLive(w, w', id, r);
    }
  }

  lemma SaveStaysLive(w: World, id: string, r: Intent)
    requires FileInv(w) && LiveInv(w) && w.phase == Running && id in w.store
    requires r.state in {Built, Broadcast} && r.state == w.store[id].state && r.inputs == w.store[id].inputs
    ensures MayGoLive(w, id, r)
  {
    assert w.store in w.storeCrash;
    assert MaybeIn(w, id, r.state) && Claims(w, id);
  }

  /** The lock holder moves on and nothing is written. */
  lemma CallKeeps(w: World, w': World)
    requires Inv(w)
    requires Saves(w, w', "", NewIntent("", 0, 0, 0)) && w'.store == w.store && w'.storeCrash == w.storeCrash
    requires forall i :: IsSender(w'.call, i) ==>
      IsSender(w.call, i) && (w'.call.Marked? ==> w.call.Marked?) && i in w.store && w.store[i].state != Created
    requires !w'.call.Building?
    ensures Kept(w, w', false)
  {
    assert "" !in w.store by {
      assert w.store in w.storeCrash;
    }
    SaveKeeps(w, w', "", NewIntent("", 0, 0, 0));
  }

  // ----- Restarts -----

  lemma RestartMaybeIn(w: World, intents: Intents, entries: Entries, i: string, st: State)
    requires FileInv(w) && intents in w.storeCrash && MaybeIn(Restart(w, intents, entries), i, st) && st != Created
    ensures MaybeIn(w, i, st) && i in w.store && i in intents && intents[i].state == st &&
            intents[i].inputs == w.store[i].inputs
  {
  }

  lemma LoadedUnsent(m: Entries, now: nat, p: Outpoint, id: string)
    requires Unsent(m, p, id)
    ensures Unsent(AfterLoad(m, now), p, id)
  {
  }

  lemma RestartOutOk(w: World, intents: Intents, entries: Entries, i: string)
    requires OutOk(w, i) && i in intents && intents[i].inputs == w.store[i].inputs && entries in w.spentCrash
    ensures OutOk(Restart(w, intents, entries), i)
  {
    var w' := Restart(w, intents, entries);
    forall p | p in intents[i].inputs ensures Unsent(w'.spent, p, i) && Unsent(entries, p, i) {
      LoadedUnsent(entries, w.clock, p, i);
    }
  }

  lemma RestartWaitingOk(w: World, intents: Intents, entries: Entries, i: string)
    requires FlagsOk(w, entries)
    ensures WaitingOk(Restart(w, intents, entries), i)
  {
  }

  lemma RestartOut(w: World, intents: Intents, entries: Entries)
    requires FileInv(w) && EntriesInv(w) && OutInv(w) && intents in w.storeCrash && entries in w.spentCrash
    ensures OutInv(Restart(w, intents, entries))
  {
    var w' := Restart(w, intents, entries);
    forall i | Out(w', i)
      ensures Out(w, i) && i in w.store && i in w'.store && w'.store[i].inputs == w.store[i].inputs && OutOk(w', i)
    {
      RestartMaybeIn(w, intents, entries, i, Broadcast);
      RestartOutOk(w, intents, entries, i);
    }
    forall i | InState(w', i, Built) && !Held(w'.store[i]) ensures WaitingOk(w', i) {
      RestartWaitingOk(w, intents, entries, i);
    }
  }

  lemma LoadedOwned(w: World, w': World, entries: Entries, i: string, inputs: seq<Outpoint>)
    requires EntriesInv(w) && AllOwned(w, i, inputs) && entries in w.spentCrash
    requires w'.spent == AfterLoad(entries, w.clock) && w'.spentCrash <= w.spentCrash && w'.confirmed == w.confirmed
    ensures AllOwned(w', i, inputs)
  {
    assert FlagsOk(w, entries);
  }

  lemma RestartLive(w: World, intents: Intents, entries: Entries)
    requires FileInv(w) && EntriesInv(w) && LiveInv(w) && intents in w.storeCrash && entries in w.spentCrash
    ensures LiveInv(Restart(w, intents, entries))
  {
    var w' := Restart(w, intents, entries);
    assert NoShare(intents);
    forall i | Claims(w', i) ensures HasBytes(intents, i) {
    }
    forall i | MaybeIn(w', i, Built) && i in w'.store ensures AllOwned(w', i, w'.store[i].inputs) {
      RestartMaybeIn(w, intents, entries, i, Built);
      LoadedOwned(w, w', entries, i, w.store[i].inputs);
    }
  }

  lemma RestartEntries(w: World, intents: Intents, entries: Entries)
    requires FileInv(w) && EntriesInv(w) && intents in w.storeCrash && entries in w.spentCrash
    ensures EntriesInv(Restart(w, intents, entries))
  {
    assert FlagsOk(w, entries) && SendersKnown(w, entries);
  }

  lemma RestartKeeps(w: World, intents: Intents, entries: Entries)
    requires Inv(w) && intents in w.storeCrash && entries in w.spentCrash
    ensures Kept(w, Restart(w, intents, entries), false)
  {
    RestartEntries(w, intents, entries);
    if Orderly(w) {
      RestartOut(w, intents, entries);
    }
    if AllLive(w) {
      RestartLive(w, intents, entries);
    }
  }

  /** What was read is one of the contents, so it has what they all have. */
  lemma ReopenWaitingOk(w: World, i: string)
    requires EntriesInv(w) && WaitingOk(w, i)
    ensures WaitingOk(Reopen(w), i)
  {
    assert FlagsOk(w, w.spentSeen);
  }

  lemma ReopenOut(w: World)
    requires EntriesInv(w) && OutInv(w)
    ensures OutInv(Reopen(w))
  {
    var w' := Reopen(w);
    forall i | Out(w', i) ensures OutOk(w', i) {
      SameFiles(w, w', i);
      assert OutOk(w, i);
      forall p | p in w'.store[i].inputs ensures Unsent(w'.spent, p, i) {
        LoadedUnsent(w.spentSeen, w.clock, p, i);
      }
    }
    forall i, j | Out(w', i) && Out(w', j) && i != j && i in w'.store && j in w'.store
      ensures Disjoint(w'.store[i].inputs, w'.store[j].inputs)
    {
      SameFiles(w, w', i);
      SameFiles(w, w', j);
    }
    forall i | InState(w', i, Built) && !Held(w'.store[i]) ensures WaitingOk(w', i) {
      assert InState(w, i, Built) && WaitingOk(w, i);
      ReopenWaitingOk(w, i);
    }
  }

  lemma ReopenLive(w: World)
    requires FileInv(w) && EntriesInv(w) && LiveInv(w)
    ensures LiveInv(Reopen(w))
  {
    var w' := Reopen(w);
    WritesClaimsApart(w, w');
    forall i | MaybeIn(w', i, Built) && i in w'.store ensures AllOwned(w', i, w'.store[i].inputs) {
      SameFiles(w, w', i);
      LoadedOwned(w, w', w.spentSeen, i, w.store[i].inputs);
    }
  }

  lemma ReopenKeeps(w: World)
    requires Inv(w)
    ensures Kept(w, Reopen(w), false)
  {
    var w' := Reopen(w);
    assert EntriesInv(w') by {
      assert FlagsOk(w, w.spentSeen) && SendersKnown(w, w.spentSeen);
      assert forall c: Entries :: c in w.spentCrash ==> FlagsOk(w, c) && SendersKnown(w, c);
    }
    if Orderly(w) {
      ReopenOut(w);
    }
    if AllLive(w) {
      ReopenLive(w);
    }
  }

  // ----- The outside -----

  lemma TickKeeps(w: World, now: nat)
    requires Inv(w)
    ensures Kept(w, w.(clock := now), false)
  {
    NobodyIsOver(w, w.spent);
    ShrinkKeeps(w, w.(clock := now), w.spent, "", false);
  }

  lemma SubmitKeeps(w: World, id: string, r: Intent, o: WriteOutcome)
    requires Inv(w) && id !in w.store && r.state == Created
    ensures Kept(w, Saved(w, id, r, o), false)
  {
    SaveKeeps(w, Saved(w, id, r, o), id, r);
  }

  lemma ChangedWrites(w: World, m: Entries, o: WriteOutcome, call: Call, confirmed: set<Outpoint>)
    requires w.confirmed <= confirmed && w.spentSeen in w.spentCrash
    ensures Writes(w, KeptIfChanged(w, m, o).(confirmed := confirmed, call := call), m)
  {
  }

  /** Entries dropped from memory, or flagged, and written if that changed it. */
  lemma DropKeeps(w: World, m: Entries, who: string, o: WriteOutcome, call: Call, confirmed: set<Outpoint>,
                  unsettles: bool)
    requires Inv(w) && Shrinks(w, m, who) && Finished(w, who) && (AllLive(w) && !unsettles ==> Over(w, m, who))
    requires w.confirmed <= confirmed && FlagsOk(w.(confirmed := confirmed), m)
    requires call == w.call || call == Idle || call.Confirming?
    ensures KeptUnless(w, KeptIfChanged(w, m, o).(confirmed := confirmed, call := call), false, unsettles)
  {
    ChangedWrites(w, m, o, call, confirmed);
    ShrinkKeeps(w, KeptIfChanged(w, m, o).(confirmed := confirmed, call := call), m, who, unsettles);
  }

  lemma PruneShrinks(w: World)
    requires FlagsOk(w, w.spent)
    ensures Shrinks(w, AfterPrune(w.spent, w.clock), "")
    ensures FlagsOk(w.(confirmed := w.confirmed), AfterPrune(w.spent, w.clock))
  {
  }

  lemma PruneKeeps(w: World, o: WriteOutcome)
    requires Inv(w)
    ensures Kept(w, KeptIfChanged(w, AfterPrune(w.spent, w.clock), o).(confirmed := w.confirmed, call := w.call), false)
  {
    NobodyIsOver(w, AfterPrune(w.spent, w.clock));
    PruneShrinks(w);
    DropKeeps(w, AfterPrune(w.spent, w.clock), "", o, w.call, w.confirmed, false);
  }

  lemma DropExpiredKeeps(w: World, p: Outpoint)
    requires Inv(w) && p in w.spent && Expired(w.spent[p], w.clock)
    ensures Kept(w, w.(spent := w.spent - {p}), false)
  {
    NobodyIsOver(w, w.spent - {p});
    ShrinkKeeps(w, w.(spent := w.spent - {p}), w.spent - {p}, "", false);
  }

  function NowConfirmed(w: World, outs: seq<Outpoint>): set<Outpoint> {
    w.confirmed + (set p | p in outs)
  }

  lemma ConfirmShrinks(w: World, outs: seq<Outpoint>)
    requires FlagsOk(w, w.spent)
    ensures Shrinks(w, AfterConfirm(w.spent, outs), "")
    ensures FlagsOk(w.(confirmed := NowConfirmed(w, outs)), AfterConfirm(w.spent, outs))
  {
  }

  lemma ConfirmKeeps(w: World, outs: seq<Outpoint>, o: WriteOutcome, call: Call)
    requires Inv(w) && (call == w.call || call.Confirming?)
    ensures Kept(w, KeptIfChanged(w, AfterConfirm(w.spent, outs), o).(confirmed := NowConfirmed(w, outs),
                                                                      call := call), false)
  {
    NobodyIsOver(w, AfterConfirm(w.spent, outs));
    ConfirmShrinks(w, outs);
    DropKeeps(w, AfterConfirm(w.spent, outs), "", o, call, NowConfirmed(w, outs), false);
  }

  // ----- Build -----

  lemma BuildReserveKeeps(w: World, id: string, inputs: seq<Outpoint>, ttl: nat, o: WriteOutcome)
    requires Inv(w) && CanBegin(w) && InState(w, id, Created) && CanReserve(w.spent, inputs, id, w.clock)
    ensures Kept(w, Apply(w, BuildReserve(id, inputs, ttl, o)), Disturbs(w, BuildReserve(id, inputs, ttl, o)))
  {
    var w' := Apply(w, BuildReserve(id, inputs, ttl, o));
    ReserveKeeps(w, w', id, inputs, ttl, o, Disturbs(w, BuildReserve(id, inputs, ttl, o)));
  }

  lemma CreatedHasNoClaim(w: World, id: string)
    requires FileInv(w) && InState(w, id, Created)
    ensures !Claims(w, id)
  {
  }

  /** A reservation's outcome, for Build and for Recover. */
  lemma ReserveKeeps(w: World, w': World, id: string, inputs: seq<Outpoint>, ttl: nat, o: WriteOutcome, disturbs: bool)
    requires Inv(w) && CanBegin(w) && id in w.store && CanReserve(w.spent, inputs, id, w.clock)
    requires InState(w, id, Built) ==> inputs == w.store[id].inputs && w'.call == Idle
    requires InState(w, id, Created) || InState(w, id, Built)
    requires !disturbs ==> Fresh(w, inputs)
    requires w' == ReserveIfNeeded(w, id, inputs, ttl, o).(call := w'.call)
    requires w'.call == Idle || (w'.call == Building(id, inputs) && ReserveSucceeds(w, id, inputs, o))
    ensures Kept(w, w', disturbs)
  {
    var m := AfterReserve(w.spent, inputs, id, w.clock, ttl);
    assert id != "" by {
      assert w.store in w.storeCrash;
    }
    ReserveEntries(w, w', id, inputs, ttl, o);
    if Orderly(w) && !disturbs {
      ReserveOut(w, w', id, inputs, ttl);
    }
    if AllLive(w) && !disturbs {
      ReserveStaysLive(w, w', id, inputs, ttl, o);
    }
  }

  lemma ReserveEntries(w: World, w': World, id: string, inputs: seq<Outpoint>, ttl: nat, o: WriteOutcome)
    requires EntriesInv(w) && w' == ReserveIfNeeded(w, id, inputs, ttl, o).(call := w'.call)
    ensures Writes(w, w', AfterReserve(w.spent, inputs, id, w.clock, ttl)) && EntriesInv(w')
  {
    var m := AfterReserve(w.spent, inputs, id, w.clock, ttl);
    assert FlagsOk(w', m) && SendersKnown(w, m);
    if NothingToReserve(w, id, inputs) {
      assert m == w.spent;
    }
    WritesEntries(w, w', m);
  }

  lemma ReserveStaysLive(w: World, w': World, id: string, inputs: seq<Outpoint>, ttl: nat, o: WriteOutcome)
    requires Inv(w) && AllLive(w) && CanBegin(w) && id in w.store && id != "" &&
             CanReserve(w.spent, inputs, id, w.clock)
    requires InState(w, id, Built) ==> inputs == w.store[id].inputs && w'.call == Idle
    requires InState(w, id, Created) || InState(w, id, Built)
    requires Fresh(w, inputs) && Writes(w, w', AfterReserve(w.spent, inputs, id, w.clock, ttl))
    requires w' == ReserveIfNeeded(w, id, inputs, ttl, o).(call := w'.call)
    requires w'.call == Idle || (w'.call == Building(id, inputs) && ReserveSucceeds(w, id, inputs, o))
    ensures LiveInv(w')
  {
    if w'.call.Building? {
      BuildOwns(w, w', id, inputs, ttl, o);
    }
    if InState(w, id, Created) {
      CreatedHasNoClaim(w, id);
    }
    ReserveLive(w, w', id, inputs, ttl);
  }

  lemma BuildSaveKeeps(w: World, id: string, r: Intent, o: WriteOutcome, call: Call)
    requires Inv(w) && w.call.Building? && w.call.id == id && InState(w, id, Created)
    requires r == BuiltRecord(w.store[id], w.call.inputs, r.rawHex, r.txid, w.clock) &&
             (call.ReleaseDue? || call == Idle)
    ensures Kept(w, Saved(w, id, r, o).(call := call), false)
  {
    var w' := Saved(w, id, r, o).(call := call);
    assert w.store in w.storeCrash;
    assert !Held(w.store[id]) by {
      assert Held(w.store[id]) ==> NeverCreated(w, id);
    }
    SavesEntries(w, w', id, r);
    if Orderly(w) {
      SavesOut(w, w', id, r);
    }
    if AllLive(w) {
      SavesLive(w, w', id, r);
    }
  }

  lemma BuildAbortKeeps(w: World)
    requires Inv(w) && w.call.Building?
    ensures Kept(w, Apply(w, BuildAbort), false)
  {
    CallKeeps(w, Apply(w, BuildAbort));
  }

  lemma BuildFailKeeps(w: World, id: string, o: WriteOutcome)
    requires Inv(w) && Enabled(w, BuildFail(id, o))
    ensures Kept(w, Apply(w, BuildFail(id, o)), false)
  {
    SaveKeeps(w, Apply(w, BuildFail(id, o)), id, UnbuildableRecord(w.store[id], w.clock));
  }

  lemma DeferKeeps(w: World, id: string, o: WriteOutcome)
    requires Inv(w) && Enabled(w, Defer(id, o))
    ensures Kept(w, Apply(w, Defer(id, o)), false)
  {
    SaveKeeps(w, Apply(w, Defer(id, o)), id, DeferredRecord(w.store[id], w.clock));
  }

  // ----- Broadcast -----

  lemma SendReserved(w: World, id: string, ttl: nat, o: WriteOutcome, disturbs: bool)
    requires Inv(w) && CanBegin(w) && InState(w, id, Built) && !Held(w.store[id])
    requires CanReserve(w.spent, w.store[id].inputs, id, w.clock)
    requires !disturbs ==> Fresh(w, w.store[id].inputs)
    requires ReserveSucceeds(w, id, w.store[id].inputs, o)
    ensures Kept(w, ReserveIfNeeded(w, id, w.store[id].inputs, ttl, o).(call := Reserving(id)), disturbs)
  {
    var idle := ReserveIfNeeded(w, id, w.store[id].inputs, ttl, o);
    ReserveKeeps(w, idle, id, w.store[id].inputs, ttl, o, disturbs);
    assert w.store in w.storeCrash;
    if Orderly(w) && !disturbs {
      ReserveSender(w, idle.(call := Reserving(id)), id, ttl, o);
    }
    SenderKeeps(w, idle, id, disturbs);
  }

  lemma SenderKeeps(w: World, idle: World, id: string, disturbs: bool)
    requires Kept(w, idle, disturbs) && idle.call == Idle
    requires Orderly(w) && !disturbs ==> SenderOk(idle.(call := Reserving(id)), id)
    ensures Kept(w, idle.(call := Reserving(id)), disturbs)
  {
    var w' := idle.(call := Reserving(id));
    SameSpent(idle, w');
    WritesEntries(idle, w', idle.spent);
    if Orderly(w) && !disturbs {
      SenderBegins(idle, w', id);
    }
  }

  lemma SendReserveKeeps(w: World, id: string, ttl: nat, o: WriteOutcome, disturbs: bool, call: Call)
    requires Inv(w) && CanBegin(w) && InState(w, id, Built) && !Held(w.store[id])
    requires CanReserve(w.spent, w.store[id].inputs, id, w.clock) && (!disturbs ==> Fresh(w, w.store[id].inputs))
    requires call == if ReserveSucceeds(w, id, w.store[id].inputs, o) then Reserving(id) else Idle
    ensures Kept(w, ReserveIfNeeded(w, id, w.store[id].inputs, ttl, o).(call := call), disturbs)
  {
    var inputs := w.store[id].inputs;
    if ReserveSucceeds(w, id, inputs, o) {
      SendReserved(w, id, ttl, o, disturbs);
    } else {
      ReserveKeeps(w, ReserveIfNeeded(w, id, inputs, ttl, o).(call := Idle), id, inputs, ttl, o, disturbs);
    }
  }

  /** Taking the lock for a send adds one obligation, and only that. */
  lemma SenderBegins(w: World, w': World, id: string)
    requires EntriesInv(w) && OutInv(w) && w.call == Idle && w' == w.(call := Reserving(id)) && SenderOk(w', id)
    ensures OutInv(w')
    ensures LiveInv(w) ==> LiveInv(w')
  {
    SameSpent(w, w');
    forall i | Out(w, i) ensures Respects(w, w.spent, i) {
      assert OutOk(w, i);
    }
    WritesOut(w, w', w.spent);
    if LiveInv(w) {
      SameSpentLive(w, w');
    }
  }

  /** What does not touch the spent set leaves the waiting intents as they are. */
  lemma SameSpent(w: World, w': World)
    requires EntriesInv(w) && w' == w.(call := w'.call, clock := w'.clock, flags := w'.flags)
    ensures Writes(w, w', w.spent)
    ensures WaitersOk(w) ==> WaitersOk(w')
  {
    if WaitersOk(w) {
      forall i | InState(w', i, Built) && !Held(w'.store[i]) ensures WaitingOk(w', i) {
        assert InState(w, i, Built) && WaitingOk(w, i);
        WritesWaitingOk(w, w', w.spent, i);
      }
    }
  }

  lemma SameSpentLive(w: World, w': World)
    requires LiveInv(w) && Writes(w, w', w.spent) && w'.confirmed == w.confirmed
    requires w'.call.Building? ==> w'.call == w.call
    ensures LiveInv(w')
  {
    forall i | MaybeIn(w, i, Built) && i in w.store ensures KeepsOwned(w', w.spent, i, w.store[i].inputs) {
      assert AllOwned(w, i, w.store[i].inputs);
    }
    if w'.call.Building? {
      OwnedAfter(w, w', w.spent, w.call.id, w.call.inputs);
      forall i | Claims(w', i) && i != w'.call.id && i in w'.store
        ensures Disjoint(w'.store[i].inputs, w'.call.inputs)
      {
        SameFiles(w, w', i);
      }
    }
    WritesLive(w, w', w.spent);
  }

  lemma TouchKeeps(w: World, id: string, o: WriteOutcome)
    requires Inv(w) && Enabled(w, Touch(id, o))
    ensures Kept(w, Apply(w, Touch(id, o)), false)
  {
    SaveKeeps(w, Apply(w, Touch(id, o)), id, w.store[id].(updatedAt := w.clock));
  }

  lemma SaveAttemptKeeps(w: World, o: WriteOutcome)
    requires Inv(w) && w.call.Reserving?
    ensures Kept(w, Apply(w, SaveAttempt(o)), false)
  {
    SaveKeeps(w, Apply(w, SaveAttempt(o)), w.call.id, AttemptRecord(w.store[w.call.id], w.clock));
  }

  lemma HandOverKeeps(w: World)
    requires Inv(w) && w.call.Ready?
    ensures Kept(w, Apply(w, HandOver), false)
  {
    CallKeeps(w, Apply(w, HandOver));
  }

  lemma HearKeeps(w: World, out: Outcome)
    requires Inv(w) && w.call.Waiting?
    ensures Kept(w, WithAnswer(w, out).(call := Answered(w.call.id, w.call.prior, Classify(out))), false)
  {
    CallKeeps(w, WithAnswer(w, out).(call := Answered(w.call.id, w.call.prior, Classify(out))));
  }

  lemma MarkEntries(w: World, w': World, id: string, txid: string, o: WriteOutcome)
    requires EntriesInv(w) && id in w.store && NeverCreated(w, id) && CanMark(w.spent, w.store[id].inputs, txid, id)
    requires Marking(w, w', id, txid, o)
    ensures EntriesInv(w')
  {
    MarkWrites(w, w', id, txid, o);
    WritesEntries(w, w', AfterMark(w.spent, w.store[id].inputs, txid, id, w.clock));
  }

  /** A mark that is refused changes nothing but who is due. */
  lemma RefusedEntries(w: World, w': World, id: string, txid: string, o: WriteOutcome)
    requires EntriesInv(w) && id in w.store && !CanMark(w.spent, w.store[id].inputs, txid, id) &&
             Marking(w, w', id, txid, o)
    ensures EntriesInv(w')
  {
    WritesEntries(w, w', w.spent);
  }

  lemma MarkKeeps(w: World, w': World, id: string, txid: string, o: WriteOutcome)
    requires Inv(w) && id in w.store && Claims(w, id) && NeverCreated(w, id) && Marking(w, w', id, txid, o)
    requires Orderly(w) ==> forall p :: p in w.store[id].inputs ==> Unsent(w.spent, p, id)
    requires Orderly(w) ==>
      forall i :: Out(w, i) && i != id && i in w.store ==> Disjoint(w.store[i].inputs, w.store[id].inputs)
    requires InState(w, id, Built) ==> IsSender(w.call, id)
    requires forall i :: IsSender(w'.call, i) ==> i == id && IsSender(w.call, id)
    requires !w'.call.Building?
    ensures Kept(w, w', false)
  {
    assert id != "" by {
      assert w.store in w.storeCrash;
    }
    if CanMark(w.spent, w.store[id].inputs, txid, id) {
      MarkEntries(w, w', id, txid, o);
    } else {
      RefusedEntries(w, w', id, txid, o);
    }
    if Orderly(w) {
      MarkSucceeds(w, id, w.store[id].inputs, txid, o);
      MarkOut(w, w', id, txid, o);
    }
    if AllLive(w) {
      MarkLive(w, w', id, txid, o);
    }
  }

  /** While a send is under way, what is Broadcast on disk is so as read. */
  lemma OutAsRead(w: World, i: string)
    requires AllPinned(w) && Out(w, i)
    ensures InState(w, i, Broadcast)
  {
  }

  lemma AnsweredMarks(w: World, w': World, id: string, txid: string, o: WriteOutcome)
    requires Inv(w) && IsSender(w.call, id) && Sending(w, id) && w'.call.Marked? && w'.call.id == id
    requires Marking(w, w', id, txid, o)
    ensures Kept(w, w', false)
  {
    assert w.store in w.storeCrash;
    assert MaybeIn(w, id, Built);
    if Orderly(w) {
      assert SenderOk(w, id);
      forall i | Out(w, i) && i != id && i in w.store ensures Disjoint(w.store[i].inputs, w.store[id].inputs) {
        OutAsRead(w, i);
      }
    }
    MarkKeeps(w, w', id, txid, o);
  }

  lemma MarkInputsIsMarking(w: World, o: WriteOutcome)
    requires w.call.Answered? && w.call.id in w.store
    ensures Marking(w, Apply(w, MarkInputs(o)), w.call.id, MarkTxid(w.store[w.call.id], w.call.reply), o)
    ensures Apply(w, MarkInputs(o)).call == Marked(w.call.id, w.call.prior, w.call.reply)
  {
  }

  lemma MarkInputsKeeps(w: World, o: WriteOutcome)
    requires Inv(w) && Enabled(w, MarkInputs(o))
    ensures Kept(w, Apply(w, MarkInputs(o)), false)
  {
    var id := w.call.id;
    MarkInputsIsMarking(w, o);
    AnsweredMarks(w, Apply(w, MarkInputs(o)), id, MarkTxid(w.store[id], w.call.reply), o);
  }

  /** The node took the bytes: the intent becomes Broadcast owning every input. */
  lemma AcceptedKeeps(w: World, o: WriteOutcome)
    requires Inv(w) && w.call.Marked? && w.call.reply.Accepted?
    ensures Kept(w, Settled(w, w.call.id, w.call.prior, w.call.reply, o), false)
  {
    var id := w.call.id;
    var r := SettledRecord(w.store[id], w.call.prior, w.call.reply, w.clock);
    var w' := Settled(w, id, w.call.prior, w.call.reply, o);
    assert w.store in w.storeCrash;
    assert IsSender(w.call, id) && MaybeIn(w, id, Built);
    SavesEntries(w, w', id, r);
    if Orderly(w) {
      AcceptedGoesOut(w, id);
      SavesOut(w, w', id, r);
    }
    if AllLive(w) {
      assert MayGoLive(w, id, r) by {
        assert Claims(w, id);
      }
      SavesLive(w, w', id, r);
    }
  }

  lemma AcceptedGoesOut(w: World, id: string)
    requires OutInv(w) && w.call.Marked? && w.call.id == id && Sending(w, id)
    ensures MayGoOut(w, id) && AllSent(w, id, w.store[id].inputs)
  {
    assert SenderOk(w, id);
    forall i | Out(w, i) && i != id && i in w.store ensures Disjoint(w.store[i].inputs, w.store[id].inputs) {
      OutAsRead(w, i);
    }
  }

  lemma UnacceptedKeeps(w: World, id: string, prior: bool, reply: Reply, o: WriteOutcome)
    requires Inv(w) && w.phase == Running && InState(w, id, Built) && !Held(w.store[id]) && !reply.Accepted?
    ensures Kept(w, Settled(w, id, prior, reply, o), false)
  {
    EndSaveKeeps(w, id, SettledRecord(w.store[id], prior, reply, w.clock), o,
                 if reply.Rejected? && !prior && o.Durable? then ReleaseDue(id) else Idle);
  }

  lemma SettleKeeps(w: World, o: WriteOutcome)
    requires Inv(w) && Enabled(w, Settle(o))
    ensures Kept(w, Apply(w, Settle(o)), false)
  {
    if w.call.reply.Accepted? {
      AcceptedKeeps(w, o);
    } else {
      UnacceptedKeeps(w, w.call.id, w.call.prior, w.call.reply, o);
    }
  }

  // ----- Rebroadcast, UpdateConfirmations, Abandon -----

  lemma ResendKeeps(w: World, id: string, o: WriteOutcome, call: Call)
    requires Inv(w) && CanBegin(w) && InState(w, id, Broadcast) && (call == Idle || call.Resending?)
    ensures Kept(w, Saved(w, id, ResendRecord(w.store[id], w.clock), o).(call := call), false)
  {
    EndSaveKeeps(w, id, ResendRecord(w.store[id], w.clock), o, call);
  }

  lemma HandOverAgainKeeps(w: World)
    requires Inv(w) && w.call.Resending? && w.call.id in w.store
    ensures Kept(w, HandedOver(w, w.call.id, true).(call := Rewaiting(w.call.id, w.call.sentBefore)), false)
  {
    CallKeeps(w, HandedOver(w, w.call.id, true).(call := Rewaiting(w.call.id, w.call.sentBefore)));
  }

  lemma HearAgainKeeps(w: World, out: Outcome)
    requires Inv(w) && w.call.Rewaiting?
    ensures Kept(w, WithAnswer(w, out).(call := Reanswered(w.call.id, w.call.sentBefore, out)), false)
  {
    CallKeeps(w, WithAnswer(w, out).(call := Reanswered(w.call.id, w.call.sentBefore, out)));
  }

  lemma SettleAgainKeeps(w: World, id: string, before: nat, out: Outcome, o: WriteOutcome)
    requires Inv(w) && w.phase == Running && InState(w, id, Broadcast)
    ensures Kept(w, Saved(w, id, ResentRecord(w.store[id], before, out, w.clock), o).(call := Idle), false)
  {
    EndSaveKeeps(w, id, ResentRecord(w.store[id], before, out, w.clock), o, Idle);
  }

  /** A save over a record with bytes that ends a transition, or the intent. */
  lemma EndSaveKeeps(w: World, id: string, r: Intent, o: WriteOutcome, call: Call)
    requires Inv(w) && w.phase == Running && id in w.store && w.store[id].state in {Built, Broadcast} &&
             Follows(w.store[id], r)
    requires r.state == w.store[id].state || r.state in {Confirmed, Failed}
    requires !Held(r) ==> !Held(w.store[id])
    requires call.Idle? || call.ReleaseDue? || call.ForgetDue? || call.Resending?
    ensures Kept(w, Saved(w, id, r, o).(call := call), false)
  {
    SaveKeeps(w, Saved(w, id, r, o).(call := call), id, r);
  }

  lemma SaveConfirmedKeeps(w: World, id: string, depth: int, o: WriteOutcome)
    requires Inv(w) && w.phase == Running && InState(w, id, Broadcast)
    ensures Kept(w, Saved(w, id, w.store[id].(state := Confirmed, confirmations := depth, updatedAt := w.clock),
                          o).(call := Idle), false)
  {
    EndSaveKeeps(w, id, w.store[id].(state := Confirmed, confirmations := depth, updatedAt := w.clock), o, Idle);
  }

  lemma SaveDepthKeeps(w: World, id: string, depth: int, o: WriteOutcome)
    requires Inv(w) && CanBegin(w) && InState(w, id, Broadcast)
    ensures Kept(w, Saved(w, id, w.store[id].(confirmations := depth, updatedAt := w.clock), o).(call := Idle), false)
  {
    EndSaveKeeps(w, id, w.store[id].(confirmations := depth, updatedAt := w.clock), o, Idle);
  }

  lemma AbandonKeeps(w: World, id: string, o: WriteOutcome)
    requires Inv(w) && CanBegin(w) && id in w.store && w.store[id].state in {Built, Broadcast}
    ensures Kept(w, Saved(w, id, AbandonedRecord(w.store[id], w.clock), o).(call := if o.Durable? then
          ForgetDue(id) else Idle), false)
  {
    EndSaveKeeps(w, id, AbandonedRecord(w.store[id], w.clock), o, if o.Durable? then ForgetDue(id) else Idle);
  }

  // ----- Releases and drops -----

  lemma ReleaseShrinks(w: World, id: string)
    requires FlagsOk(w, w.spent)
    ensures Shrinks(w, AfterRelease(w.spent, id), id)
    ensures FlagsOk(w.(confirmed := w.confirmed), AfterRelease(w.spent, id))
  {
  }

  lemma ReleaseKeeps(w: World, id: string, o: WriteOutcome, call: Call, unsettles: bool)
    requires Inv(w) && Finished(w, id) && (call == w.call || call == Idle)
    requires AllLive(w) && !unsettles ==> Over(w, AfterRelease(w.spent, id), id)
    ensures KeptUnless(w, KeptIfChanged(w, AfterRelease(w.spent, id), o).(confirmed := w.confirmed, call := call),
                       false, unsettles)
  {
    ReleaseShrinks(w, id);
    DropKeeps(w, AfterRelease(w.spent, id), id, o, call, w.confirmed, unsettles);
  }

  lemma ForgetKeeps(w: World, id: string, o: WriteOutcome, call: Call, unsettles: bool)
    requires Inv(w) && Finished(w, id) && (call == w.call || call == Idle)
    requires AllLive(w) && !unsettles && (o.NotWritten? ==> AfterForget(w.spent, id) == w.spent) ==>
      Over(w, AfterForget(w.spent, id), id)
    ensures KeptUnless(w, Forgotten(w, id, o).(call := call), false, unsettles)
  {
    ForgetShrinks(w, id);
    ForgetWrites(w, id, o, call);
    if o.NotWritten? && AfterForget(w.spent, id) != w.spent {
      NobodyIsOver(w, w.spent);
      ShrinkKeeps(w, Forgotten(w, id, o).(call := call), w.spent, "", unsettles);
    } else {
      ShrinkKeeps(w, Forgotten(w, id, o).(call := call), AfterForget(w.spent, id), id, unsettles);
    }
  }

  lemma ForgetShrinks(w: World, id: string)
    requires FlagsOk(w, w.spent)
    ensures Shrinks(w, AfterForget(w.spent, id), id) && FlagsOk(w, AfterForget(w.spent, id))
  {
  }

  lemma ForgetWrites(w: World, id: string, o: WriteOutcome, call: Call)
    requires w.spentSeen in w.spentCrash
    ensures Writes(w, Forgotten(w, id, o).(call := call), AfterForget(w.spent, id))
    ensures o.NotWritten? ==> Writes(w, Forgotten(w, id, o).(call := call), w.spent)
  {
  }

  lemma DueIsOver(w: World, m: Entries)
    requires RecordInv(w) && (w.call.ReleaseDue? || w.call.ForgetDue?)
    ensures Over(w, m, w.call.id)
  {
    assert w.store in w.storeCrash;
  }

  lemma EndedIsFinished(w: World, id: string)
    requires RecordInv(w) && w.phase != Running && (InState(w, id, Created) || InState(w, id, Failed))
    ensures Finished(w, id)
  {
  }

  /** A drop that unsettles nothing leaves what signed bytes need. */
  lemma EndedIsOver(w: World, a: Action, m: Entries)
    requires RecordInv(w) && w.phase != Running && (a.DropAbandoned? || a.ReleaseOrphan?) && !Unsettles(w, a)
    requires InState(w, a.id, Created) || InState(w, a.id, Failed)
    requires Apply(w, a).spent == m
    ensures Over(w, m, a.id)
  {
    EndedIsFinished(w, a.id);
    if InState(w, a.id, Created) {
      CreatedHasNoClaim(w, a.id);
    } else if MaybeIn(w, a.id, Built) {
      forall p | p in w.store[a.id].inputs && p !in w.confirmed && OwnedBy(w.spent, p, a.id) ensures p in m {
        assert !Frees(w, a, a.id, p);
      }
    }
  }

  // ----- Recover -----

  lemma RemarkIsMarking(w: World, id: string, o: WriteOutcome)
    requires InState(w, id, Broadcast)
    ensures Marking(w, MarkedSpent(w, id, w.store[id].inputs, w.store[id].txid, o).(remarked := w.remarked + {id}),
                    id, w.store[id].txid, o)
  {
  }

  lemma RemarkKeeps(w: World, w': World, id: string, o: WriteOutcome)
    requires Inv(w) && w.phase == Restarted && InState(w, id, Broadcast)
    requires Marking(w, w', id, w.store[id].txid, o) && w'.call == w.call
    ensures Kept(w, w', false)
  {
    assert w.store in w.storeCrash && Out(w, id) && NeverCreated(w, id);
    if Orderly(w) {
      assert OutOk(w, id);
    }
    MarkKeeps(w, w', id, w.store[id].txid, o);
  }

  lemma PhaseEntries(w: World, phase: Phase)
    requires EntriesInv(w)
    ensures EntriesInv(w.(phase := phase))
  {
    var w' := w.(phase := phase);
    forall c: Entries | c in w'.spentCrash ensures FlagsOk(w', c) && SendersKnown(w', c) {
      assert FlagsOk(w, c) && SendersKnown(w, c);
    }
  }

  /** The next phase of Recover, once this one has dealt with what it is to. */
  lemma PhaseKeeps(w: World, phase: Phase)
    requires Inv(w) && w.phase != Running && phase != Restarted
    requires forall i :: InState(w, i, Broadcast) ==> Remarked(w, i)
    ensures Kept(w, w.(phase := phase), false)
  {
    PhaseEntries(w, phase);
    if Orderly(w) {
      PhaseOut(w, phase);
    }
    if AllLive(w) {
      PhaseLive(w, phase);
    }
  }

  lemma PhaseOut(w: World, phase: Phase)
    requires OutInv(w) && w.call == Idle && forall i :: InState(w, i, Broadcast) ==> Remarked(w, i)
    ensures OutInv(w.(phase := phase))
  {
    var w' := w.(phase := phase);
    forall i | Out(w', i) ensures OutOk(w', i) {
      SameFiles(w, w', i);
      assert OutOk(w, i);
    }
    forall i, j | Out(w', i) && Out(w', j) && i != j && i in w'.store && j in w'.store
      ensures Disjoint(w'.store[i].inputs, w'.store[j].inputs)
    {
      SameFiles(w, w', i);
      SameFiles(w, w', j);
    }
    forall i | InState(w', i, Built) && !Held(w'.store[i]) ensures WaitingOk(w', i) {
      assert InState(w, i, Built) && WaitingOk(w, i);
    }
  }

  lemma PhaseLive(w: World, phase: Phase)
    requires LiveInv(w) && w.call == Idle
    ensures LiveInv(w.(phase := phase))
  {
    var w' := w.(phase := phase);
    WritesClaimsApart(w, w');
    forall i | MaybeIn(w', i, Built) && i in w'.store ensures AllOwned(w', i, w'.store[i].inputs) {
      SameFiles(w, w', i);
    }
  }

  lemma MarkHeldKeeps(w: World, w': World, id: string, o: WriteOutcome)
    requires Inv(w) && CanBegin(w) && InState(w, id, Built) && Held(w.store[id])
    requires CanMark(w.spent, w.store[id].inputs, HoldTxid(w.store[id]), id)
    requires Marking(w, w', id, HoldTxid(w.store[id]), o) && w'.call == Idle
    ensures Kept(w, w', Disturbs(w, MarkHeld(id, o)))
  {
    if Orderly(w) && !Disturbs(w, MarkHeld(id, o)) {
      HeldMarks(w, id, o);
    }
    HeldMarked(w, w', id, o, Disturbs(w, MarkHeld(id, o)));
  }

  /** A world is as good as itself. */
  lemma SameKeeps(w: World, disturbs: bool)
    requires Inv(w)
    ensures Kept(w, w, disturbs)
  {
  }

  lemma HeldMarked(w: World, w': World, id: string, o: WriteOutcome, disturbs: bool)
    requires Inv(w) && InState(w, id, Built) && Held(w.store[id])
    requires CanMark(w.spent, w.store[id].inputs, HoldTxid(w.store[id]), id)
    requires Marking(w, w', id, HoldTxid(w.store[id]), o) && w'.call == Idle
    requires Orderly(w) && !disturbs ==> forall p :: p in w.store[id].inputs ==> Unsent(w.spent, p, id)
    requires Orderly(w) && !disturbs ==>
      forall i :: Out(w, i) && i != id && i in w.store ==> Disjoint(w.store[i].inputs, w.store[id].inputs)
    ensures Kept(w, w', disturbs)
  {
    var txid := HoldTxid(w.store[id]);
    HeldHasClaim(w, id);
    MarkEntries(w, w', id, txid, o);
    if Orderly(w) && !disturbs {
      MarkOut(w, w', id, txid, o);
      if AllLive(w) {
        MarkLive(w, w', id, txid, o);
      }
    }
  }

  lemma HeldHasClaim(w: World, id: string)
    requires FileInv(w) && InState(w, id, Built) && Held(w.store[id])
    ensures id != "" && Claims(w, id) && NeverCreated(w, id)
  {
    assert w.store in w.storeCrash && MaybeIn(w, id, Built);
    assert RecordOk(w, id, w.store[id]);
  }

  lemma RenewKeeps(w: World, id: string, ttl: nat, o: WriteOutcome)
    requires Inv(w) && Enabled(w, Renew(id, ttl, o))
    ensures Kept(w, Apply(w, Renew(id, ttl, o)), Disturbs(w, Renew(id, ttl, o)))
  {
    ReserveKeeps(w, Apply(w, Renew(id, ttl, o)), id, w.store[id].inputs, ttl, o, Disturbs(w, Renew(id, ttl, o)));
  }

  // ----- Every action -----

  ghost predicate Keeps(w: World, a: Action) {
    KeptUnless(w, Apply(w, a), Disturbs(w, a), Unsettles(w, a))
  }

  lemma ClockKeeps(w: World, a: Action)
    requires Inv(w) && Enabled(w, a) && (a.Tick? || a.Submit? || a.DropExpired?)
    ensures Keeps(w, a)
  {
    match a
    case Tick(now) => TickKeeps(w, now);
    case Submit(id, address, amount, feeRate, o) => SubmitKeeps(w, id, NewIntent(address, amount, feeRate, w.clock), o);
    case DropExpired(p) => DropExpiredKeeps(w, p);
  }

  lemma PruneAction(w: World, a: Action)
    requires Inv(w) && a.Prune?
    ensures Keeps(w, a)
  {
    PruneKeeps(w, a.o);
    assert Apply(w, a) ==
           KeptIfChanged(w, AfterPrune(w.spent, w.clock), a.o).(confirmed := w.confirmed, call := w.call);
  }

  lemma ConfirmSpentAction(w: World, a: Action)
    requires Inv(w) && a.ConfirmSpent?
    ensures Keeps(w, a)
  {
    ConfirmKeeps(w, a.outs, a.o, w.call);
    assert Apply(w, a) ==
           KeptIfChanged(w, AfterConfirm(w.spent, a.outs), a.o).(confirmed := NowConfirmed(w, a.outs), call := w.call);
  }

  lemma RestartAction(w: World, a: Action)
    requires Inv(w) && Enabled(w, a) && (a.PowerLoss? || a.Exit?)
    ensures Keeps(w, a)
  {
    match a
    case PowerLoss(intents, entries) => RestartKeeps(w, intents, entries);
    case Exit => ReopenKeeps(w);
  }

  predicate IsOutside(a: Action) {
    a.Tick? || a.Submit? || a.DropExpired? || a.Prune? || a.ConfirmSpent? || a.PowerLoss? || a.Exit?
  }

  lemma OutsideKeeps(w: World, a: Action)
    requires Inv(w) && Enabled(w, a) && IsOutside(a)
    ensures Keeps(w, a)
  {
    if a.Prune? {
      PruneAction(w, a);
    } else if a.ConfirmSpent? {
      ConfirmSpentAction(w, a);
    } else if a.PowerLoss? || a.Exit? {
      RestartAction(w, a);
    } else {
      ClockKeeps(w, a);
    }
  }

  lemma BuildReserveAction(w: World, a: Action)
    requires Inv(w) && Enabled(w, a) && a.BuildReserve?
    ensures Keeps(w, a)
  {
    BuildReserveKeeps(w, a.id, a.inputs, a.ttl, a.o);
  }

  lemma BuildSaveAction(w: World, a: Action)
    requires Inv(w) && Enabled(w, a) && a.BuildSave?
    ensures Keeps(w, a)
  {
    var id := w.call.id;
    BuildSaveKeeps(w, id, BuiltRecord(w.store[id], w.call.inputs, a.rawHex, a.txid, w.clock), a.o,
                   if a.o.NotWritten? then ReleaseDue(id) else Idle);
  }

  lemma BuildAbortAction(w: World, a: Action)
    requires Inv(w) && Enabled(w, a) && a.BuildAbort?
    ensures Keeps(w, a)
  {
    BuildAbortKeeps(w);
  }

  lemma BuildFailAction(w: World, a: Action)
    requires Inv(w) && Enabled(w, a) && a.BuildFail?
    ensures Keeps(w, a)
  {
    BuildFailKeeps(w, a.id, a.o);
  }

  lemma DeferAction(w: World, a: Action)
    requires Inv(w) && Enabled(w, a) && a.Defer?
    ensures Keeps(w, a)
  {
    DeferKeeps(w, a.id, a.o);
  }

  lemma BuildKeeps(w: World, a: Action)
    requires Inv(w) && Enabled(w, a) && Builds(a)
    ensures Keeps(w, a)
  {
    if a.BuildReserve? {
      BuildReserveAction(w, a);
    } else if a.BuildSave? {
      BuildSaveAction(w, a);
    } else if a.BuildAbort? {
      BuildAbortAction(w, a);
    } else if a.BuildFail? {
      BuildFailAction(w, a);
    } else {
      DeferAction(w, a);
    }
  }

  lemma SendReserveAction(w: World, a: Action)
    requires Inv(w) && Enabled(w, a) && a.SendReserve?
    ensures Keeps(w, a)
  {
    var inputs := w.store[a.id].inputs;
    var call := if ReserveSucceeds(w, a.id, inputs, a.o) then Reserving(a.id) else Idle;
    assert Apply(w, a) == ReserveIfNeeded(w, a.id, inputs, a.ttl, a.o).(call := call);
    SendReserveKeeps(w, a.id, a.ttl, a.o, Disturbs(w, a), call);
  }

  lemma AttemptKeeps(w: World, a: Action)
    requires Inv(w) && Enabled(w, a) && (a.Touch? || a.SaveAttempt?)
    ensures Keeps(w, a)
  {
    match a
    case Touch(id, o) => TouchKeeps(w, id, o);
    case SaveAttempt(o) => SaveAttemptKeeps(w, o);
  }

  lemma HandOverAction(w: World, a: Action)
    requires Inv(w) && Enabled(w, a) && a.HandOver?
    ensures Keeps(w, a)
  {
    HandOverKeeps(w);
  }

  lemma HearAction(w: World, a: Action)
    requires Inv(w) && Enabled(w, a) && a.Hear?
    ensures Keeps(w, a)
  {
    HearKeeps(w, a.out);
  }

  lemma VerdictKeeps(w: World, a: Action)
    requires Inv(w) && Enabled(w, a) && (a.MarkInputs? || a.Settle?)
    ensures Keeps(w, a)
  {
    match a
    case MarkInputs(o) => MarkInputsKeeps(w, o);
    case Settle(o) => SettleKeeps(w, o);
  }

  lemma SendKeeps(w: World, a: Action)
    requires Inv(w) && Enabled(w, a) && Sends(a)
    ensures Keeps(w, a)
  {
    if a.SendReserve? {
      SendReserveAction(w, a);
    } else if a.Touch? || a.SaveAttempt? {
      AttemptKeeps(w, a);
    } else if a.HandOver? {
      HandOverAction(w, a);
    } else if a.Hear? {
      HearAction(w, a);
    } else {
      VerdictKeeps(w, a);
    }
  }

  lemma ResendAction(w: World, a: Action)
    requires Inv(w) && Enabled(w, a) && a.SaveResend?
    ensures Keeps(w, a)
  {
    ResendKeeps(w, a.id, a.o, if a.o.Durable? then Resending(a.id, LastSent(w.store[a.id])) else Idle);
  }

  lemma SettleAgainAction(w: World, a: Action)
    requires Inv(w) && Enabled(w, a) && a.SettleAgain?
    ensures Keeps(w, a)
  {
    SettleAgainKeeps(w, w.call.id, w.call.sentBefore, w.call.out, a.o);
  }

  lemma HandOverAgainAction(w: World, a: Action)
    requires Inv(w) && Enabled(w, a) && a.HandOverAgain?
    ensures Keeps(w, a)
  {
    HandOverAgainKeeps(w);
  }

  lemma HearAgainAction(w: World, a: Action)
    requires Inv(w) && Enabled(w, a) && a.HearAgain?
    ensures Keeps(w, a)
  {
    HearAgainKeeps(w, a.out);
  }

  lemma RebroadcastKeeps(w: World, a: Action)
    requires Inv(w) && Enabled(w, a) && Resends(a)
    ensures Keeps(w, a)
  {
    if a.SaveResend? {
      ResendAction(w, a);
    } else if a.SettleAgain? {
      SettleAgainAction(w, a);
    } else if a.HandOverAgain? {
      HandOverAgainAction(w, a);
    } else {
      HearAgainAction(w, a);
    }
  }

  lemma ConfirmInputsAction(w: World, a: Action)
    requires Inv(w) && Enabled(w, a) && a.ConfirmInputs?
    ensures Keeps(w, a)
  {
    ConfirmKeeps(w, w.store[a.id].inputs, a.o, Confirming(a.id, a.depth));
  }

  lemma SaveConfirmedAction(w: World, a: Action)
    requires Inv(w) && Enabled(w, a) && a.SaveConfirmed?
    ensures Keeps(w, a)
  {
    SaveConfirmedKeeps(w, w.call.id, w.call.depth, a.o);
  }

  lemma SaveDepthAction(w: World, a: Action)
    requires Inv(w) && Enabled(w, a) && a.SaveDepth?
    ensures Keeps(w, a)
  {
    SaveDepthKeeps(w, a.id, a.depth, a.o);
  }

  lemma AbandonAction(w: World, a: Action)
    requires Inv(w) && Enabled(w, a) && a.Abandon?
    ensures Keeps(w, a)
  {
    AbandonKeeps(w, a.id, a.o);
  }

  lemma EndingKeeps(w: World, a: Action)
    requires Inv(w) && Enabled(w, a) && Ends(a)
    ensures Keeps(w, a)
  {
    if a.ConfirmInputs? {
      ConfirmInputsAction(w, a);
    } else if a.SaveConfirmed? {
      SaveConfirmedAction(w, a);
    } else if a.SaveDepth? {
      SaveDepthAction(w, a);
    } else {
      AbandonAction(w, a);
    }
  }

  lemma ReleaseAction(w: World, a: Action)
    requires Inv(w) && Enabled(w, a) && a.Release?
    ensures Keeps(w, a)
  {
    DueIsOver(w, AfterRelease(w.spent, w.call.id));
    ReleaseKeeps(w, w.call.id, a.o, Idle, false);
  }

  lemma ForgetAction(w: World, a: Action)
    requires Inv(w) && Enabled(w, a) && a.Forget?
    ensures Keeps(w, a)
  {
    DueIsOver(w, AfterForget(w.spent, w.call.id));
    ForgetKeeps(w, w.call.id, a.o, Idle, false);
  }

  predicate Repairs(a: Action) {
    a.Remark? || a.RemarksDone? || a.RepairDone?
  }

  lemma RemarkAction(w: World, a: Action)
    requires Inv(w) && Enabled(w, a) && a.Remark?
    ensures Keeps(w, a)
  {
    RemarkIsMarking(w, a.id, a.o);
    RemarkKeeps(w, Apply(w, a), a.id, a.o);
  }

  lemma RepairKeeps(w: World, a: Action)
    requires Inv(w) && Enabled(w, a) && (a.RemarksDone? || a.RepairDone?)
    ensures Keeps(w, a)
  {
    match a
    case RemarksDone => PhaseKeeps(w, Repairing);
    case RepairDone => PhaseKeeps(w, Running);
  }

  lemma DropAbandonedAction(w: World, a: Action)
    requires Inv(w) && Enabled(w, a) && a.DropAbandoned?
    ensures Keeps(w, a)
  {
    var m := AfterForget(w.spent, a.id);
    EndedIsFinished(w, a.id);
    if !Unsettles(w, a) && (a.o.NotWritten? ==> m == w.spent) {
      EndedIsOver(w, a, m);
    }
    ForgetKeeps(w, a.id, a.o, w.call, Unsettles(w, a));
  }

  lemma ReleaseOrphanAction(w: World, a: Action)
    requires Inv(w) && Enabled(w, a) && a.ReleaseOrphan?
    ensures Keeps(w, a)
  {
    EndedIsFinished(w, a.id);
    if !Unsettles(w, a) {
      EndedIsOver(w, a, AfterRelease(w.spent, a.id));
    }
    ReleaseKeeps(w, a.id, a.o, w.call, Unsettles(w, a));
  }

  lemma MarkHeldIsMarking(w: World, a: Action)
    requires a.MarkHeld? && a.id in w.store
    ensures Marking(w, Apply(w, a), a.id, HoldTxid(w.store[a.id]), a.o)
    ensures Apply(w, a).call == w.call && Apply(w, a).remarked == w.remarked
  {
  }

  lemma MarkHeldAction(w: World, a: Action)
    requires Inv(w) && Enabled(w, a) && a.MarkHeld?
    ensures Keeps(w, a)
  {
    MarkHeldIsMarking(w, a);
    if CanMark(w.spent, w.store[a.id].inputs, HoldTxid(w.store[a.id]), a.id) {
      MarkHeldKeeps(w, Apply(w, a), a.id, a.o);
    } else {
      assert Apply(w, a) == w;
      SameKeeps(w, Disturbs(w, a));
    }
  }

  lemma RenewAction(w: World, a: Action)
    requires Inv(w) && Enabled(w, a) && a.Renew?
    ensures Keeps(w, a)
  {
    RenewKeeps(w, a.id, a.ttl, a.o);
  }

  lemma DropsKeep(w: World, a: Action)
    requires Inv(w) && Enabled(w, a) && (a.Release? || a.Forget? || a.DropAbandoned? || a.ReleaseOrphan?)
    ensures Keeps(w, a)
  {
    if a.Release? {
      ReleaseAction(w, a);
    } else if a.Forget? {
      ForgetAction(w, a);
    } else if a.DropAbandoned? {
      DropAbandonedAction(w, a);
    } else {
      ReleaseOrphanAction(w, a);
    }
  }

  lemma TransitionKeeps(w: World, a: Action)
    requires Inv(w) && Enabled(w, a) && (Builds(a) || Sends(a) || Resends(a) || Ends(a))
    ensures Keeps(w, a)
  {
    if Builds(a) {
      BuildKeeps(w, a);
    } else if Sends(a) {
      SendKeeps(w, a);
    } else if Resends(a) {
      RebroadcastKeeps(w, a);
    } else {
      EndingKeeps(w, a);
    }
  }

  lemma RecoverKeeps(w: World, a: Action)
    requires Inv(w) && Enabled(w, a) && (Repairs(a) || a.MarkHeld? || a.Renew?)
    ensures Keeps(w, a)
  {
    if a.Remark? {
      RemarkAction(w, a);
    } else if Repairs(a) {
      RepairKeeps(w, a);
    } else if a.MarkHeld? {
      MarkHeldAction(w, a);
    } else {
      RenewAction(w, a);
    }
  }

  lemma ApplyKeeps(w: World, a: Action)
    requires Inv(w) && Enabled(w, a)
    ensures Keeps(w, a)
  {
    if IsOutside(a) {
      OutsideKeeps(w, a);
    } else if Builds(a) || Sends(a) || Resends(a) || Ends(a) {
      TransitionKeeps(w, a);
    } else if Repairs(a) || a.MarkHeld? || a.Renew? {
      RecoverKeeps(w, a);
    } else {
      DropsKeep(w, a);
    }
  }

  /** The flags are read by no fact but the ones they guard. */
  lemma FlagsKeep(w: World, w': World)
    requires w' == w.(flags := w'.flags)
    requires EntriesInv(w)
    ensures EntriesInv(w')
    ensures OutInv(w) ==> OutInv(w')
    ensures LiveInv(w) ==> LiveInv(w')
  {
    SameSpent(w, w');
    WritesEntries(w, w', w.spent);
    if OutInv(w) {
      forall i | Out(w, i) ensures Respects(w, w.spent, i) {
        assert OutOk(w, i);
      }
      forall i | IsSender(w'.call, i) ensures SenderOk(w', i) {
        assert SenderOk(w, i);
        WritesSender(w, w', w.spent, i);
      }
      WritesOut(w, w', w.spent);
    }
    if LiveInv(w) {
      SameSpentLive(w, w');
    }
  }

  lemma StepKeeps(w: World, a: Action)
    requires Inv(w) && Enabled(w, a)
    ensures Inv(Step(w, a))
  {
    WithdrawalRecords.StepKeeps(w, a);
    ApplyKeeps(w, a);
    StepFlags(w, a, Apply(w, a), Step(w, a));
  }

  lemma StepFlags(w: World, a: Action, w1: World, w': World)
    requires KeptUnless(w, w1, Disturbs(w, a), Unsettles(w, a)) && w' == w1.(flags := FlagsAfter(w, a, w1))
    ensures InputInv(w')
  {
    FlagsKeep(w1, w');
    assert LapsedNow(w') ==> LapsedNow(w1);
  }

  lemma NextKeeps(w: World, w': World)
    requires Inv(w) && Next(w, w')
    ensures Inv(w')
  {
    var a :| Enabled(w, a) && w' == Step(w, a);
    StepKeeps(w, a);
  }

  lemma InitInv()
    ensures Inv(Init())
  {
  }

  lemma {:induction false} RunKeeps(worlds: seq<World>, k: nat)
    requires Run(worlds) && k < |worlds|
    ensures Inv(worlds[k])
  {
    if k == 0 {
      InitInv();
    } else {
      RunKeeps(worlds, k - 1);
      assert StepAt(worlds, k - 1);
      NextKeeps(worlds[k - 1], worlds[k]);
    }
  }

  lemma ReachableInv(w: World)
    requires Reachable(w)
    ensures Inv(w)
  {
    var worlds :| Run(worlds) && w in worlds;
    var k :| 0 <= k < |worlds| && worlds[k] == w;
    RunKeeps(worlds, k);
  }

  // ----- What follows -----

  /** Whatever the clock does, two Broadcast intents never share an input, in
      the visible intents file or in any content a power loss may leave, until
      a withdrawal is given an outpoint whose confirmation was recorded or a
      held intent takes an input over. */
  lemma BroadcastDisjoint(w: World, f: Intents, i: string, j: string)
    requires Reachable(w) && Orderly(w) && f in w.storeCrash && i != j
    requires i in f && f[i].state == Broadcast && j in f && f[j].state == Broadcast
    ensures Disjoint(f[i].inputs, f[j].inputs)
  {
    ReachableInv(w);
    assert Out(w, i) && Out(w, j);
  }

  /** If moreover no Built intent's reservation ran out and Recover never freed
      an input of one that a power loss may still leave Built, no two intents
      with signed bytes share an input. */
  lemma LiveDisjoint(w: World, f: Intents, i: string, j: string)
    requires Reachable(w) && AllLive(w) && f in w.storeCrash && i != j
    requires i in f && f[i].state in {Built, Broadcast} && j in f && f[j].state in {Built, Broadcast}
    ensures Disjoint(f[i].inputs, f[j].inputs)
  {
    ReachableInv(w);
    assert NoShare(f) && HasBytes(f, i) && HasBytes(f, j);
  }

  /** Nor does any content of the spent set's file give an input of the bytes
      that are handed over to another withdrawal. */
  lemma SenderOwnsOnDisk(w: World, c: Entries, p: Outpoint)
    requires Reachable(w) && Orderly(w) && w.call.Ready? && p in Current(w, w.call.id).inputs && c in w.spentCrash
    ensures Mine(c, p, w.call.id)
  {
    ReachableInv(w);
    assert IsSender(w.call, w.call.id) && SenderOk(w, w.call.id);
  }

  /** The inputs of a Broadcast intent stay recorded as its own sends for as
      long as no confirmation is recorded for them and none is taken over. */
  lemma BroadcastOwnsInputs(w: World, id: string, p: Outpoint)
    requires Reachable(w) && Orderly(w) && w.phase == Running && InState(w, id, Broadcast)
    requires p in w.store[id].inputs && p !in w.confirmed
    ensures SentBy(w.spent, p, id)
  {
    ReachableInv(w);
    assert w.store in w.storeCrash && Out(w, id);
  }

  /** Same bytes: over every run, with power losses at any point and any mix of
      failed, landed and durable writes, all bytes ever handed to the node for
      one intent are equal, and they are the bytes of every record of it that a
      power loss may leave. */
  lemma SameBytes(w: World, j: nat, k: nat, f: Intents)
    requires Reachable(w)
    requires j < |w.sends| && k < |w.sends| && w.sends[j].id == w.sends[k].id
    requires f in w.storeCrash
    ensures w.sends[j].bytes == w.sends[k].bytes
    ensures w.sends[j].id in f && f[w.sends[j].id].rawHex == w.sends[j].bytes
  {
    ReachableInv(w);
    assert SendInv(w, w.sends[j]) && SendInv(w, w.sends[k]);
  }

  /** Verdict soundness: an intent that is Failed and was not abandoned has no
      hand-over that was accepted, that is unknown or unclassified, or whose
      answer was lost to a restart; and the same is true of every content of
      the intents file a power loss may leave. */
  lemma FailedIsNotOut(w: World, f: Intents, k: nat)
    requires Reachable(w) && f in w.storeCrash && k < |w.sends|
    requires w.sends[k].id in f && f[w.sends[k].id].state == Failed && f[w.sends[k].id].abandonedAt == 0
    ensures !MayBeOut(w.sends[k])
  {
    ReachableInv(w);
    MarkedIfOut(w, f, k);
  }

  /** A rejection after any hand-over that may be out holds the intent: it
      stays Built, its inputs are marked, and only then is the record saved. */
  lemma RejectionAfterOutHolds(w: World, k: nat)
    requires Reachable(w) && w.call.Answered? && w.call.reply == Rejected
    requires k < |w.sends| - 1 && w.sends[k].id == w.call.id && MayBeOut(w.sends[k])
    ensures Marks(w.call.prior, w.call.reply) && w.call.id in w.store
    ensures var r := SettledRecord(w.store[w.call.id], w.call.prior, w.call.reply, w.clock);
            r.state == Built && Held(r) && r.rawHex == w.sends[k].bytes
  {
    ReachableInv(w);
    PriorOut(w, k);
  }

  lemma PriorOut(w: World, k: nat)
    requires RecordInv(w) && w.call.Answered?
    requires k < |w.sends| - 1 && w.sends[k].id == w.call.id && MayBeOut(w.sends[k])
    ensures w.call.prior && InState(w, w.call.id, Built) && w.store[w.call.id].rawHex == w.sends[k].bytes
  {
    assert SendInv(w, w.sends[k]) && w.store in w.storeCrash;
  }
}
