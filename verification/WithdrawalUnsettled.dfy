/** What follows when Recover frees an input of an intent that a power loss may
    still leave Built. The engine rejects a withdrawal; the verdict reaches the
    file and not the disk; the process starts again and Recover, reading the
    verdict, frees the input; a power loss then brings the signed bytes back. */
module WithdrawalUnsettled {
  import opened AtomicFile
  import opened SpentSet
  import opened Broadcaster
  import opened Withdrawal
  import opened WithdrawalRecords
  import opened WithdrawalInputs
  import opened WithdrawalOwnership
  import opened WithdrawalRecovery
  import opened WithdrawalSteps
  import opened WithdrawalRuns

  // ----- From every such drop two intents can come to share the input -----

  /** Nothing is new but what `c` has, and none of that has run out. */
  ghost predicate OnlyNew(w: World, w': World, c: string) {
    && w'.clock == w.clock && (w'.call.Building? ==> w'.call.id == c)
    && (forall q | q in w'.spent && Expired(w'.spent[q], w.clock) ::
          q in w.spent && w'.spent[q] == w.spent[q] && w'.spent[q].intent != c)
    && (forall i | i != c && MaybeIn(w', i, Built) :: MaybeIn(w, i, Built))
  }

  lemma StillNoLapse(w: World, w': World, c: string)
    requires !LapsedNow(w) && OnlyNew(w, w', c)
    ensures !LapsedNow(w')
  {
  }

  function Owners(m: Entries): set<string> {
    set q | q in m :: m[q].intent
  }

  predicate NotItsOwn(m: Entries, c: string) {
    forall q | q in m :: m[q].intent != c
  }

  /** A withdrawal that is new to store and set takes the free input; its record
      does not reach the disk. */
  lemma NewTakes(w: World, p: Outpoint) returns (w': World, c: string)
    requires CanBegin(w) && w.store in w.storeCrash && p !in w.spent && p !in w.confirmed && !LapsedNow(w)
    ensures Leads(w, w') && SameOrder(w, w') && w'.flags.lapsed == w.flags.lapsed && !LapsedNow(w')
    ensures c !in w.store && c != "" && NotItsOwn(w.spent, c) && w.storeCrash <= w'.storeCrash
    ensures w'.clock == w.clock && w'.confirmed == w.confirmed
    ensures w'.spent == w.spent[p := Waits(w.clock, c, 1)] && w'.spentCrash == {w'.spent}
  {
    c := FreshId(w.store.Keys + Owners(w.spent));
    assert NotItsOwn(w.spent, c) by {
      assert forall q | q in w.spent :: w.spent[q].intent in Owners(w.spent);
    }
    var w1 := SubmitStep(w, c, NotDurable);
    SubmitNoLapse(w, w1, c);
    assert CanReserve(w1.spent, [p], c, w1.clock);
    w' := TakeStep(w1, c, p, 1);
    LeadsOn(w, w1, w');
    StillNoLapse(w1, w', c);
  }

  lemma SubmitNoLapse(w: World, w': World, c: string)
    requires !LapsedNow(w) && CanBegin(w) && w.store in w.storeCrash && NotItsOwn(w.spent, c) && InState(w', c, Created)
    requires w' == w.(store := w'.store, storeCrash := w.storeCrash + {w'.store}, flags := w'.flags)
    requires w'.store == w.store[c := w'.store[c]]
    ensures !LapsedNow(w')
  {
    forall i | i != c && MaybeIn(w', i, Built) ensures MaybeIn(w, i, Built) {
      var f: Intents :| f in w'.storeCrash && i in f && f[i].state == Built;
      assert f !in w.storeCrash ==> w.store in w.storeCrash && w.store[i] == f[i];
    }
    StillNoLapse(w, w', c);
  }

  /** The ids Recover is still to mark. */
  function Due(w: World): set<string> {
    set i | i in w.store && w.store[i].state == Broadcast && i !in w.remarked
  }

  /** Recover marks what is Broadcast, and leaves an input of none of them. */
  lemma {:induction false} RemarkSteps(w: World, c: string, p: Outpoint) returns (w': World)
    requires w.phase == Restarted && w.call == Idle && !LapsedNow(w) && NotElsewhere(w, c, p)
    requires forall i | InState(w, i, Broadcast) :: p !in w.store[i].inputs && i != c
    ensures Leads(w, w') && SameOrder(w, w') && w'.flags.lapsed == w.flags.lapsed && !LapsedNow(w')
    ensures w' == w.(spent := w'.spent, remarked := w'.remarked, flags := w'.flags) && Due(w') == {}
    ensures NotElsewhere(w', c, p) && (p in w.spent ==> p in w'.spent && w'.spent[p] == w.spent[p])
    decreases |Due(w)|
  {
    if Due(w) == {} {
      LeadsHere(w);
      w' := w;
    } else {
      var i :| i in Due(w);
      var w1 := RemarkStep(w, i, c, p);
      assert Due(w1) == Due(w) - {i};
      w' := RemarkSteps(w1, c, p);
      LeadsOn(w, w1, w');
    }
  }

  /** No other entry is the withdrawal's. */
  predicate NotElsewhere(w: World, c: string, p: Outpoint) {
    forall q | q in w.spent && q != p :: w.spent[q].intent != c
  }

  lemma RemarkStep(w: World, i: string, c: string, p: Outpoint) returns (w': World)
    requires w.phase == Restarted && w.call == Idle && !LapsedNow(w) && NotElsewhere(w, c, p)
    requires InState(w, i, Broadcast) && p !in w.store[i].inputs && i != c
    ensures Leads(w, w') && SameOrder(w, w') && w'.flags.lapsed == w.flags.lapsed && !LapsedNow(w')
    ensures w' == w.(spent := w'.spent, remarked := w.remarked + {i}, flags := w'.flags)
    ensures NotElsewhere(w', c, p) && (p in w.spent ==> p in w'.spent && w'.spent[p] == w.spent[p])
  {
    w' := RemarkOne(w, i);
    MarkedEntries(w.spent, w.store[i].inputs, w.store[i].txid, i, w.clock);
    MarkNoLapse(w, w');
  }

  lemma RemarkOne(w: World, i: string) returns (w': World)
    requires w.phase == Restarted && InState(w, i, Broadcast)
    ensures Leads(w, w') && InOrder(w, w')
    ensures w' == w.(spent := AfterMark(w.spent, w.store[i].inputs, w.store[i].txid, i, w.clock),
                     remarked := w.remarked + {i}, flags := w'.flags)
  {
    w' := Go(w, Remark(i, NotWritten));
  }

  /** A mark makes no reservation and touches no other input. */
  lemma MarkedEntries(m: Entries, inputs: seq<Outpoint>, txid: string, id: string, now: nat)
    ensures var m' := AfterMark(m, inputs, txid, id, now);
            && (forall q | q in m' && m'[q].kind.Reserved? :: q in m && m'[q] == m[q])
            && (forall q | q in m && q !in inputs :: q in m' && m'[q] == m[q])
            && (forall q | q in m' :: m'[q].intent == id || (q in m && m'[q] == m[q]))
  {
  }

  lemma MarkNoLapse(w: World, w': World)
    requires !LapsedNow(w) && w' == w.(spent := w'.spent, remarked := w'.remarked, flags := w'.flags)
    requires forall q | q in w'.spent && w'.spent[q].kind.Reserved? :: q in w.spent && w'.spent[q] == w.spent[q]
    ensures !LapsedNow(w')
  {
    forall i | MaybeIn(w', i, Built) ensures MaybeIn(w, i, Built) {
    }
  }

  /** Recover from files in which a withdrawal the store does not know has a
      reservation on an input of an intent that is Built: it keeps it. */
  lemma RecoverSteps(w: World, f: Intents, i: string, c: string, p: Outpoint) returns (w': World)
    requires f in w.storeCrash && w.spentCrash == {w.spent} && !LapsedNow(w) && NoShare(f) && c !in f
    requires HasBytes(f, i) && f[i].state == Built && p in f[i].inputs
    requires p in w.spent && w.spent[p] == Waits(w.clock, c, 1) && NotElsewhere(w, c, p)
    ensures Leads(w, w') && SameOrder(w, w') && w'.flags.lapsed == w.flags.lapsed && !LapsedNow(w')
    ensures CanBegin(w') && w'.store == f && w'.storeCrash == {f} && w'.clock == w.clock && w'.confirmed == w.confirmed
    ensures p in w'.spent && w'.spent[p] == w.spent[p] && NotElsewhere(w', c, p)
  {
    var w1 := PowerStep(w, f, w.spent);
    PowerNoLapse(w, w1, f);
    forall j | InState(w1, j, Broadcast) ensures p !in w1.store[j].inputs && j != c {
      assert HasBytes(f, j) && j != i;
    }
    var w2 := RemarkSteps(w1, c, p);
    LeadsOn(w, w1, w2);
    w' := ReadySteps(w2);
    LeadsOn(w, w2, w');
  }

  lemma PowerNoLapse(w: World, w': World, f: Intents)
    requires !LapsedNow(w) && f in w.storeCrash && w' == Restart(w, f, w.spent).(flags := w'.flags)
    ensures !LapsedNow(w')
  {
    forall j | MaybeIn(w', j, Built) ensures MaybeIn(w, j, Built) {
    }
  }

  lemma ReadySteps(w: World) returns (w': World)
    requires w.phase == Restarted && w.call == Idle && Due(w) == {} && !LapsedNow(w)
    ensures Leads(w, w') && SameOrder(w, w') && w'.flags.lapsed == w.flags.lapsed && !LapsedNow(w')
    ensures w' == w.(phase := Running, flags := w'.flags)
  {
    forall id | InState(w, id, Broadcast) ensures id in w.remarked {
      assert id !in Due(w);
    }
    var w1 := RemarksDoneStep(w);
    SameNoLapse(w, w1);
    w' := RepairDoneStep(w1);
    LeadsOn(w, w1, w');
    SameNoLapse(w1, w');
  }

  lemma SameNoLapse(w: World, w': World)
    requires !LapsedNow(w) && w' == w.(phase := w'.phase, flags := w'.flags)
    ensures !LapsedNow(w')
  {
    forall j | MaybeIn(w', j, Built) ensures MaybeIn(w, j, Built) {
    }
  }

  /** Submitted again, the withdrawal builds on the reservation it has. */
  lemma Rebuilt(w: World, c: string, p: Outpoint) returns (w': World)
    requires CanBegin(w) && w.storeCrash == {w.store} && c !in w.store && c != "" && p !in w.confirmed && !LapsedNow(w)
    requires p in w.spent && w.spent[p] == Waits(w.clock, c, 1) && NotElsewhere(w, c, p)
    ensures Leads(w, w') && SameOrder(w, w') && w'.flags.lapsed == w.flags.lapsed
    ensures InState(w', c, Built) && w'.store[c].inputs == [p]
    ensures forall i | i in w.store :: i in w'.store && w'.store[i] == w.store[i]
  {
    var w1 := SubmittedAgain(w, c);
    assert forall o :: o in [p] <==> o == p;
    w' := RebuiltOn(w1, c, p);
    LeadsOn(w, w1, w');
  }

  lemma SubmittedAgain(w: World, c: string) returns (w': World)
    requires w.call == Idle && w.storeCrash == {w.store} && c !in w.store && c != "" && !LapsedNow(w)
    requires forall q | q in w.spent && w.spent[q].intent == c :: !Expired(w.spent[q], w.clock)
    ensures Leads(w, w') && SameOrder(w, w') && w'.flags.lapsed == w.flags.lapsed && !LapsedNow(w')
    ensures w' == Storing(w, w.store[c := NewIntent("address", 1, 1, w.clock)]).(flags := w'.flags)
  {
    w' := SubmitStep(w, c, Durable);
    StillNoLapse(w, w', c) by {
      assert forall i | i != c && MaybeIn(w', i, Built) ::
               w.store in w.storeCrash && i in w.store && w.store[i] == w'.store[i];
    }
  }

  lemma RebuiltOn(w: World, c: string, p: Outpoint) returns (w': World)
    requires CanBegin(w) && w.storeCrash == {w.store} && InState(w, c, Created) && p !in w.confirmed && !LapsedNow(w)
    requires CanReserve(w.spent, [p], c, w.clock) && !SentBy(w.spent, p, c) && NotElsewhere(w, c, p)
    ensures Leads(w, w') && SameOrder(w, w') && w'.flags.lapsed == w.flags.lapsed
    ensures InState(w', c, Built) && w'.store[c].inputs == [p]
    ensures forall i | i in w.store && i != c :: i in w'.store && w'.store[i] == w.store[i]
  {
    var w1 := TakeStep(w, c, p, 1);
    StillNoLapse(w, w1, c) by {
      assert forall i | MaybeIn(w1, i, Built) :: MaybeIn(w, i, Built);
    }
    w' := SignedNow(w1, c, p);
    LeadsOn(w, w1, w');
  }

  lemma SignedNow(w: World, c: string, p: Outpoint) returns (w': World)
    requires w.call == Building(c, [p]) && w.storeCrash == {w.store} && c in w.store && !LapsedNow(w)
    requires forall q | q in w.spent && w.spent[q].intent == c :: !Expired(w.spent[q], w.clock)
    ensures Leads(w, w') && SameOrder(w, w') && w'.flags.lapsed == w.flags.lapsed
    ensures InState(w', c, Built) && w'.store[c].inputs == [p]
    ensures forall i | i in w.store && i != c :: i in w'.store && w'.store[i] == w.store[i]
  {
    w' := SignStep(w, c, p, "new", "new");
    StillNoLapse(w, w', c) by {
      assert forall i | i != c && MaybeIn(w', i, Built) ::
               w.store in w.storeCrash && i in w.store && w.store[i] == w'.store[i];
    }
  }

  /** The converse of LiveDisjoint: from every drop that unsettles, in every run
      so far in order, steps lead on to two Built intents that share the input,
      with nothing reused, taken over or run out on the way. */
  lemma UnsettledShares(w: World, a: Action) returns (w': World, i: string, c: string)
    requires Reachable(w) && AllLive(w) && Enabled(w, a) && Unsettles(w, a)
    ensures Leads(Step(w, a), w') && Orderly(w') && !w'.flags.lapsed
    ensures i != c && InState(w', i, Built) && InState(w', c, Built) &&
            !Disjoint(w'.store[i].inputs, w'.store[c].inputs)
  {
    i := a.id;
    var f, p := Freed(w, a);
    DropLeaves(w, a);
    w', c := ShareSteps(Step(w, a), f, i, p);
  }

  /** What such a drop finds: a content that has the intent Built, and an input. */
  lemma Freed(w: World, a: Action) returns (f: Intents, p: Outpoint)
    requires Reachable(w) && AllLive(w) && Enabled(w, a) && Unsettles(w, a)
    ensures w.phase == Repairing && w.call == Idle && !LapsedNow(w) && w.store in w.storeCrash
    ensures f in w.storeCrash && NoShare(f) && f.Keys <= w.store.Keys && a.id in f && f[a.id].state == Built
    ensures p in f[a.id].inputs && p !in w.confirmed && p !in Apply(w, a).spent
  {
    ReachableInv(w);
    p :| Frees(w, a, a.id, p);
    f :| f in w.storeCrash && a.id in f && f[a.id].state == Built;
    assert RecordOk(w, a.id, f[a.id]);
    FilesKnown(w, f);
  }

  lemma FilesKnown(w: World, f: Intents)
    requires Inv(w) && AllLive(w) && f in w.storeCrash
    ensures NoShare(f) && f.Keys <= w.store.Keys
  {
    forall c | c in f ensures c in w.store {
      assert RecordOk(w, c, f[c]);
    }
  }

  lemma ShareSteps(w: World, f: Intents, i: string, p: Outpoint) returns (w': World, c: string)
    requires w.phase == Repairing && w.call == Idle && Orderly(w) && !w.flags.lapsed && !LapsedNow(w)
    requires w.store in w.storeCrash && f in w.storeCrash && NoShare(f) && f.Keys <= w.store.Keys
    requires i in f && f[i].state == Built && p in f[i].inputs && p !in w.confirmed && p !in w.spent
    ensures Leads(w, w') && Orderly(w') && !w'.flags.lapsed
    ensures i != c && InState(w', i, Built) && InState(w', c, Built) &&
            !Disjoint(w'.store[i].inputs, w'.store[c].inputs)
  {
    var w1 := RepairDoneStep(w);
    SameNoLapse(w, w1);
    var w2;
    w2, c := NewTakes(w1, p);
    LeadsOn(w, w1, w2);
    assert HasBytes(f, i);
    var w3 := RecoverSteps(w2, f, i, c, p);
    LeadsOn(w, w2, w3);
    w' := Rebuilt(w3, c, p);
    LeadsOn(w, w3, w');
    assert p in w'.store[i].inputs && p in w'.store[c].inputs;
  }

  lemma DropLeaves(w: World, a: Action)
    requires AllLive(w) && !LapsedNow(w) && w.phase == Repairing && w.call == Idle
    requires a.DropAbandoned? || a.ReleaseOrphan?
    ensures var w' := Step(w, a);
            && w' == w.(spent := w'.spent, spentSeen := w'.spentSeen, spentCrash := w'.spentCrash, flags := w'.flags)
            && w'.phase == Repairing && w'.call == Idle && Orderly(w') && !w'.flags.lapsed && !LapsedNow(w')
  {
    DropShrinks(w, a);
    ShrunkNoLapse(w, Apply(w, a));
    DropFlags(w, a);
  }

  lemma DropFlags(w: World, a: Action)
    requires AllLive(w) && (a.DropAbandoned? || a.ReleaseOrphan?) && !LapsedNow(Apply(w, a))
    ensures Step(w, a) == Apply(w, a).(flags := Step(w, a).flags)
    ensures Orderly(Step(w, a)) && !Step(w, a).flags.lapsed && !LapsedNow(Step(w, a))
  {
    assert LapsedNow(Step(w, a)) ==> LapsedNow(Apply(w, a));
  }

  lemma ShrunkNoLapse(w: World, w': World)
    requires !LapsedNow(w) && w' == w.(spent := w'.spent, spentSeen := w'.spentSeen, spentCrash := w'.spentCrash)
    requires forall q | q in w'.spent :: q in w.spent && w'.spent[q] == w.spent[q]
    ensures !LapsedNow(w')
  {
    forall j | MaybeIn(w', j, Built) ensures MaybeIn(w, j, Built) {
    }
  }

  lemma DropShrinks(w: World, a: Action)
    requires a.DropAbandoned? || a.ReleaseOrphan?
    ensures var w' := Apply(w, a);
            && w' == w.(spent := w'.spent, spentSeen := w'.spentSeen, spentCrash := w'.spentCrash)
            && forall q | q in w'.spent :: q in w.spent && w'.spent[q] == w.spent[q]
  {
  }

  // ----- And it does happen -----

  /** One withdrawal is signed over the coin, sent and rejected; the verdict is in
      the file and not on the disk when the process starts again. */
  lemma RejectedRun() returns (w: World, s: Intents)
    ensures Reachable(w) && AllLive(w) && w.clock == 1 && w.confirmed == {} && w.phase == Repairing && w.call == Idle
    ensures s in w.storeCrash && s.Keys == {"a"} && s["a"].state == Built && !Held(s["a"]) && s["a"].inputs == [COIN]
    ensures w.spent == map[COIN := Waits(1, "a", 1)] && InState(w, "a", Failed) && w.store["a"].inputs == [COIN]
  {
    InitReachable();
    var w1 := NewSigned(Init(), "a", "txid", false);
    var w2 := Asked(w1);
    LeadsOn(Init(), w1, w2);
    s := w2.store;
    w := FailedAndReread(w2);
    LeadsOn(Init(), w2, w);
    LeadsReaches(Init(), w);
  }

  lemma Asked(w: World) returns (w': World)
    requires Plain(w) && AllLive(w) && w.clock == 1 && w.store.Keys == {"a"} && w.spent == map[COIN := Waits(1, "a", 1)]
    requires InState(w, "a", Built) && !Held(w.store["a"]) && w.store["a"].inputs == [COIN]
    requires w.store["a"].sentAt == 0 && w.store["a"].attempts == 0 && !w.store["a"].maybeRelayed
    ensures Leads(w, w') && AllLive(w') && w'.clock == 1 && w'.confirmed == {} && w'.phase == Running
    ensures w'.call == Answered("a", false, Rejected) && w'.storeCrash == {w'.store} && w'.store.Keys == {"a"}
    ensures w'.store["a"] == AttemptRecord(w.store["a"], 1)
    ensures w'.spent == map[COIN := Waits(1, "a", 1)] && w'.spentSeen == w'.spent
  {
    assert forall o :: o in [COIN] <==> o == COIN;
    assert Classify(REJECTION) == Rejected;
    w' := AskSteps(w, "a", COIN, 1, REJECTION);
  }

  /** The verdict on a first attempt, in the file and not on the disk. */
  lemma FailStep(w: World, id: string) returns (w': World)
    requires w.call == Answered(id, false, Rejected) && id in w.store
    ensures Leads(w, w') && InOrder(w, w')
    ensures var s := w.store[id := SettledRecord(w.store[id], false, Rejected, w.clock)];
            w' == w.(store := s, storeCrash := w.storeCrash + {s}, call := Idle, flags := w'.flags)
  {
    w' := Go(w, Settle(NotDurable));
  }

  lemma FailedAndReread(w: World) returns (w': World)
    requires AllLive(w) && w.clock == 1 && w.confirmed == {} && w.phase == Running &&
             w.call == Answered("a", false, Rejected)
    requires w.storeCrash == {w.store} && w.store.Keys == {"a"} && w.spent == map[COIN := Waits(1, "a", 1)] &&
             w.spentSeen == w.spent
    ensures Leads(w, w') && AllLive(w') && w'.clock == 1 && w'.confirmed == {} && w'.phase == Repairing &&
            w'.call == Idle
    ensures w.store in w'.storeCrash && w'.spent == w.spent && InState(w', "a", Failed)
    ensures w'.store["a"].inputs == w.store["a"].inputs
  {
    var w1 := FailStep(w, "a");
    assert Unexpired(w1);
    var w2 := ExitStep(w1);
    LeadsOn(w, w1, w2);
    assert AfterLoad(w1.spentSeen, 1) == w.spent;
    w' := RemarksDoneStep(w2);
    LeadsOn(w, w2, w');
  }

  const RELEASE := ReleaseOrphan("a", Durable)

  lemma UnsettlingRun() returns (w: World, s: Intents)
    ensures Reachable(w) && AllLive(w) && Enabled(w, RELEASE) && Unsettles(w, RELEASE) && w.clock == 1 &&
            w.confirmed == {}
    ensures s in w.storeCrash && s.Keys == {"a"} && s["a"].state == Built && !Held(s["a"]) && s["a"].inputs == [COIN]
    ensures w.spent == map[COIN := Waits(1, "a", 1)]
  {
    w, s := RejectedRun();
    assert AfterRelease(w.spent, "a") == map[];
    assert MaybeIn(w, "a", Built) && Frees(w, RELEASE, "a", COIN);
  }

  /** The coin is freed and a withdrawal takes it whose record is not durable. */
  lemma TakenRun() returns (w: World, s: Intents, c: string)
    ensures Reachable(w) && Orderly(w) && !w.flags.lapsed && w.clock == 1 && w.confirmed == {}
    ensures s in w.storeCrash && s.Keys == {"a"} && s["a"].state == Built && !Held(s["a"]) && s["a"].inputs == [COIN]
    ensures c != "a" && c != "" && w.spentCrash == {map[COIN := Waits(1, c, 1)]}
  {
    var w1;
    w1, s := FreedRun();
    var w2 := RepairDoneStep(w1);
    SameNoLapse(w1, w2);
    w, c := NewTakes(w2, COIN);
    LeadsOn(w1, w2, w);
    LeadsReaches(w1, w);
  }

  lemma FreedRun() returns (w: World, s: Intents)
    ensures Reachable(w) && Orderly(w) && !w.flags.lapsed && !LapsedNow(w) && w.clock == 1 && w.confirmed == {}
    ensures w.phase == Repairing && w.call == Idle && w.spent == map[] && w.store in w.storeCrash && "a" in w.store
    ensures s in w.storeCrash && s.Keys == {"a"} && s["a"].state == Built && !Held(s["a"]) && s["a"].inputs == [COIN]
  {
    var w0;
    w0, s := UnsettlingRun();
    var f, p := Freed(w0, RELEASE);
    DropLeaves(w0, RELEASE);
    w := Step(w0, RELEASE);
    assert AfterRelease(w0.spent, "a") == map[];
    StepReaches(w0, RELEASE);
  }

  lemma ProperPasses(s: Intents, c: string)
    requires s.Keys == {"a"} && s["a"].state == Built && c != "a"
    ensures Proper(map[COIN := Waits(1, c, 1)], s, Orders([], [], [c], ["a"], [], [1]))
  {
    var m, ord := map[COIN := Waits(1, c, 1)], Orders([], [], [c], ["a"], [], [1]);
    assert AfterMarks(m, s, ord) == m && DropAll(m, s, []) == m;
    forall id ensures id in [c] <==> Reserver(m, id) {
      assert COIN in m && m[COIN].intent == c;
    }
  }

  /** From there a crash point at which a power loss leaves the attempt and the
      second withdrawal's reservation: its record is gone, so Recover keeps the
      reservation, and the signed bytes are left without their input. Nothing
      was reused or taken over and nothing ran out. */
  lemma UnsettledIsNotRestored() returns (w: World, f: Intents, m: Entries, ord: Orders)
    ensures Reachable(w) && Orderly(w) && !w.flags.lapsed && w.confirmed == {} && f in w.storeCrash && m in w.spentCrash
    ensures Proper(AfterLoad(m, w.clock), f, ord)
    ensures !AllRestored(Repaired(AfterLoad(m, w.clock), f, ord, 1), f, ord)
  {
    var c;
    w, f, c := TakenRun();
    m, ord := map[COIN := Waits(1, c, 1)], Orders([], [], [c], ["a"], [], [1]);
    assert AfterLoad(m, w.clock) == m;
    ProperPasses(f, c);
    assert NoShare(f) && AfterMarks(m, f, ord) == m;
    assert InTheWay(m, f, ord, ord.built[0], ord.redrives[0], COIN) && COIN in f[ord.built[0]].inputs;
    RecoversExactly(m, f, ord, 1);
  }
}
