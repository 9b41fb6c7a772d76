/** Why takeovers are excluded from the claims about Broadcast intents, and that
    they must be: runs in which a held intent takes an input over, and two
    Broadcast intents then share it though no confirmation was ever recorded. */
module WithdrawalOvertaken {
  import opened AtomicFile
  import opened SpentSet
  import opened Broadcaster
  import opened Withdrawal
  import opened WithdrawalInputs
  import opened WithdrawalTakeover
  import opened WithdrawalSteps
  import opened WithdrawalRuns

  // ----- What a takeover leads to -----

  /** A held intent that owns the input is abandoned, and the input is free. */
  lemma FreeSteps(w: World, h: string, p: Outpoint) returns (w': World)
    requires CanBegin(w) && InState(w, h, Built) && Held(w.store[h]) && OwnedBy(w.spent, p, h) && w.clock > 0
    ensures Leads(w, w') && SameOrder(w, w') && CanBegin(w') && w'.confirmed == w.confirmed && p !in w'.spent
    ensures forall i | i in w.store && i != h :: i in w'.store && w'.store[i] == w.store[i]
  {
    var now := if LastSent(w.store[h]) > w.clock then LastSent(w.store[h]) else w.clock;
    var w1 := TickStep(w, now);
    var w2 := AbandonStep(w1, h, Durable);
    LeadsOn(w, w1, w2);
    assert AfterForget(w2.spent, h) != w2.spent by {
      assert p in w2.spent && p !in AfterForget(w2.spent, h);
    }
    w' := ForgetStep(w2, h);
    LeadsOn(w, w2, w');
  }

  /** From every takeover of a Broadcast intent's own entry, steps lead on to a
      second Broadcast intent on the same input, with nothing reused and no
      confirmation recorded on the way. */
  lemma TakeoverShares(w: World, a: Action, i: string, p: Outpoint) returns (w': World, j: string)
    requires Reachable(w) && Enabled(w, a) && a.MarkHeld? && MarkedOver(w, a, i, p)
    requires InState(w, i, Broadcast) && p in w.store[i].inputs && p !in w.confirmed
    ensures Leads(Step(w, a), w') && w'.flags.reused == Step(w, a).flags.reused && w'.confirmed == w.confirmed
    ensures i != j && InState(w', i, Broadcast) && InState(w', j, Broadcast)
    ensures p in w'.store[i].inputs && p in w'.store[j].inputs
  {
    WithdrawalOwnership.ReachableInv(w);
    var w0 := Step(w, a);
    MarkHeldOwns(w, a, p);
    var w1 := FreeSteps(w0, a.id, p);
    w', j := NewSent(w1, p);
    LeadsOn(w0, w1, w');
  }

  lemma MarkHeldOwns(w: World, a: Action, p: Outpoint)
    requires Enabled(w, a) && a.MarkHeld? && HoldMarks(w, a.id) && p in w.store[a.id].inputs
    ensures var w' := Step(w, a);
            && w' == w.(spent := w'.spent, spentSeen := w'.spentSeen, spentCrash := w'.spentCrash, flags := w'.flags)
            && OwnedBy(w'.spent, p, a.id)
  {
  }

  // ----- A held intent whose inputs are not on record -----

  ghost predicate NoneBroadcast(s: Intents) {
    forall i | i in s :: s[i].state != Broadcast
  }

  lemma Lost(w: World, id: string) returns (w': World)
    requires Plain(w) && w.storeCrash == {w.store} && w.spentCrash == {map[COIN := Waits(w.clock, id, 1)]} &&
             NoneBroadcast(w.store)
    ensures Leads(w, w') && Plain(w') && w'.store == w.store && w'.storeCrash == {w'.store}
    ensures w'.spent == map[COIN := Waits(w.clock, id, 1)] && Expired(w'.spent[COIN], w'.clock)
  {
    var m := map[COIN := Waits(w.clock, id, 1)];
    var w1 := PowerStep(w, w.store, m);
    assert AfterLoad(m, w.clock) == m;
    var w2 := RemarksDoneStep(w1);
    LeadsOn(w, w1, w2);
    var w3 := RepairDoneStep(w2);
    LeadsOn(w, w2, w3);
    w' := TickStep(w3, w.clock + 20);
    LeadsOn(w, w3, w');
  }

  /** A deferred withdrawal is sent once and rejected; the hold is saved, the mark
      on the coin is lost with the power, and its reservation runs out. */
  lemma HeldUnmarked(w: World, id: string) returns (w': World)
    requires Plain(w) && NoneBroadcast(w.store) && id !in w.store && id != "" && FreeCoin(w, id)
    ensures Leads(w, w') && Plain(w') && w'.storeCrash == {w'.store} && NoneBroadcast(w'.store)
    ensures COIN in w'.spent && w'.spent[COIN].intent == id && Expired(w'.spent[COIN], w'.clock)
    ensures Untouched(w, w', id) && w'.store.Keys == w.store.Keys + {id}
    ensures InState(w', id, Built) && Held(w'.store[id]) && w'.store[id].inputs == [COIN] &&
            HoldTxid(w'.store[id]) == "txid"
  {
    var w1 := NewSigned(w, id, "txid", true);
    var w2 := SentRejected(w1, id);
    LeadsOn(w, w1, w2);
    w' := Lost(w2, id);
    LeadsOn(w, w2, w');
  }

  // ----- A takeover under one txid -----

  /** Two withdrawals on the same terms sign the same bytes over one coin, the
      first one's reservation having run out. The second is held, its mark is
      lost; the first is sent and accepted. */
  lemma SameTxidRun() returns (w: World)
    ensures Reachable(w) && Plain(w) && InState(w, "b", Broadcast) && w.store["b"].inputs == [COIN]
    ensures InState(w, "a", Built) && Held(w.store["a"]) && MarkedOver(w, MarkHeld("a", Durable), "b", COIN)
  {
    InitReachable();
    var w1 := LapsedSigned();
    var w2 := HeldUnmarked(w1, "a");
    LeadsOn(Init(), w1, w2);
    FreeIsReservable(w2, "b");
    w := SentAccepted(w2, "b");
    LeadsOn(Init(), w2, w);
    LeadsReaches(Init(), w);
    assert forall o :: o in [COIN] <==> o == COIN;
  }

  lemma LapsedSigned() returns (w: World)
    ensures Leads(Init(), w) && Plain(w) && NoneBroadcast(w.store) && w.store.Keys == {"b"} && FreeCoin(w, "a")
    ensures InState(w, "b", Built) && !Held(w.store["b"]) && w.store["b"].inputs == [COIN] &&
            w.store["b"].txid == "txid"
  {
    var w1 := NewSigned(Init(), "b", "txid", false);
    w := TickStep(w1, 20);
    LeadsOn(Init(), w1, w);
  }

  /** The held one takes the coin over and is abandoned, which frees it; a third
      withdrawal is sent. Two Broadcast intents share the coin, though nothing
      was reused and no confirmation was ever recorded. */
  lemma SameTxidShares() returns (w: World, i: string, j: string)
    ensures Reachable(w) && !w.flags.reused && w.confirmed == {} && i != j
    ensures InState(w, i, Broadcast) && InState(w, j, Broadcast) && !Disjoint(w.store[i].inputs, w.store[j].inputs)
  {
    var w0 := SameTxidRun();
    var a := MarkHeld("a", Durable);
    StepReaches(w0, a);
    i := "b";
    w, j := TakeoverShares(w0, a, i, COIN);
    LeadsReaches(Step(w0, a), w);
    assert COIN in w.store[i].inputs && COIN in w.store[j].inputs;
  }

  // ----- A takeover from an intent that is over as read -----

  predicate HeldAndSent(s: Intents) {
    && "h" in s && s["h"].state == Built && Held(s["h"]) && s["h"].inputs == [COIN] && HoldTxid(s["h"]) == "txid"
    && "i" in s && s["i"].state == Broadcast && s["i"].inputs == [COIN] && s["i"].txid == "other" &&
         s.Keys == {"h", "i"}
  }

  predicate CoinSent(m: Entries, id: string, txid: string) {
    m.Keys == {COIN} && m[COIN].kind == Sent(txid) && !m[COIN].confirmed && m[COIN].intent == id
  }

  /** A second withdrawal is sent on the coin of a held one. */
  lemma SentBesideHeld() returns (w: World)
    ensures Leads(Init(), w) && Plain(w) && HeldAndSent(w.store) && w.storeCrash == {w.store}
    ensures CoinSent(w.spent, "i", "other") && w.spentSeen == w.spent && w.spentCrash == {w.spent}
    ensures w.clock >= LastSent(w.store["i"])
  {
    var w1 := HeldUnmarked(Init(), "h");
    w := NewAccepted(w1, "i", "other");
    LeadsOn(Init(), w1, w);
  }

  lemma NewAccepted(w: World, id: string, rawHex: string) returns (w': World)
    requires Plain(w) && id !in w.store && id != "" && FreeCoin(w, id)
    ensures Leads(w, w') && Plain(w') && w'.storeCrash == {w'.store} && w'.clock == w.clock
    ensures CoinSent(w'.spent, id, rawHex) && w'.spentSeen == w'.spent && w'.spentCrash == {w'.spent}
    ensures Untouched(w, w', id) && w'.store.Keys == w.store.Keys + {id}
    ensures InState(w', id, Broadcast) && w'.store[id].inputs == [COIN] && w'.store[id].txid == rawHex
    ensures w'.store[id].sentAt == w.clock
  {
    var w1 := NewSigned(w, id, rawHex, false);
    assert CanReserve(w1.spent, [COIN], id, w1.clock) by {
      assert forall o :: o in [COIN] <==> o == COIN;
    }
    w' := SentAccepted(w1, id);
    LeadsOn(w, w1, w');
  }

  /** It is abandoned; the verdict reaches the file and not the disk, and the
      process starts again. */
  lemma Reread(w: World) returns (w': World)
    requires Plain(w) && HeldAndSent(w.store) && w.storeCrash == {w.store} && w.clock >= LastSent(w.store["i"])
    requires CoinSent(w.spent, "i", "other") && w.spentSeen == w.spent && w.spentCrash == {w.spent}
    ensures Leads(w, w') && w'.phase == Repairing && w'.call == Idle && w'.confirmed == {} && !w'.flags.reused &&
            w'.clock == w.clock
    ensures w.store in w'.storeCrash && w'.spent == w.spent
    ensures InState(w', "i", Failed) && w'.store["i"].abandonedAt != 0 && InState(w', "h", Built) &&
            w'.store["h"] == w.store["h"]
  {
    var w1 := AbandonStep(w, "i", NotDurable);
    var w2 := ExitStep(w1);
    LeadsOn(w, w1, w2);
    assert AfterLoad(w.spent, w.clock) == w.spent;
    w' := RemarksDoneStep(w2);
    LeadsOn(w, w2, w');
  }

  /** Recover drops what the abandoned one owned and marks the coin for the held
      one: it takes the coin over from an intent that may still be Broadcast. */
  lemma TakenFromOver(w: World, s: Intents) returns (w': World)
    requires w.phase == Repairing && w.call == Idle && w.confirmed == {} && !w.flags.reused && HeldAndSent(s) &&
             s in w.storeCrash
    requires InState(w, "i", Failed) && w.store["i"].abandonedAt != 0 && InState(w, "h", Built) &&
             w.store["h"] == s["h"]
    requires CoinSent(w.spent, "i", "other")
    ensures Leads(w, w') && w'.clock == w.clock && w'.confirmed == {} && !w'.flags.reused && s in w'.storeCrash
    ensures CoinSent(w'.spent, "h", "txid") && w'.spentCrash == {w'.spent}
  {
    assert COIN in w.spent && AfterForget(w.spent, "i") != w.spent;
    var w1 := DropStep(w, "i");
    var w2 := RepairDoneStep(w1);
    LeadsOn(w, w1, w2);
    assert w2.spent == map[];
    w' := HoldStep(w2, "h", COIN);
    LeadsOn(w, w2, w');
  }

  lemma DropStep(w: World, id: string) returns (w': World)
    requires w.phase == Repairing && InState(w, id, Failed) && w.store[id].abandonedAt != 0 &&
             AfterForget(w.spent, id) != w.spent
    ensures Leads(w, w') && w' == Holding(w, AfterForget(w.spent, id)).(flags := w'.flags)
    ensures w'.flags.reused == w.flags.reused
  {
    w' := Go(w, DropAbandoned(id, Durable));
    assert Forgotten(w, id, Durable) == Holding(w, AfterForget(w.spent, id));
  }

  lemma HoldStep(w: World, id: string, p: Outpoint) returns (w': World)
    requires CanBegin(w) && InState(w, id, Built) && Held(w.store[id]) && w.store[id].inputs == [p] && p !in w.spent &&
             p !in w.confirmed
    ensures Leads(w, w') && w'.flags.reused == w.flags.reused
    ensures w' == Holding(w, w.spent[p := IsSent(w.clock, id, HoldTxid(w.store[id]))]).(flags := w'.flags)
  {
    MarkOne(w.spent, p, id, HoldTxid(w.store[id]), w.clock);
    w' := Go(w, MarkHeld(id, Durable));
  }

  /** The power goes and the verdict with it: the intent is Broadcast again, and
      its mark is refused, another transaction's send standing on the coin. */
  lemma BackOut(w: World, s: Intents) returns (w': World)
    requires HeldAndSent(s) && s in w.storeCrash && CoinSent(w.spent, "h", "txid") && w.spentCrash == {w.spent}
    ensures Leads(w, w') && SameOrder(w, w') && CanBegin(w') && w'.clock == w.clock && w'.confirmed == w.confirmed
    ensures w'.store == s && w'.spent == w.spent
  {
    var w1 := PowerStep(w, s, w.spent);
    assert AfterLoad(w.spent, w.clock) == w.spent;
    assert COIN in [COIN] && SentByAnother(w1.spent[COIN], "other", "i");
    var w2 := RefusedStep(w1, "i");
    LeadsOn(w, w1, w2);
    var w3 := RemarksDoneStep(w2);
    LeadsOn(w, w2, w3);
    w' := RepairDoneStep(w3);
    LeadsOn(w, w3, w');
  }

  lemma RefusedStep(w: World, id: string) returns (w': World)
    requires w.phase == Restarted && InState(w, id, Broadcast) &&
             !CanMark(w.spent, w.store[id].inputs, w.store[id].txid, id)
    ensures Leads(w, w') && SameOrder(w, w') && w' == w.(remarked := w.remarked + {id}, flags := w'.flags)
  {
    w' := Go(w, Remark(id, Durable));
  }

  lemma OverButOutRun() returns (w: World)
    ensures Reachable(w) && CanBegin(w) && w.clock > 0 && w.confirmed == {} && !w.flags.reused && HeldAndSent(w.store)
    ensures CoinSent(w.spent, "h", "txid")
  {
    InitReachable();
    var w1 := SentBesideHeld();
    var w2 := Reread(w1);
    LeadsOn(Init(), w1, w2);
    var w3 := TakenFromOver(w2, w1.store);
    LeadsOn(Init(), w2, w3);
    w := BackOut(w3, w1.store);
    LeadsOn(Init(), w3, w);
    LeadsReaches(Init(), w);
  }

  /** An intent is Broadcast and does not own its input, though no confirmation
      was ever recorded. */
  lemma OverButOutLoses() returns (w: World)
    ensures Reachable(w) && !w.flags.reused && w.confirmed == {} && w.phase == Running
    ensures InState(w, "i", Broadcast) && COIN in w.store["i"].inputs && !SentBy(w.spent, COIN, "i")
  {
    w := OverButOutRun();
  }

  /** ... and, once the held one is abandoned, shares it with another Broadcast
      intent. */
  lemma OverButOutShares() returns (w: World, j: string)
    ensures Reachable(w) && !w.flags.reused && w.confirmed == {} && j != "i"
    ensures InState(w, "i", Broadcast) && InState(w, j, Broadcast) && !Disjoint(w.store["i"].inputs, w.store[j].inputs)
  {
    var w1 := OverButOutRun();
    var w2 := FreeSteps(w1, "h", COIN);
    w, j := NewSent(w2, COIN);
    LeadsOn(w1, w2, w);
    LeadsReaches(w1, w);
    assert COIN in w.store["i"].inputs && COIN in w.store[j].inputs;
  }
}
