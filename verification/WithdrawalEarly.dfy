/** Why a lost reply is excluded from what Abandon's wait covers: a run in which
    Abandon is let through too soon after bytes that may be out. */
module WithdrawalEarly {
  import opened AtomicFile
  import opened SpentSet
  import opened Broadcaster
  import opened Withdrawal
  import opened WithdrawalSteps
  import opened WithdrawalRuns

  /** What the client reports for a reply that was lost and not resolved. */
  const LOST := ClientBroadcast("txid", Lost(false), false)

  lemma ResaveStep(w: World, id: string) returns (w': World)
    requires CanBegin(w) && InState(w, id, Broadcast)
    ensures Leads(w, w')
    ensures w' == Storing(w, w.store[id := ResendRecord(w.store[id], w.clock)])
                  .(call := Resending(id, LastSent(w.store[id])), flags := w'.flags)
    ensures SameOrder(w, w')
  {
    w' := Go(w, SaveResend(id, Durable));
  }

  lemma HandAgainStep(w: World, id: string, before: nat) returns (w': World)
    requires w.call == Resending(id, before) && id in w.store
    ensures Leads(w, w') && SameOrder(w, w')
    ensures w' == w.(sends := w.sends + [Send(id, w.store[id].rawHex, w.store[id].sentAt, true, None)],
                     call := Rewaiting(id, before), flags := w'.flags)
  {
    w' := Go(w, HandOverAgain);
  }

  lemma HearAgainStep(w: World, id: string, before: nat, out: Outcome, sends: seq<Send>, s: Send) returns (w': World)
    requires w.call == Rewaiting(id, before) && w.sends == sends + [s]
    ensures Leads(w, w') && SameOrder(w, w')
    ensures w' == w.(sends := sends + [s.(heard := Some(out))], call := Reanswered(id, before, out), flags := w'.flags)
  {
    w' := Go(w, HearAgain(out));
  }

  lemma PutBackStep(w: World, id: string, before: nat, out: Outcome) returns (w': World)
    requires w.call == Reanswered(id, before, out) && PutsBack(out) && id in w.store
    ensures Leads(w, w') && SameOrder(w, w')
    ensures w' == Storing(w, w.store[id := w.store[id].(sentAt := before, updatedAt := w.clock)])
                  .(call := Idle, flags := w'.flags)
  {
    w' := Go(w, SettleAgain(Durable));
  }

  /** A re-send whose reply is lost leaves the time of the send before. */
  lemma ResendLost(w: World, id: string) returns (w': World)
    requires CanBegin(w) && InState(w, id, Broadcast)
    ensures Leads(w, w') && CanBegin(w') && w'.clock == w.clock && SameOrder(w, w')
    ensures InState(w', id, Broadcast) && w'.store[id].sentAt == LastSent(w.store[id])
    ensures w'.sends == w.sends + [Send(id, w.store[id].rawHex, w.clock, true, Some(LOST))]
  {
    var before := LastSent(w.store[id]);
    var w1 := ResaveStep(w, id);
    var w2 := HandAgainStep(w1, id, before);
    LeadsOn(w, w1, w2);
    var w3 := HearAgainStep(w2, id, before, LOST, w.sends, Send(id, w.store[id].rawHex, w.clock, true, None));
    LeadsOn(w, w2, w3);
    w' := PutBackStep(w3, id, before, LOST);
    LeadsOn(w, w3, w');
  }

  lemma AcceptedAtOne() returns (w: World)
    ensures Leads(Init(), w) && Plain(w) && !w.flags.turned && w.clock == 1 && InState(w, "a", Broadcast) &&
            w.store["a"].sentAt == 1
  {
    var w1 := NewSigned(Init(), "a", "txid", false);
    assert CanReserve(w1.spent, [COIN], "a", w1.clock);
    w := SentAccepted(w1, "a");
    LeadsOn(Init(), w1, w);
  }

  /** The bytes were handed over at time 100 and may be out; Abandon, told to wait
      50, is let through at time 100, counting from time 1. */
  lemma AbandonComesEarly() returns (w: World, k: nat)
    ensures Reachable(w) && !w.flags.turned && Enabled(w, Abandon("a", 50, Durable))
    ensures k < |w.sends| && w.sends[k].id == "a" && MayBeOut(w.sends[k]) && w.clock - w.sends[k].at < 50
  {
    InitReachable();
    var w1 := AcceptedAtOne();
    var w2 := TickStep(w1, 100);
    LeadsOn(Init(), w1, w2);
    w := ResendLost(w2, "a");
    LeadsOn(Init(), w2, w);
    LeadsReaches(Init(), w);
    k := |w.sends| - 1;
    assert Leaves(Classify(LOST));
  }
}
