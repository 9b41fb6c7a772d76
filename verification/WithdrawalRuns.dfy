/** The steps that the runs serving as counterexamples are made of: withdrawals
    signed over one coin and sent. */
module WithdrawalRuns {
  import opened AtomicFile
  import opened SpentSet
  import opened Broadcaster
  import opened Withdrawal
  import opened WithdrawalSteps

  const COIN := Outpoint("coin", 0)
  const REJECTION := Error({Permanent}, "")

  /** No confirmation recorded, nothing reused; the coin alone has an entry. */
  predicate Plain(w: World) {
    CanBegin(w) && w.clock > 0 && w.confirmed == {} && !w.flags.reused && w.spent.Keys <= {COIN} &&
    forall p | p in w.spent :: !w.spent[p].confirmed
  }

  predicate Untouched(w: World, w': World, id: string) {
    forall i | i in w.store && i != id :: i in w'.store && w'.store[i] == w.store[i]
  }

  predicate FreeCoin(w: World, id: string) {
    COIN in w.spent ==> Expired(w.spent[COIN], w.clock) && w.spent[COIN].intent != id
  }

  lemma FreeIsReservable(w: World, id: string)
    requires FreeCoin(w, id)
    ensures CanReserve(w.spent, [COIN], id, w.clock) && !SentBy(w.spent, COIN, id)
  {
    assert forall o :: o in [COIN] <==> o == COIN;
  }

  /** A record that counts no more than a build that was put off. */
  predicate Unsent(r: Intent, attempts: nat) {
    r.state == Created && !Held(r) && r.sentAt == 0 && !r.maybeRelayed && r.attempts == attempts
  }

  lemma NewSubmitted(w: World, id: string) returns (w': World)
    requires Plain(w) && id !in w.store && id != ""
    ensures Leads(w, w') && Plain(w') && w'.clock == w.clock && w'.spent == w.spent && w'.sends == w.sends
    ensures SameOrder(w, w') && (Unexpired(w) ==> w'.flags.lapsed == w.flags.lapsed)
    ensures Untouched(w, w', id) && w'.store.Keys == w.store.Keys + {id} && Unsent(w'.store[id], 0)
  {
    w' := SubmitStep(w, id, Durable);
  }

  lemma Deferred(w: World, id: string) returns (w': World)
    requires Plain(w) && id in w.store && Unsent(w.store[id], 0)
    ensures Leads(w, w') && Plain(w') && w'.clock == w.clock && w'.spent == w.spent && w'.sends == w.sends
    ensures SameOrder(w, w') && (Unexpired(w) ==> w'.flags.lapsed == w.flags.lapsed)
    ensures Untouched(w, w', id) && w'.store.Keys == w.store.Keys && Unsent(w'.store[id], 1)
  {
    w' := DeferStep(w, id);
  }

  lemma NewCreated(w: World, id: string, defer: bool) returns (w': World)
    requires Plain(w) && id !in w.store && id != ""
    ensures Leads(w, w') && Plain(w') && w'.clock == w.clock && w'.spent == w.spent && w'.sends == w.sends
    ensures SameOrder(w, w') && (Unexpired(w) ==> w'.flags.lapsed == w.flags.lapsed)
    ensures Untouched(w, w', id) && w'.store.Keys == w.store.Keys + {id} && Unsent(w'.store[id], if defer then 1 else 0)
  {
    w' := NewSubmitted(w, id);
    if defer {
      var w1 := w';
      w' := Deferred(w1, id);
      LeadsOn(w, w1, w');
    }
  }

  lemma SignedOn(w: World, id: string, rawHex: string) returns (w': World)
    requires Plain(w) && InState(w, id, Created) && !Held(w.store[id]) && FreeCoin(w, id)
    ensures Leads(w, w') && Plain(w') && w'.clock == w.clock && w'.storeCrash == {w'.store} && w'.sends == w.sends
    ensures SameOrder(w, w') && (Unexpired(w) ==> w'.flags.lapsed == w.flags.lapsed)
    ensures w'.spent == map[COIN := Waits(w.clock, id, 1)] && w'.spentCrash == {w'.spent}
    ensures Untouched(w, w', id) && w'.store.Keys == w.store.Keys
    ensures id in w'.store && w'.store[id] == BuiltRecord(w.store[id], [COIN], rawHex, rawHex, w.clock)
  {
    FreeIsReservable(w, id);
    w' := BuildSteps(w, id, COIN, 1, rawHex, rawHex);
  }

  lemma NewSigned(w: World, id: string, rawHex: string, defer: bool) returns (w': World)
    requires Plain(w) && id !in w.store && id != "" && FreeCoin(w, id)
    ensures Leads(w, w') && Plain(w') && w'.clock == w.clock && w'.storeCrash == {w'.store} && w'.sends == w.sends
    ensures SameOrder(w, w') && (Unexpired(w) ==> w'.flags.lapsed == w.flags.lapsed)
    ensures w'.spent == map[COIN := Waits(w.clock, id, 1)] && w'.spentCrash == {w'.spent}
    ensures Untouched(w, w', id) && w'.store.Keys == w.store.Keys + {id}
    ensures InState(w', id, Built) && !Held(w'.store[id]) && w'.store[id].inputs == [COIN] &&
            w'.store[id].txid == rawHex
    ensures w'.store[id].sentAt == 0 && !w'.store[id].maybeRelayed && w'.store[id].attempts == if defer then 1 else 0
  {
    var w1 := NewCreated(w, id, defer);
    w' := SignedOn(w1, id, rawHex);
    LeadsOn(w, w1, w');
  }

  /** Counted once before and not sent, it is rejected and held; the mark on the
      coin does not reach the disk. */
  lemma SentRejected(w: World, id: string) returns (w': World)
    requires Plain(w) && InState(w, id, Built) && !Held(w.store[id]) && w.store[id].inputs == [COIN] && id != ""
    requires w.store[id].attempts == 1 && w.store[id].sentAt == 0 && w.spent == map[COIN := Waits(w.clock, id, 1)]
    ensures Leads(w, w') && Plain(w') && w'.clock == w.clock && w'.storeCrash == {w'.store}
    ensures w'.spentCrash == {map[COIN := Waits(w.clock, id, 1)]} && w'.sends == w.sends + [Answer(w, id, REJECTION)]
    ensures Untouched(w, w', id) && w'.store.Keys == w.store.Keys
    ensures InState(w', id, Built) && Held(w'.store[id]) && w'.store[id].inputs == [COIN]
    ensures HoldTxid(w'.store[id]) == w.store[id].txid
  {
    assert forall o :: o in [COIN] <==> o == COIN;
    assert Classify(REJECTION) == Rejected;
    w' := SendSteps(w, id, COIN, 1, REJECTION, NotWritten);
    assert w.spent[COIN := Waits(w.clock, id, 1)] == w.spent;
  }

  lemma SentAccepted(w: World, id: string) returns (w': World)
    requires Plain(w) && InState(w, id, Built) && !Held(w.store[id]) && w.store[id].inputs == [COIN] && id != ""
    requires CanReserve(w.spent, [COIN], id, w.clock) && !SentBy(w.spent, COIN, id)
    ensures Leads(w, w') && SameOrder(w, w') && Plain(w') && w'.storeCrash == {w'.store} && w'.clock == w.clock
    ensures w'.spent == map[COIN := IsSent(w.clock, id, w.store[id].txid)] && w'.spentSeen == w'.spent &&
            w'.spentCrash == {w'.spent}
    ensures Untouched(w, w', id) && w'.store.Keys == w.store.Keys
    ensures InState(w', id, Broadcast) && w'.store[id].inputs == [COIN] && w'.store[id].txid == w.store[id].txid
    ensures w'.store[id].sentAt == w.clock && w'.sends == w.sends + [Answer(w, id, Success)]
  {
    w' := SendSteps(w, id, COIN, 1, Success, Durable);
  }
}
