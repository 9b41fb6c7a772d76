/** Ways on from any world: what the engine can always do next. */
module WithdrawalSteps {
  import opened AtomicFile
  import opened SpentSet
  import opened Broadcaster
  import opened Withdrawal
  import opened WithdrawalInputs

  ghost predicate Path(worlds: seq<World>, w: World, w': World) {
    && worlds != [] && worlds[0] == w && worlds[|worlds| - 1] == w'
    && forall k :: 0 <= k < |worlds| - 1 ==> StepAt(worlds, k)
  }

  /** Some steps lead from one world to the other. */
  ghost predicate Leads(w: World, w': World) {
    exists worlds :: Path(worlds, w, w')
  }

  lemma LeadsHere(w: World)
    ensures Leads(w, w)
  {
    assert Path([w], w, w);
  }

  lemma LeadsOn(w: World, w': World, w'': World)
    requires Leads(w, w') && Leads(w', w'')
    ensures Leads(w, w'')
  {
    var p :| Path(p, w, w');
    var q :| Path(q, w', w'');
    var r := p + q[1..];
    forall k | 0 <= k < |r| - 1 ensures StepAt(r, k) {
      if k < |p| - 1 {
        assert StepAt(p, k);
      } else {
        assert StepAt(q, k - |p| + 1);
      }
    }
    assert Path(r, w, w'');
  }

  lemma LeadsReaches(w: World, w': World)
    requires Reachable(w) && Leads(w, w')
    ensures Reachable(w')
  {
    var worlds :| Run(worlds) && w in worlds;
    var n :| 0 <= n < |worlds| && worlds[n] == w;
    var p :| Path(p, w, w');
    var run := worlds[..n] + p;
    forall k | 0 <= k < |run| - 1 ensures StepAt(run, k) {
      if k < n {
        assert StepAt(worlds, k);
      } else {
        assert StepAt(p, k - n);
      }
    }
    assert Run(run) && run[|run| - 1] == w';
  }

  lemma Go(w: World, a: Action) returns (w': World)
    requires Enabled(w, a)
    ensures Leads(w, w') && w' == Step(w, a)
    ensures w'.flags.lapsed <==> w.flags.lapsed || LapsedNow(w')
  {
    w' := Step(w, a);
    assert LapsedNow(w') <==> LapsedNow(Apply(w, a));
    assert StepAt([w, w'], 0);
    assert Path([w, w'], w, w');
  }

  /** There is always an id to submit under. */
  lemma {:induction false} Longest(ids: set<string>) returns (n: nat)
    ensures forall i | i in ids :: |i| <= n
    decreases |ids|
  {
    if ids == {} {
      n := 0;
    } else {
      var i :| i in ids;
      n := Longest(ids - {i});
      n := if |i| > n then |i| else n;
    }
  }

  lemma FreshId(ids: set<string>) returns (id: string)
    ensures id !in ids && id != ""
  {
    var n := Longest(ids);
    id := seq(n + 1, _ => 'x');
    assert id in ids ==> |id| <= n;
  }

  // ----- Steps, each written out but for the flags -----

  function Waits(now: nat, id: string, ttl: nat): Entry {
    Entry(Reserved(now + ttl), now, false, id)
  }

  function IsSent(now: nat, id: string, txid: string): Entry {
    Entry(Sent(txid), now, false, id)
  }

  /** Memory and disk hold these entries and no others. */
  function Holding(w: World, m: Entries): World {
    w.(spent := m, spentSeen := m, spentCrash := {m})
  }

  /** The intents file holds these records and no others. */
  function Storing(w: World, s: Intents): World {
    w.(store := s, storeCrash := {s})
  }

  /** Nothing was reused, taken over or unsettled on the way, and the clock did
      not go back. */
  predicate SameOrder(w: World, w': World) {
    w'.flags == w.flags.(lapsed := w'.flags.lapsed)
  }

  /** No reservation has run out. */
  predicate Unexpired(w: World) {
    forall p | p in w.spent :: !Expired(w.spent[p], w.clock)
  }

  /** ... in one step, by which a reservation lapsed only if one has now. */
  ghost predicate InOrder(w: World, w': World) {
    SameOrder(w, w') && (w'.flags.lapsed <==> w.flags.lapsed || LapsedNow(w'))
  }

  lemma SubmitStep(w: World, id: string, o: WriteOutcome) returns (w': World)
    requires id !in w.store && id != "" && !o.NotWritten?
    ensures Leads(w, w') && w' == Step(w, Submit(id, "address", 1, 1, o))
    ensures var s := w.store[id := NewIntent("address", 1, 1, w.clock)];
            w' == w.(store := s, storeCrash := CrashAfter(w.storeCrash, s, o), flags := w'.flags)
    ensures InOrder(w, w')
  {
    w' := Go(w, Submit(id, "address", 1, 1, o));
  }

  lemma ReserveOne(m: Entries, p: Outpoint, id: string, now: nat, ttl: nat)
    requires !SentBy(m, p, id)
    ensures ToReserve(m, [p], id) == {p} && AfterReserve(m, [p], id, now, ttl) == m[p := Waits(now, id, ttl)]
  {
    assert forall o :: o in [p] <==> o == p;
  }

  lemma TakeStep(w: World, id: string, p: Outpoint, ttl: nat) returns (w': World)
    requires CanBegin(w) && InState(w, id, Created) && p !in w.confirmed
    requires CanReserve(w.spent, [p], id, w.clock) && !SentBy(w.spent, p, id)
    ensures Leads(w, w') && w' == Step(w, BuildReserve(id, [p], ttl, Durable))
    ensures w' == Holding(w, w.spent[p := Waits(w.clock, id, ttl)]).(call := Building(id, [p]), flags := w'.flags)
    ensures InOrder(w, w')
  {
    ReserveOne(w.spent, p, id, w.clock, ttl);
    w' := Go(w, BuildReserve(id, [p], ttl, Durable));
  }

  lemma SignStep(w: World, id: string, p: Outpoint, rawHex: string, txid: string) returns (w': World)
    requires w.call == Building(id, [p]) && id in w.store
    ensures Leads(w, w') && w' == Step(w, BuildSave(rawHex, txid, Durable))
    ensures w' == Storing(w, w.store[id := BuiltRecord(w.store[id], [p], rawHex, txid, w.clock)])
                  .(call := Idle, flags := w'.flags)
    ensures InOrder(w, w')
  {
    w' := Go(w, BuildSave(rawHex, txid, Durable));
  }

  lemma RetakeStep(w: World, id: string, p: Outpoint, ttl: nat) returns (w': World)
    requires CanBegin(w) && InState(w, id, Built) && !Held(w.store[id]) && w.store[id].inputs == [p] &&
             p !in w.confirmed
    requires CanReserve(w.spent, [p], id, w.clock) && !SentBy(w.spent, p, id)
    ensures Leads(w, w') &&
            w' == Holding(w, w.spent[p := Waits(w.clock, id, ttl)]).(call := Reserving(id), flags := w'.flags)
    ensures InOrder(w, w')
  {
    ReserveOne(w.spent, p, id, w.clock, ttl);
    w' := Go(w, SendReserve(id, ttl, Durable));
  }

  lemma AttemptStep(w: World, id: string) returns (w': World)
    requires w.call == Reserving(id) && id in w.store
    ensures Leads(w, w')
    ensures w' == Storing(w, w.store[id := AttemptRecord(w.store[id], w.clock)])
                  .(call := Ready(id, Prior(w.store[id])), flags := w'.flags)
    ensures InOrder(w, w')
  {
    w' := Go(w, SaveAttempt(Durable));
  }

  lemma HandStep(w: World, id: string, prior: bool) returns (w': World)
    requires w.call == Ready(id, prior) && id in w.store
    ensures Leads(w, w')
    ensures w' == w.(sends := w.sends + [Send(id, w.store[id].rawHex, w.store[id].sentAt, false, None)],
                     call := Waiting(id, prior), flags := w'.flags)
    ensures InOrder(w, w')
  {
    w' := Go(w, HandOver);
  }

  lemma HearStep(w: World, id: string, prior: bool, out: Outcome, sends: seq<Send>, s: Send) returns (w': World)
    requires w.call == Waiting(id, prior) && w.sends == sends + [s]
    ensures Leads(w, w')
    ensures w' == w.(sends := sends + [s.(heard := Some(out))], call := Answered(id, prior, Classify(out)),
                     flags := w'.flags)
    ensures InOrder(w, w')
  {
    w' := Go(w, Hear(out));
  }

  /** Marking one input, with the write lost or durable. */
  lemma MarkStep(w: World, id: string, p: Outpoint, prior: bool, reply: Reply, o: WriteOutcome) returns (w': World)
    requires w.call == Answered(id, prior, reply) && Marks(prior, reply) && !reply.Mismatch? && id in w.store &&
             id != ""
    requires w.store[id].inputs == [p] && (p in w.spent ==> w.spent[p].intent == id) && o != NotDurable
    ensures Leads(w, w')
    ensures var m := w.spent[p := IsSent(w.clock, id, w.store[id].txid)];
            w' == (if o.Durable? then Holding(w, m) else
                   w.(spent := m)).(call := Marked(id, prior, reply), flags := w'.flags)
    ensures InOrder(w, w')
  {
    MarkOne(w.spent, p, id, w.store[id].txid, w.clock);
    w' := Go(w, MarkInputs(o));
  }

  lemma MarkOne(m: Entries, p: Outpoint, id: string, txid: string, now: nat)
    requires p in m ==> !SentByAnother(m[p], txid, id)
    ensures CanMark(m, [p], txid, id) && AfterMark(m, [p], txid, id, now) == m[p := IsSent(now, id, txid)]
  {
    assert forall o :: o in [p] <==> o == p;
  }

  lemma SettleStep(w: World, id: string, prior: bool, reply: Reply) returns (w': World)
    requires w.call == Marked(id, prior, reply) && Marks(prior, reply) && id in w.store
    ensures Leads(w, w')
    ensures w' == Storing(w, w.store[id := SettledRecord(w.store[id], prior, reply, w.clock)])
                  .(call := Idle, flags := w'.flags)
    ensures InOrder(w, w')
  {
    w' := Go(w, Settle(Durable));
  }

  lemma TickStep(w: World, now: nat) returns (w': World)
    requires now > 0 && now >= w.clock
    ensures Leads(w, w') && InOrder(w, w') && w' == w.(clock := now, flags := w'.flags)
  {
    w' := Go(w, Tick(now));
  }

  lemma DeferStep(w: World, id: string) returns (w': World)
    requires CanBegin(w) && InState(w, id, Created)
    ensures Leads(w, w') && InOrder(w, w')
    ensures w' == Storing(w, w.store[id := DeferredRecord(w.store[id], w.clock)]).(flags := w'.flags)
  {
    w' := Go(w, Defer(id, Durable));
  }

  lemma AbandonStep(w: World, id: string, o: WriteOutcome) returns (w': World)
    requires CanBegin(w) && (InState(w, id, Broadcast) || (InState(w, id, Built) && Held(w.store[id]))) &&
             !o.NotWritten?
    requires w.clock >= LastSent(w.store[id])
    ensures Leads(w, w') && InOrder(w, w')
    ensures var s := w.store[id := AbandonedRecord(w.store[id], w.clock)];
            w' == w.(store := s, storeCrash := CrashAfter(w.storeCrash, s, o),
                     call := if o.Durable? then ForgetDue(id) else Idle, flags := w'.flags)
  {
    w' := Go(w, Abandon(id, 0, o));
  }

  lemma ForgetStep(w: World, id: string) returns (w': World)
    requires w.call == ForgetDue(id) && AfterForget(w.spent, id) != w.spent
    ensures Leads(w, w') && InOrder(w, w')
    ensures w' == Holding(w, AfterForget(w.spent, id)).(call := Idle, flags := w'.flags)
  {
    w' := Go(w, Forget(Durable));
  }

  lemma PowerStep(w: World, s: Intents, m: Entries) returns (w': World)
    requires s in w.storeCrash && m in w.spentCrash
    ensures Leads(w, w') && InOrder(w, w') && w' == Restart(w, s, m).(flags := w'.flags)
  {
    w' := Go(w, PowerLoss(s, m));
  }

  lemma ExitStep(w: World) returns (w': World)
    ensures Leads(w, w') && InOrder(w, w') && w' == Reopen(w).(flags := w'.flags)
  {
    w' := Go(w, Exit);
  }

  lemma RemarksDoneStep(w: World) returns (w': World)
    requires w.phase == Restarted && forall id | InState(w, id, Broadcast) :: id in w.remarked
    ensures Leads(w, w') && InOrder(w, w') && w' == w.(phase := Repairing, flags := w'.flags)
  {
    w' := Go(w, RemarksDone);
  }

  lemma RepairDoneStep(w: World) returns (w': World)
    requires w.phase == Repairing
    ensures Leads(w, w') && InOrder(w, w') && w' == w.(phase := Running, flags := w'.flags)
  {
    w' := Go(w, RepairDone);
  }

  // ----- Whole transitions -----

  function Verdict(r: Intent, out: Outcome, now: nat): Intent {
    SettledRecord(AttemptRecord(r, now), Prior(r), Classify(out), now)
  }

  function Answer(w: World, id: string, out: Outcome): Send
    requires id in w.store
  {
    Send(id, w.store[id].rawHex, w.clock, false, Some(out))
  }

  /** A send whose answer marks the inputs; the mark's write is lost or durable. */
  lemma SendSteps(w: World, id: string, p: Outpoint, ttl: nat, out: Outcome, o: WriteOutcome) returns (w': World)
    requires CanBegin(w) && InState(w, id, Built) && !Held(w.store[id]) && w.store[id].inputs == [p] &&
             p !in w.confirmed
    requires id != "" && CanReserve(w.spent, [p], id, w.clock) && !SentBy(w.spent, p, id)
    requires Marks(Prior(w.store[id]), Classify(out)) && !Classify(out).Mismatch? && o != NotDurable
    ensures Leads(w, w') && SameOrder(w, w')
    ensures var m := w.spent[p := IsSent(w.clock, id, w.store[id].txid)];
            var disk := if o.Durable? then m else w.spent[p := Waits(w.clock, id, ttl)];
            w' == Storing(Holding(w, disk), w.store[id := Verdict(w.store[id], out, w.clock)])
                  .(spent := m, sends := w.sends + [Answer(w, id, out)], flags := w'.flags)
  {
    var r := w.store[id];
    var w1 := AskSteps(w, id, p, ttl, out);
    w' := VerdictSteps(w1, id, p, Prior(r), Classify(out), o);
    LeadsOn(w, w1, w');
    Twice(w.store, id, AttemptRecord(r, w.clock), Verdict(r, out, w.clock));
    Twice(w.spent, p, Waits(w.clock, id, ttl), IsSent(w.clock, id, r.txid));
  }

  lemma Twice<K, V>(m: map<K, V>, k: K, a: V, b: V)
    ensures m[k := a][k := b] == m[k := b]
  {
  }

  lemma AskSteps(w: World, id: string, p: Outpoint, ttl: nat, out: Outcome) returns (w': World)
    requires CanBegin(w) && InState(w, id, Built) && !Held(w.store[id]) && w.store[id].inputs == [p] &&
             p !in w.confirmed
    requires CanReserve(w.spent, [p], id, w.clock) && !SentBy(w.spent, p, id)
    ensures Leads(w, w') && SameOrder(w, w') && (Unexpired(w) ==> w'.flags.lapsed == w.flags.lapsed)
    ensures w' == Storing(Holding(w, w.spent[p := Waits(w.clock, id, ttl)]),
                          w.store[id := AttemptRecord(w.store[id], w.clock)])
                  .(call := Answered(id, Prior(w.store[id]), Classify(out)), sends := w.sends + [Answer(w, id, out)],
                    flags := w'.flags)
  {
    var w1 := ReadySteps(w, id, p, ttl);
    w' := ExchangeSteps(w1, id, Prior(w.store[id]), out);
    LeadsOn(w, w1, w');
  }

  lemma ReadySteps(w: World, id: string, p: Outpoint, ttl: nat) returns (w': World)
    requires CanBegin(w) && InState(w, id, Built) && !Held(w.store[id]) && w.store[id].inputs == [p] &&
             p !in w.confirmed
    requires CanReserve(w.spent, [p], id, w.clock) && !SentBy(w.spent, p, id)
    ensures Leads(w, w') && SameOrder(w, w')
    ensures Unexpired(w) ==> Unexpired(w') && w'.flags.lapsed == w.flags.lapsed
    ensures w' == Storing(Holding(w, w.spent[p := Waits(w.clock, id, ttl)]),
                          w.store[id := AttemptRecord(w.store[id], w.clock)])
                  .(call := Ready(id, Prior(w.store[id])), flags := w'.flags)
  {
    var w1 := RetakeStep(w, id, p, ttl);
    w' := AttemptStep(w1, id);
    LeadsOn(w, w1, w');
    if Unexpired(w) {
      assert Unexpired(w1) && Unexpired(w');
    }
  }

  lemma ExchangeSteps(w: World, id: string, prior: bool, out: Outcome) returns (w': World)
    requires w.call == Ready(id, prior) && id in w.store
    ensures Leads(w, w') && SameOrder(w, w') && (Unexpired(w) ==> w'.flags.lapsed == w.flags.lapsed)
    ensures w' == w.(call := Answered(id, prior, Classify(out)), flags := w'.flags,
                     sends := w.sends + [Send(id, w.store[id].rawHex, w.store[id].sentAt, false, Some(out))])
  {
    var w1 := HandStep(w, id, prior);
    w' := HearStep(w1, id, prior, out, w.sends, Send(id, w.store[id].rawHex, w.store[id].sentAt, false, None));
    LeadsOn(w, w1, w');
  }

  lemma VerdictSteps(w: World, id: string, p: Outpoint, prior: bool, reply: Reply, o: WriteOutcome) returns (w': World)
    requires w.call == Answered(id, prior, reply) && Marks(prior, reply) && !reply.Mismatch? && id in w.store &&
             id != ""
    requires w.store[id].inputs == [p] && (p in w.spent ==> w.spent[p].intent == id) && o != NotDurable
    ensures Leads(w, w') && SameOrder(w, w')
    ensures var m := w.spent[p := IsSent(w.clock, id, w.store[id].txid)];
            w' == Storing(if o.Durable? then Holding(w, m) else w.(spent := m),
                          w.store[id := SettledRecord(w.store[id], prior, reply, w.clock)])
                              .(call := Idle, flags := w'.flags)
  {
    var w1 := MarkStep(w, id, p, prior, reply, o);
    w' := SettleStep(w1, id, prior, reply);
    LeadsOn(w, w1, w');
  }

  lemma BuildSteps(w: World, id: string, p: Outpoint, ttl: nat, rawHex: string, txid: string) returns (w': World)
    requires CanBegin(w) && InState(w, id, Created) && p !in w.confirmed
    requires CanReserve(w.spent, [p], id, w.clock) && !SentBy(w.spent, p, id)
    ensures Leads(w, w') && SameOrder(w, w') && (Unexpired(w) ==> w'.flags.lapsed == w.flags.lapsed)
    ensures w' == Storing(Holding(w, w.spent[p := Waits(w.clock, id, ttl)]),
                          w.store[id := BuiltRecord(w.store[id], [p], rawHex, txid, w.clock)]).(flags := w'.flags)
  {
    var w1 := TakeStep(w, id, p, ttl);
    if Unexpired(w) {
      assert Unexpired(w1);
    }
    w' := SignCalmly(w1, id, p, rawHex, txid);
    LeadsOn(w, w1, w');
  }

  lemma SignCalmly(w: World, id: string, p: Outpoint, rawHex: string, txid: string) returns (w': World)
    requires w.call == Building(id, [p]) && id in w.store
    ensures Leads(w, w') && SameOrder(w, w') && (Unexpired(w) ==> w'.flags.lapsed == w.flags.lapsed)
    ensures w' == Storing(w, w.store[id := BuiltRecord(w.store[id], [p], rawHex, txid, w.clock)])
                  .(call := Idle, flags := w'.flags)
  {
    w' := SignStep(w, id, p, rawHex, txid);
    if Unexpired(w) {
      assert Unexpired(w');
    }
  }

  /** On an input nobody has an entry for, a new withdrawal can go all the way. */
  lemma NewSent(w: World, p: Outpoint) returns (w': World, id: string)
    requires CanBegin(w) && p !in w.spent && p !in w.confirmed
    ensures Leads(w, w') && SameOrder(w, w') && w'.confirmed == w.confirmed && id !in w.store
    ensures InState(w', id, Broadcast) && w'.store[id].inputs == [p]
    ensures forall i | i in w.store :: i in w'.store && w'.store[i] == w.store[i]
  {
    id := FreshId(w.store.Keys);
    var w1 := SubmitStep(w, id, Durable);
    assert CanReserve(w1.spent, [p], id, w1.clock);
    var w2 := BuildSteps(w1, id, p, 1, "new", "new");
    LeadsOn(w, w1, w2);
    w' := BuiltSent(w2, id, p);
    LeadsOn(w, w2, w');
  }

  lemma BuiltSent(w: World, id: string, p: Outpoint) returns (w': World)
    requires CanBegin(w) && InState(w, id, Built) && !Held(w.store[id]) && w.store[id].inputs == [p] && id != ""
    requires p !in w.confirmed && p in w.spent && w.spent[p].intent == id && w.spent[p].kind.Reserved?
    ensures Leads(w, w') && SameOrder(w, w') && w'.confirmed == w.confirmed
    ensures InState(w', id, Broadcast) && w'.store[id].inputs == [p]
    ensures forall i | i in w.store && i != id :: i in w'.store && w'.store[i] == w.store[i]
  {
    assert forall o :: o in [p] <==> o == p;
    w' := SendSteps(w, id, p, 1, Success, Durable);
  }
}
