/** What Abandon's wait is counted from. The time in the record is that of the
    last hand-over, except that a re-send whose outcome Rebroadcast takes for a
    refusal puts it back; and it takes a lost reply for one. */
module WithdrawalWait {
  import opened AtomicFile
  import opened SpentSet
  import opened Broadcaster
  import opened Withdrawal
  import opened WithdrawalRecords
  import opened WithdrawalOwnership

  /** The record is dated no earlier than a hand-over that was not taken back. */
  predicate Dated(r: Intent, s: Send) {
    TakenBack(s) || s.at <= r.sentAt
  }

  ghost predicate SendDated(w: World, s: Send) {
    s.at <= w.clock && forall f: Intents :: f in w.storeCrash && s.id in f ==> Dated(f[s.id], s)
  }

  ghost predicate SendsDated(w: World) {
    forall k :: 0 <= k < |w.sends| ==> SendDated(w, w.sends[k])
  }

  /** The time a re-send under way would be put back to covers every earlier
      hand-over; `n` of them came before it. */
  predicate CoveredBy(w: World, id: string, time: nat, n: int) {
    forall k :: 0 <= k < n && k < |w.sends| && w.sends[k].id == id ==> TakenBack(w.sends[k]) || w.sends[k].at <= time
  }

  predicate CallCovered(w: World) {
    match w.call
    case Resending(id, before) => before <= w.clock && CoveredBy(w, id, before, |w.sends|)
    case Rewaiting(id, before) => before <= w.clock && LastAgain(w, id) && CoveredBy(w, id, before, |w.sends| - 1)
    case Reanswered(id, before, out) =>
      before <= w.clock && LastAgain(w, id) && w.sends[|w.sends| - 1].heard == Some(out) &&
      CoveredBy(w, id, before, |w.sends| - 1)
    case _ => true
  }

  predicate LastAgain(w: World, id: string) {
    |w.sends| > 0 && w.sends[|w.sends| - 1].id == id && w.sends[|w.sends| - 1].again
  }

  ghost predicate RecordsDated(w: World) {
    forall f: Intents, id :: f in w.storeCrash && id in f ==> f[id].sentAt <= w.clock && f[id].updatedAt <= w.clock
  }

  ghost predicate WaitInv(w: World) {
    SendsDated(w) && RecordsDated(w) && CallCovered(w)
  }

  /** Abandon waits from no earlier than this hand-over, whatever a power loss
      leaves of the record. */
  ghost predicate Covered(w: World, s: Send) {
    forall f: Intents :: f in w.storeCrash && s.id in f ==> s.at <= f[s.id].sentAt
  }

  /** No record's time is moved but to now, and no hand-over's id or time. */
  ghost predicate Redated(w: World, w': World) {
    && (forall f: Intents, i :: f in w'.storeCrash && i in f ==>
          f in w.storeCrash || i !in w.store || f[i].sentAt == w.store[i].sentAt || f[i].sentAt == w.clock)
    && SameSends(w, w')
  }

  predicate SameSends(w: World, w': World) {
    |w.sends| <= |w'.sends| &&
    forall k :: 0 <= k < |w.sends| ==> w'.sends[k].id == w.sends[k].id && w'.sends[k].at == w.sends[k].at
  }

  // ----- Every action keeps it while the clock does not go back -----

  lemma SavedDated(w: World, id: string, r: Intent, o: WriteOutcome)
    requires SendsDated(w) && RecordsDated(w) && w.store in w.storeCrash && r.sentAt <= w.clock &&
             r.updatedAt <= w.clock
    requires forall k :: 0 <= k < |w.sends| && w.sends[k].id == id ==> Dated(r, w.sends[k])
    ensures SendsDated(Saved(w, id, r, o)) && RecordsDated(Saved(w, id, r, o))
  {
    var w' := Saved(w, id, r, o);
    forall k | 0 <= k < |w'.sends| ensures SendDated(w', w'.sends[k]) {
      var s := w.sends[k];
      assert SendDated(w, s);
      forall f: Intents | f in w'.storeCrash && s.id in f ensures Dated(f[s.id], s) {
        if f !in w.storeCrash {
          assert f == w.store[id := r] && w.store in w.storeCrash;
        }
      }
    }
    forall f: Intents, i | f in w'.storeCrash && i in f ensures f[i].sentAt <= w'.clock && f[i].updatedAt <= w'.clock {
      if f !in w.storeCrash {
        assert f == w.store[id := r] && w.store in w.storeCrash;
      }
    }
  }

  /** A record that keeps its date, or moves it to now. */
  lemma LaterDated(w: World, id: string, r: Intent)
    requires SendsDated(w) && RecordsDated(w) && w.store in w.storeCrash
    requires id in w.store && (r.sentAt == w.store[id].sentAt || r.sentAt == w.clock)
    ensures r.sentAt <= w.clock
    ensures forall k :: 0 <= k < |w.sends| && w.sends[k].id == id ==> Dated(r, w.sends[k])
  {
    assert w.store[id].sentAt <= w.clock;
    forall k | 0 <= k < |w.sends| && w.sends[k].id == id ensures Dated(r, w.sends[k]) {
      assert SendDated(w, w.sends[k]);
      assert Dated(w.store[id], w.sends[k]);
    }
  }

  lemma SavedRedates(w: World, id: string, r: Intent, o: WriteOutcome, call: Call)
    requires w.store in w.storeCrash
    requires id in w.store ==> r.sentAt == w.store[id].sentAt || r.sentAt == w.clock
    ensures Redated(w, Saved(w, id, r, o).(call := call))
  {
    var w' := Saved(w, id, r, o).(call := call);
    forall f: Intents, i | f in w'.storeCrash && i in f
      ensures f in w.storeCrash || i !in w.store || f[i].sentAt == w.store[i].sentAt || f[i].sentAt == w.clock
    {
      assert f in w.storeCrash || f == w.store[id := r];
    }
  }

  /** A save of the kind almost all are. */
  lemma SaveKeeps(w: World, id: string, r: Intent, o: WriteOutcome, call: Call)
    requires WaitInv(w) && w.store in w.storeCrash && id in w.store
    requires (r.sentAt == w.store[id].sentAt || r.sentAt == w.clock) && r.updatedAt <= w.clock
    requires !call.Resending? && !call.Rewaiting? && !call.Reanswered?
    ensures WaitInv(Saved(w, id, r, o).(call := call))
    ensures Redated(w, Saved(w, id, r, o).(call := call))
  {
    SavedRedates(w, id, r, o, call);
    LaterDated(w, id, r);
    SavedDated(w, id, r, o);
    SameDated(Saved(w, id, r, o), Saved(w, id, r, o).(call := call));
  }

  lemma SameDated(w: World, w': World)
    requires SendsDated(w) && RecordsDated(w)
    requires w'.storeCrash <= w.storeCrash && w'.sends == w.sends && w.clock <= w'.clock
    ensures SendsDated(w') && RecordsDated(w')
  {
    forall k | 0 <= k < |w'.sends| ensures SendDated(w', w'.sends[k]) {
      assert SendDated(w, w.sends[k]);
    }
  }

  /** What leaves the records alone. */
  lemma QuietKeeps(w: World, w': World)
    requires WaitInv(w) && w'.storeCrash <= w.storeCrash && w'.sends == w.sends && w.clock <= w'.clock
    requires w'.call == w.call || !(w'.call.Resending? || w'.call.Rewaiting? || w'.call.Reanswered?)
    ensures WaitInv(w') && Redated(w, w')
  {
    SameDated(w, w');
  }

  /** A new record has no hand-overs. */
  lemma SubmitKeeps(w: World, id: string, r: Intent, o: WriteOutcome)
    requires WaitInv(w) && FileInv(w) && SendsInv(w) && id !in w.store && r.sentAt == 0 && r.updatedAt <= w.clock
    ensures WaitInv(Saved(w, id, r, o)) && Redated(w, Saved(w, id, r, o))
  {
    SavedRedates(w, id, r, o, w.call);
    forall k | 0 <= k < |w.sends| ensures w.sends[k].id != id {
      assert SendInv(w, w.sends[k]);
      assert w.store in w.storeCrash;
    }
    SavedDated(w, id, r, o);
  }

  /** Before a re-send the time to go back to is the record's own. */
  lemma SaveResendKeeps(w: World, id: string, o: WriteOutcome, call: Call)
    requires WaitInv(w) && w.store in w.storeCrash && id in w.store
    requires call == if o.Durable? then Resending(id, LastSent(w.store[id])) else Idle
    ensures WaitInv(Saved(w, id, ResendRecord(w.store[id], w.clock), o).(call := call))
    ensures Redated(w, Saved(w, id, ResendRecord(w.store[id], w.clock), o).(call := call))
  {
    var r := ResendRecord(w.store[id], w.clock);
    SavedRedates(w, id, r, o, call);
    LaterDated(w, id, r);
    LaterDated(w, id, w.store[id]);
    SavedDated(w, id, r, o);
    SameDated(Saved(w, id, r, o), Saved(w, id, r, o).(call := call));
  }

  /** The bytes go out dated as the record that every content has. */
  lemma HandOverKeeps(w: World, id: string, again: bool, call: Call)
    requires SendsDated(w) && RecordsDated(w) && Pinned(w, id) && w.store in w.storeCrash
    ensures SendsDated(HandedOver(w, id, again).(call := call)) && RecordsDated(HandedOver(w, id, again).(call := call))
    ensures Redated(w, HandedOver(w, id, again).(call := call))
  {
    var w' := HandedOver(w, id, again).(call := call);
    assert w.store[id].sentAt <= w.clock;
    forall k | 0 <= k < |w'.sends| ensures SendDated(w', w'.sends[k]) {
      if k < |w.sends| {
        assert SendDated(w, w.sends[k]);
      }
    }
  }

  lemma HandOverAgainKeeps(w: World)
    requires WaitInv(w) && w.call.Resending? && Pinned(w, w.call.id) && w.store in w.storeCrash
    ensures WaitInv(HandedOver(w, w.call.id, true).(call := Rewaiting(w.call.id, w.call.sentBefore)))
    ensures Redated(w, HandedOver(w, w.call.id, true).(call := Rewaiting(w.call.id, w.call.sentBefore)))
  {
    HandOverKeeps(w, w.call.id, true, Rewaiting(w.call.id, w.call.sentBefore));
  }

  lemma HearKeeps(w: World, out: Outcome, call: Call)
    requires SendsDated(w) && RecordsDated(w) && |w.sends| > 0 && w.sends[|w.sends| - 1].heard == None
    ensures SendsDated(WithAnswer(w, out).(call := call)) && RecordsDated(WithAnswer(w, out).(call := call))
    ensures Redated(w, WithAnswer(w, out).(call := call))
  {
    var w' := WithAnswer(w, out).(call := call);
    forall k | 0 <= k < |w'.sends| ensures SendDated(w', w'.sends[k]) {
      assert SendDated(w, w.sends[k]);
    }
  }

  lemma HearAgainKeeps(w: World, out: Outcome)
    requires WaitInv(w) && w.call.Rewaiting? && Unheard(w, w.call.id)
    ensures WaitInv(WithAnswer(w, out).(call := Reanswered(w.call.id, w.call.sentBefore, out)))
    ensures Redated(w, WithAnswer(w, out).(call := Reanswered(w.call.id, w.call.sentBefore, out)))
  {
    HearKeeps(w, out, Reanswered(w.call.id, w.call.sentBefore, out));
  }

  /** Putting the time back uncovers no hand-over but the one taken back. */
  lemma SettleAgainKeeps(w: World, o: WriteOutcome)
    requires WaitInv(w) && w.call.Reanswered? && w.store in w.storeCrash && w.call.id in w.store
    ensures WaitInv(Saved(w, w.call.id, ResentRecord(w.store[w.call.id], w.call.sentBefore, w.call.out, w.clock),
                          o).(call := Idle))
  {
    var id, r := w.call.id, ResentRecord(w.store[w.call.id], w.call.sentBefore, w.call.out, w.clock);
    if PutsBack(w.call.out) {
      forall k | 0 <= k < |w.sends| && w.sends[k].id == id ensures Dated(r, w.sends[k]) {
        if k == |w.sends| - 1 {
          assert TakenBack(w.sends[k]);
        }
      }
      SavedDated(w, id, r, o);
      SameDated(Saved(w, id, r, o), Saved(w, id, r, o).(call := Idle));
    } else {
      SaveKeeps(w, id, r, o, Idle);
    }
  }

  // ----- All of them -----

  ghost predicate Keeps(w: World, a: Action) {
    WaitInv(Apply(w, a)) && (a.SettleAgain? || Redated(w, Apply(w, a)))
  }

  /** Actions that write no record and send nothing. */
  predicate IsQuiet(a: Action) {
    Quiet(a) || SpentOnly(a) || a.BuildAbort? || a.RemarksDone? || a.RepairDone? || a.PowerLoss? || a.Exit?
  }

  lemma QuietSends(w: World, a: Action)
    requires RecordInv(w) && Enabled(w, a) && Quiet(a) && (a.Tick? ==> w.clock <= a.now)
    ensures var w' := Apply(w, a);
            w'.storeCrash == w.storeCrash && w'.sends == w.sends && w.clock <= w'.clock && w'.call == w.call
  {
    QuietSame(w, a);
  }

  ghost predicate SendsNothing(w: World, w': World) {
    w'.storeCrash == w.storeCrash && w'.sends == w.sends && w.clock <= w'.clock &&
    !(w'.call.Resending? || w'.call.Rewaiting? || w'.call.Reanswered?)
  }

  lemma BuildReserveSends(w: World, a: Action)
    requires CanBegin(w) && w.clock > 0 && a.BuildReserve?
    ensures SendsNothing(w, Apply(w, a))
  {
    ReservedSame(w, a.id, a.inputs, a.ttl, a.o);
  }

  lemma SendReserveSends(w: World, a: Action)
    requires CanBegin(w) && w.clock > 0 && a.SendReserve?
    ensures SendsNothing(w, Apply(w, a))
  {
    ReservedSame(w, a.id, Current(w, a.id).inputs, a.ttl, a.o);
  }

  lemma MarkSends(w: World, a: Action)
    requires a.MarkInputs? && w.call.Answered?
    ensures SendsNothing(w, Apply(w, a))
  {
  }

  lemma ConfirmSends(w: World, a: Action)
    requires a.ConfirmInputs?
    ensures SendsNothing(w, Apply(w, a))
  {
  }

  lemma ReleaseSends(w: World, a: Action)
    requires a.Release? && w.call.ReleaseDue?
    ensures SendsNothing(w, Apply(w, a))
  {
  }

  lemma ForgetSends(w: World, a: Action)
    requires a.Forget? && w.call.ForgetDue?
    ensures SendsNothing(w, Apply(w, a))
  {
  }

  lemma SpentOnlySends(w: World, a: Action)
    requires w.clock > 0 && Enabled(w, a) && SpentOnly(a)
    ensures SendsNothing(w, Apply(w, a))
  {
    if a.BuildReserve? {
      BuildReserveSends(w, a);
    } else if a.SendReserve? {
      SendReserveSends(w, a);
    } else if a.MarkInputs? {
      MarkSends(w, a);
    } else if a.ConfirmInputs? {
      ConfirmSends(w, a);
    } else if a.Release? {
      ReleaseSends(w, a);
    } else {
      ForgetSends(w, a);
    }
  }

  lemma QuietActionKeeps(w: World, a: Action)
    requires RecordInv(w) && WaitInv(w) && Enabled(w, a) && IsQuiet(a) && (a.Tick? ==> w.clock <= a.now)
    ensures Keeps(w, a)
  {
    if Quiet(a) {
      QuietSends(w, a);
    } else if SpentOnly(a) {
      SpentOnlySends(w, a);
    }
    QuietKeeps(w, Apply(w, a));
  }

  lemma BuildSaveKeeps(w: World, a: Action)
    requires RecordInv(w) && WaitInv(w) && Enabled(w, a) && a.BuildSave?
    ensures Keeps(w, a)
  {
    SaveKeeps(w, w.call.id, BuiltRecord(w.store[w.call.id], w.call.inputs, a.rawHex, a.txid, w.clock), a.o,
              if a.o.NotWritten? then ReleaseDue(w.call.id) else Idle);
  }

  lemma BuildEndsKeep(w: World, a: Action)
    requires RecordInv(w) && WaitInv(w) && Enabled(w, a) && (a.BuildFail? || a.Defer?)
    ensures Keeps(w, a)
  {
    match a
    case BuildFail(id, o) =>
      SaveKeeps(w, id, UnbuildableRecord(w.store[id], w.clock), o, if o.Durable? then ReleaseDue(id) else Idle);
    case Defer(id, o) => SaveKeeps(w, id, DeferredRecord(w.store[id], w.clock), o, Idle);
  }

  lemma SendSavesKeep(w: World, a: Action)
    requires RecordInv(w) && WaitInv(w) && Enabled(w, a) && (a.Touch? || a.SaveAttempt?)
    ensures Keeps(w, a)
  {
    match a
    case Touch(id, o) => SaveKeeps(w, id, w.store[id].(updatedAt := w.clock), o, Idle);
    case SaveAttempt(o) =>
      SaveKeeps(w, w.call.id, AttemptRecord(w.store[w.call.id], w.clock), o,
                if o.Durable? then Ready(w.call.id, Prior(w.store[w.call.id])) else Idle);
  }

  lemma SettleKeeps(w: World, a: Action)
    requires RecordInv(w) && WaitInv(w) && Enabled(w, a) && a.Settle?
    ensures Keeps(w, a)
  {
    var id, prior, reply := w.call.id, w.call.prior, w.call.reply;
    SaveKeeps(w, id, SettledRecord(w.store[id], prior, reply, w.clock), a.o,
              if reply.Rejected? && !prior && a.o.Durable? then ReleaseDue(id) else Idle);
  }

  lemma ConfirmSavesKeep(w: World, a: Action)
    requires RecordInv(w) && WaitInv(w) && Enabled(w, a) && (a.SaveConfirmed? || a.SaveDepth?)
    ensures Keeps(w, a)
  {
    match a
    case SaveConfirmed(o) =>
      SaveKeeps(w, w.call.id,
                w.store[w.call.id].(state := Confirmed, confirmations := w.call.depth, updatedAt := w.clock), o, Idle);
    case SaveDepth(id, depth, o) => SaveKeeps(w, id, w.store[id].(confirmations := depth, updatedAt := w.clock), o,
                                              Idle);
  }

  lemma AbandonKeeps(w: World, a: Action)
    requires RecordInv(w) && WaitInv(w) && Enabled(w, a) && a.Abandon?
    ensures Keeps(w, a)
  {
    SaveKeeps(w, a.id, AbandonedRecord(w.store[a.id], w.clock), a.o, if a.o.Durable? then ForgetDue(a.id) else Idle);
  }

  lemma ExchangeKeeps(w: World, a: Action)
    requires RecordInv(w) && WaitInv(w) && Enabled(w, a) && (a.HandOver? || a.Hear?)
    ensures Keeps(w, a)
  {
    match a
    case HandOver => HandOverKeeps(w, w.call.id, false, Waiting(w.call.id, w.call.prior));
    case Hear(out) => HearKeeps(w, out, Answered(w.call.id, w.call.prior, Classify(out)));
  }

  lemma ResendSavesKeep(w: World, a: Action)
    requires RecordInv(w) && WaitInv(w) && Enabled(w, a) && (a.SaveResend? || a.SettleAgain?)
    ensures Keeps(w, a)
  {
    match a
    case SaveResend(id, o) =>
      SaveResendKeeps(w, id, o, if o.Durable? then Resending(id, LastSent(w.store[id])) else Idle);
    case SettleAgain(o) => SettleAgainKeeps(w, o);
  }

  lemma ResendKeeps(w: World, a: Action)
    requires RecordInv(w) && WaitInv(w) && Enabled(w, a) && Resends(a)
    ensures Keeps(w, a)
  {
    if a.SaveResend? || a.SettleAgain? {
      ResendSavesKeep(w, a);
    } else {
      match a
      case HandOverAgain => HandOverAgainKeeps(w);
      case HearAgain(out) => HearAgainKeeps(w, out);
    }
  }

  lemma SavesKeep(w: World, a: Action)
    requires RecordInv(w) && WaitInv(w) && Enabled(w, a) && !IsQuiet(a) && !Resends(a)
    ensures Keeps(w, a)
  {
    if a.Submit? {
      SubmitKeeps(w, a.id, NewIntent(a.address, a.amount, a.feeRate, w.clock), a.o);
    } else if a.BuildSave? {
      BuildSaveKeeps(w, a);
    } else if a.BuildFail? || a.Defer? {
      BuildEndsKeep(w, a);
    } else if a.Touch? || a.SaveAttempt? {
      SendSavesKeep(w, a);
    } else if a.Settle? {
      SettleKeeps(w, a);
    } else if a.HandOver? || a.Hear? {
      ExchangeKeeps(w, a);
    } else if a.Abandon? {
      AbandonKeeps(w, a);
    } else {
      ConfirmSavesKeep(w, a);
    }
  }

  lemma ApplyKeeps(w: World, a: Action)
    requires RecordInv(w) && WaitInv(w) && Enabled(w, a) && (a.Tick? ==> w.clock <= a.now)
    ensures Keeps(w, a)
  {
    if IsQuiet(a) {
      QuietActionKeeps(w, a);
    } else if Resends(a) {
      ResendKeeps(w, a);
    } else {
      SavesKeep(w, a);
    }
  }

  lemma StepKeeps(w: World, a: Action)
    requires RecordInv(w) && WaitInv(w) && Enabled(w, a) && (a.Tick? ==> w.clock <= a.now)
    ensures WaitInv(Step(w, a))
  {
    ApplyKeeps(w, a);
    QuietKeeps(Apply(w, a), Step(w, a));
  }

  lemma RunRecords(worlds: seq<World>, k: nat)
    requires Run(worlds) && k < |worlds|
    ensures RecordInv(worlds[k])
  {
    WithdrawalOwnership.RunKeeps(worlds, k);
  }

  ghost predicate Waits(w: World) {
    !w.flags.turned ==> WaitInv(w)
  }

  lemma InitWaits()
    ensures Waits(Init())
  {
  }

  lemma {:induction false} RunKeeps(worlds: seq<World>, k: nat)
    requires Run(worlds) && k < |worlds|
    ensures Waits(worlds[k])
  {
    if k == 0 {
      InitWaits();
    } else {
      RunKeeps(worlds, k - 1);
      RunRecords(worlds, k - 1);
      assert StepAt(worlds, k - 1);
      NextKeeps(worlds[k - 1], worlds[k]);
    }
  }

  lemma NextKeeps(w: World, w': World)
    requires RecordInv(w) && Waits(w) && Next(w, w')
    ensures Waits(w')
  {
    var a :| Enabled(w, a) && w' == Step(w, a);
    if !w'.flags.turned {
      StepKeeps(w, a);
    }
  }

  /** The wait: over every run in which the clock does not go back, Abandon comes
      at least its wait after every hand-over, of the intent's bytes by Broadcast
      or again by Rebroadcast, that was not taken back; so after every one that
      may be out but a re-send whose reply was lost. */
  lemma AbandonWaits(w: World, id: string, wait: nat, o: WriteOutcome, k: nat)
    requires Reachable(w) && !w.flags.turned && Enabled(w, Abandon(id, wait, o))
    requires k < |w.sends| && w.sends[k].id == id && !TakenBack(w.sends[k])
    ensures w.clock - w.sends[k].at >= wait
  {
    ReachableWaits(w);
    assert SendDated(w, w.sends[k]) && w.store in w.storeCrash;
    assert Dated(w.store[id], w.sends[k]);
  }

  lemma ReachableWaits(w: World)
    requires Reachable(w)
    ensures RecordInv(w) && Waits(w)
  {
    var worlds :| Run(worlds) && w in worlds;
    var n :| 0 <= n < |worlds| && worlds[n] == w;
    RunRecords(worlds, n);
    RunKeeps(worlds, n);
  }

  // ----- Exactly what uncovers a hand-over -----

  lemma RedatedCovers(w: World, w': World, s: Send)
    requires Redated(w, w') && Covered(w, s) && w.store in w.storeCrash && s.id in w.store && s.at <= w.clock
    ensures Covered(w', s)
  {
    forall f: Intents | f in w'.storeCrash && s.id in f ensures s.at <= f[s.id].sentAt {
      assert w.store in w.storeCrash;
    }
  }

  lemma SavedCovers(w: World, id: string, r: Intent, o: WriteOutcome, call: Call, s: Send)
    requires Covered(w, s) && w.store in w.storeCrash
    ensures Covered(Saved(w, id, r, o).(call := call), s) <==> (s.id == id && !o.NotWritten? ==> s.at <= r.sentAt)
  {
    var w' := Saved(w, id, r, o).(call := call);
    assert w.store in w.storeCrash;
    if !o.NotWritten? {
      assert w.store[id := r] in w'.storeCrash;
    }
  }

  /** The re-send under way is answered as if refused, what it would be put back to
      is before the hand-over, and the save reaches the file. */
  predicate PutsBefore(w: World, a: Action, s: Send) {
    a.SettleAgain? && w.call.Reanswered? && s.id == w.call.id && PutsBack(w.call.out) && w.call.sentBefore < s.at &&
        !a.o.NotWritten?
  }

  lemma SettleUncovers(w: World, a: Action, s: Send)
    requires Covered(w, s) && RecordInv(w) && Enabled(w, a) && a.SettleAgain?
    ensures !Covered(Apply(w, a), s) <==> PutsBefore(w, a, s)
  {
    var id, r := w.call.id, ResentRecord(w.store[w.call.id], w.call.sentBefore, w.call.out, w.clock);
    assert w.store in w.storeCrash;
    SavedCovers(w, id, r, a.o, Idle, s);
    assert Apply(w, a) == Saved(w, id, r, a.o).(call := Idle);
  }

  lemma ApplyUncovers(w: World, a: Action, k: nat)
    requires RecordInv(w) && WaitInv(w) && Enabled(w, a) && (a.Tick? ==> w.clock <= a.now)
    requires k < |w.sends| && Covered(w, w.sends[k])
    ensures !Covered(Apply(w, a), w.sends[k]) <==> PutsBefore(w, a, w.sends[k])
  {
    if a.SettleAgain? {
      SettleUncovers(w, a, w.sends[k]);
    } else {
      ApplyKeeps(w, a);
      assert SendInv(w, w.sends[k]) && w.store in w.storeCrash;
      RedatedCovers(w, Apply(w, a), w.sends[k]);
    }
  }

  /** Over every run in which the clock does not go back: a hand-over that the
      wait covers stops being covered exactly when a re-send of the intent, this
      one or a later one, is answered as if refused, the time it is put back to
      is before the hand-over, and that save reaches the file. Nothing else
      uncovers any. */
  lemma UncoversExactly(w: World, a: Action, k: nat)
    requires Reachable(w) && Enabled(w, a) && !Step(w, a).flags.turned && k < |w.sends| && Covered(w, w.sends[k])
    ensures !Covered(Step(w, a), w.sends[k]) <==> PutsBefore(w, a, w.sends[k])
  {
    ReachableWaits(w);
    ApplyUncovers(w, a, k);
    StepCovered(w, a, w.sends[k]);
  }

  lemma StepCovered(w: World, a: Action, s: Send)
    ensures Covered(Step(w, a), s) <==> Covered(Apply(w, a), s)
  {
  }

  lemma HandedIsCovered(w: World, id: string, again: bool, w': World)
    requires Pinned(w, id) && w'.storeCrash == w.storeCrash && w'.sends == HandedOver(w, id, again).sends
    ensures w'.sends != [] && Covered(w', w'.sends[|w'.sends| - 1])
  {
  }

  lemma HandOverIs(w: World, a: Action)
    requires Enabled(w, a) && (a.HandOver? || a.HandOverAgain?) && w.call.id in w.store
    ensures Step(w, a).storeCrash == w.storeCrash
    ensures Step(w, a).sends == HandedOver(w, w.call.id, a.HandOverAgain?).sends
  {
  }

  /** ... and every hand-over is covered when it is made. */
  lemma HandOverIsCovered(w: World, a: Action)
    requires Reachable(w) && Enabled(w, a) && (a.HandOver? || a.HandOverAgain?)
    ensures var w' := Step(w, a); w'.sends != [] && Covered(w', w'.sends[|w'.sends| - 1])
  {
    ReachableInv(w);
    HandOverIs(w, a);
    HandedIsCovered(w, w.call.id, a.HandOverAgain?, Step(w, a));
  }

  /** Abandon waits out its time after a hand-over that is covered. */
  lemma CoveredWaits(w: World, id: string, wait: nat, o: WriteOutcome, k: nat)
    requires Reachable(w) && Enabled(w, Abandon(id, wait, o)) && k < |w.sends| && w.sends[k].id == id &&
             Covered(w, w.sends[k])
    ensures w.clock - w.sends[k].at >= wait
  {
    ReachableInv(w);
    assert w.store in w.storeCrash;
  }
}
