/** The hold after a rejection is cautious: it does not take an attempt that may
    be out, only one that was counted. */
module WithdrawalHold {
  import opened AtomicFile
  import opened SpentSet
  import opened Broadcaster
  import opened Withdrawal
  import opened WithdrawalRecords
  import opened WithdrawalOwnership
  import opened WithdrawalSteps
  import opened WithdrawalRuns

  // ----- What a rejection holds for -----

  /** A build is put off, or an attempt recorded, and the record reaches the file. */
  predicate Counts(w: World, a: Action, id: string) {
    || (a.Defer? && a.id == id && !a.o.NotWritten?)
    || (a.SaveAttempt? && w.call.Reserving? && w.call.id == id && !a.o.NotWritten?)
  }

  /** A refusal or a rejection of the one attempt that counted reaches the file. */
  predicate Clears(w: World, a: Action, id: string) {
    a.Settle? && !a.o.NotWritten? && (w.call.Answered? || w.call.Marked?) && w.call.id == id &&
    !w.call.prior && (w.call.reply == Refused || w.call.reply == Rejected)
  }

  /** What this action may do to the mark a later send finds in the record. */
  ghost predicate MovesExactly(w: World, a: Action, id: string) {
    && id in w.store && id in Apply(w, a).store
    && (!Prior(w.store[id]) ==> (Prior(Apply(w, a).store[id]) <==> Counts(w, a, id)))
    && (Prior(w.store[id]) ==> (!Prior(Apply(w, a).store[id]) <==> Clears(w, a, id)))
  }

  lemma SavedMoves(w: World, id: string, r: Intent, o: WriteOutcome, call: Call, i: string)
    requires i in w.store
    ensures i in Saved(w, id, r, o).(call := call).store
    ensures Saved(w, id, r, o).(call := call).store[i] == if i == id && !o.NotWritten? then r else w.store[i]
  {
  }

  lemma DeferMoves(w: World, a: Action, id: string)
    requires RecordInv(w) && Enabled(w, a) && a.Defer? && id in w.store
    ensures MovesExactly(w, a, id)
  {
    SavedMoves(w, a.id, DeferredRecord(w.store[a.id], w.clock), a.o, w.call, id);
    assert w.store in w.storeCrash && RecordOk(w, a.id, w.store[a.id]);
    assert Apply(w, a) == Saved(w, a.id, DeferredRecord(w.store[a.id], w.clock), a.o).(call := w.call);
  }

  lemma AttemptMoves(w: World, a: Action, id: string)
    requires RecordInv(w) && Enabled(w, a) && a.SaveAttempt? && id in w.store
    ensures MovesExactly(w, a, id)
  {
    var r := w.store[w.call.id];
    var call := if a.o.Durable? then Ready(w.call.id, Prior(r)) else Idle;
    SavedMoves(w, w.call.id, AttemptRecord(r, w.clock), a.o, call, id);
    assert Apply(w, a) == Saved(w, w.call.id, AttemptRecord(r, w.clock), a.o).(call := call);
  }

  /** The verdict on an attempt that was recorded. */
  lemma VerdictMoves(r: Intent, prior: bool, reply: Reply, now: nat)
    requires r.maybeRelayed && r.sentAt > 0
    ensures Prior(r) && (!Prior(SettledRecord(r, prior, reply, now)) <==>
                         !prior && (reply == Refused || reply == Rejected))
  {
  }

  lemma SettleMoves(w: World, a: Action, id: string)
    requires RecordInv(w) && Enabled(w, a) && a.Settle? && id in w.store
    ensures MovesExactly(w, a, id)
  {
    var c, prior, reply := w.call.id, w.call.prior, w.call.reply;
    assert Sending(w, c);
    SettleSaves(w, a, c, prior, reply, id);
  }

  lemma SettleSaves(w: World, a: Action, c: string, prior: bool, reply: Reply, id: string)
    requires a.Settle? && c in w.store && (w.call == Answered(c, prior, reply) || w.call == Marked(c, prior, reply))
    requires w.store[c].maybeRelayed && w.store[c].sentAt > 0 && id in w.store
    ensures MovesExactly(w, a, id)
  {
    VerdictMoves(w.store[c], prior, reply, w.clock);
    SettleIs(w, a, c, prior, reply);
    SavedMoves(w, c, SettledRecord(w.store[c], prior, reply, w.clock), a.o,
               if reply.Rejected? && !prior && a.o.Durable? then ReleaseDue(c) else Idle, id);
  }

  lemma SettleIs(w: World, a: Action, id: string, prior: bool, reply: Reply)
    requires a.Settle? && id in w.store && (w.call == Answered(id, prior, reply) || w.call == Marked(id, prior, reply))
    ensures Apply(w, a) == Saved(w, id, SettledRecord(w.store[id], prior, reply, w.clock), a.o)
                           .(call := if reply.Rejected? && !prior && a.o.Durable? then ReleaseDue(id) else Idle)
  {
  }

  /** Any other save keeps the mark of the record it is made from. */
  lemma OtherSaves(w: World, a: Action, c: string, r: Intent, o: WriteOutcome, call: Call, id: string)
    requires id in w.store && c in w.store && !Counts(w, a, id) && !Clears(w, a, id)
    requires Prior(r) == Prior(w.store[c]) && Apply(w, a) == Saved(w, c, r, o).(call := call)
    ensures MovesExactly(w, a, id)
  {
    SavedMoves(w, c, r, o, call, id);
  }

  lemma SubmitMoves(w: World, a: Action, id: string)
    requires Enabled(w, a) && a.Submit? && id in w.store
    ensures MovesExactly(w, a, id)
  {
    SavedMoves(w, a.id, NewIntent(a.address, a.amount, a.feeRate, w.clock), a.o, w.call, id);
  }

  lemma BuildSaveMoves(w: World, a: Action, id: string)
    requires RecordInv(w) && Enabled(w, a) && a.BuildSave? && id in w.store
    ensures MovesExactly(w, a, id)
  {
    OtherSaves(w, a, w.call.id, BuiltRecord(w.store[w.call.id], w.call.inputs, a.rawHex, a.txid, w.clock), a.o,
               if a.o.NotWritten? then ReleaseDue(w.call.id) else Idle, id);
  }

  lemma BuildFailMoves(w: World, a: Action, id: string)
    requires Enabled(w, a) && a.BuildFail? && id in w.store
    ensures MovesExactly(w, a, id)
  {
    OtherSaves(w, a, a.id, UnbuildableRecord(w.store[a.id], w.clock), a.o, if a.o.Durable? then ReleaseDue(a.id) else
               Idle, id);
  }

  /** A record that was sent is marked for good. */
  lemma SentHasPrior(w: World, id: string)
    requires FileInv(w) && InState(w, id, Broadcast)
    ensures w.store[id].maybeRelayed
  {
    assert w.store in w.storeCrash && RecordOk(w, id, w.store[id]);
  }

  lemma SaveResendMoves(w: World, a: Action, id: string)
    requires RecordInv(w) && Enabled(w, a) && a.SaveResend? && id in w.store
    ensures MovesExactly(w, a, id)
  {
    SentHasPrior(w, a.id);
    OtherSaves(w, a, a.id, ResendRecord(w.store[a.id], w.clock), a.o,
               if a.o.Durable? then Resending(a.id, LastSent(w.store[a.id])) else Idle, id);
  }

  lemma SettleAgainMoves(w: World, a: Action, id: string)
    requires RecordInv(w) && Enabled(w, a) && a.SettleAgain? && id in w.store
    ensures MovesExactly(w, a, id)
  {
    var c := w.call.id;
    SentHasPrior(w, c);
    OtherSaves(w, a, c, ResentRecord(w.store[c], w.call.sentBefore, w.call.out, w.clock), a.o, Idle, id);
  }

  lemma TouchMoves(w: World, a: Action, id: string)
    requires Enabled(w, a) && a.Touch? && id in w.store
    ensures MovesExactly(w, a, id)
  {
    OtherSaves(w, a, a.id, w.store[a.id].(updatedAt := w.clock), a.o, w.call, id);
  }

  lemma DepthMoves(w: World, a: Action, id: string)
    requires Enabled(w, a) && a.SaveDepth? && id in w.store
    ensures MovesExactly(w, a, id)
  {
    OtherSaves(w, a, a.id, w.store[a.id].(confirmations := a.depth, updatedAt := w.clock), a.o, w.call, id);
  }

  lemma ConfirmMoves(w: World, a: Action, id: string)
    requires RecordInv(w) && Enabled(w, a) && a.SaveConfirmed? && id in w.store
    ensures MovesExactly(w, a, id)
  {
    var c := w.call.id;
    OtherSaves(w, a, c, w.store[c].(state := Confirmed, confirmations := w.call.depth, updatedAt := w.clock), a.o,
               Idle, id);
  }

  lemma AbandonMoves(w: World, a: Action, id: string)
    requires Enabled(w, a) && a.Abandon? && id in w.store
    ensures MovesExactly(w, a, id)
  {
    OtherSaves(w, a, a.id, AbandonedRecord(w.store[a.id], w.clock), a.o, if a.o.Durable? then ForgetDue(a.id) else
               Idle, id);
  }

  predicate SavesRecord(a: Action) {
    a.Submit? || a.Defer? || a.SaveAttempt? || a.Settle? || a.BuildSave? || a.BuildFail? || a.SaveResend? ||
        a.SettleAgain? ||
    a.Touch? || a.SaveDepth? || a.SaveConfirmed? || a.Abandon?
  }

  lemma EarlySaveMoves(w: World, a: Action, id: string)
    requires RecordInv(w) && Enabled(w, a) && id in w.store
    requires a.Submit? || a.BuildSave? || a.BuildFail? || a.Touch?
    ensures MovesExactly(w, a, id)
  {
    if a.Submit? {
      SubmitMoves(w, a, id);
    } else if a.BuildSave? {
      BuildSaveMoves(w, a, id);
    } else if a.BuildFail? {
      BuildFailMoves(w, a, id);
    } else {
      TouchMoves(w, a, id);
    }
  }

  lemma LateSaveMoves(w: World, a: Action, id: string)
    requires RecordInv(w) && Enabled(w, a) && id in w.store
    requires a.SaveResend? || a.SettleAgain? || a.SaveDepth? || a.SaveConfirmed? || a.Abandon?
    ensures MovesExactly(w, a, id)
  {
    if a.SaveResend? {
      SaveResendMoves(w, a, id);
    } else if a.SettleAgain? {
      SettleAgainMoves(w, a, id);
    } else if a.SaveDepth? {
      DepthMoves(w, a, id);
    } else if a.SaveConfirmed? {
      ConfirmMoves(w, a, id);
    } else {
      AbandonMoves(w, a, id);
    }
  }

  lemma RestMoves(w: World, a: Action, id: string)
    requires Enabled(w, a) && !SavesRecord(a) && !a.PowerLoss? && id in w.store
    ensures MovesExactly(w, a, id)
  {
    if a.MarkHeld? || a.Renew? {
      RedriveStays(w, a);
    } else if RecoverAction(a) {
      RepairStays(w, a);
    } else if a.BuildReserve? || a.BuildAbort? || a.SendReserve? || a.MarkInputs? {
      ReserveStays(w, a);
    } else if CallAction(a) {
      ExchangeStays(w, a);
    } else {
      OutsideStays(w, a);
    }
  }

  predicate RecoverAction(a: Action) {
    Repairs(a) || a.DropAbandoned? || a.ReleaseOrphan? || a.MarkHeld? || a.Renew?
  }

  predicate CallAction(a: Action) {
    a.BuildReserve? || a.BuildAbort? || a.SendReserve? || a.HandOver? || a.Hear? || a.MarkInputs? ||
    a.HandOverAgain? || a.HearAgain?
  }

  lemma RepairStays(w: World, a: Action)
    requires Repairs(a) || a.DropAbandoned? || a.ReleaseOrphan?
    ensures Apply(w, a).store == w.store
  {
  }

  lemma RedriveStays(w: World, a: Action)
    requires a.MarkHeld? || a.Renew?
    ensures Apply(w, a).store == w.store
  {
  }

  lemma ReserveStays(w: World, a: Action)
    requires a.BuildReserve? || a.BuildAbort? || a.SendReserve? || a.MarkInputs?
    ensures Apply(w, a).store == w.store
  {
  }

  lemma ExchangeStays(w: World, a: Action)
    requires a.HandOver? || a.Hear? || a.HandOverAgain? || a.HearAgain?
    ensures Apply(w, a).store == w.store
  {
  }

  lemma OutsideStays(w: World, a: Action)
    requires !SavesRecord(a) && !RecoverAction(a) && !CallAction(a) && !a.PowerLoss?
    ensures Apply(w, a).store == w.store
  {
  }

  lemma ApplyMoves(w: World, a: Action, id: string)
    requires RecordInv(w) && Enabled(w, a) && !a.PowerLoss? && id in w.store
    ensures MovesExactly(w, a, id)
  {
    if a.Defer? {
      DeferMoves(w, a, id);
    } else if a.SaveAttempt? {
      AttemptMoves(w, a, id);
    } else if a.Settle? {
      SettleMoves(w, a, id);
    } else if a.Submit? || a.BuildSave? || a.BuildFail? || a.Touch? {
      EarlySaveMoves(w, a, id);
    } else if SavesRecord(a) {
      LateSaveMoves(w, a, id);
    } else {
      RestMoves(w, a, id);
    }
  }

  /** Over every run, exactly when a rejection will find a prior attempt: the mark
      is set by nothing but a build put off or an attempt recorded, in the file,
      whether or not its bytes were ever handed over; and it is cleared by
      nothing but the refusal or rejection, in the file, of an attempt that had
      no prior one itself. A power loss brings back the mark of the record it
      leaves. */
  lemma PriorMovesExactly(w: World, a: Action, id: string)
    requires Reachable(w) && Enabled(w, a) && !a.PowerLoss? && id in w.store
    ensures id in Step(w, a).store
    ensures !Prior(w.store[id]) ==> (Prior(Step(w, a).store[id]) <==> Counts(w, a, id))
    ensures Prior(w.store[id]) ==> (!Prior(Step(w, a).store[id]) <==> Clears(w, a, id))
  {
    ReachableInv(w);
    ApplyMoves(w, a, id);
    StepStore(w, a);
  }

  lemma StepStore(w: World, a: Action)
    ensures Step(w, a).store == Apply(w, a).store
  {
  }

  /** A run that holds an intent though nothing of it was ever out: a build that
      was put off counts as an attempt with no time of sending, so the first
      send's rejection finds a prior one. The other direction is
      RejectionAfterOutHolds. */
  lemma HeldWithNothingOut() returns (w: World)
    ensures Reachable(w) && InState(w, "a", Built) && Held(w.store["a"])
    ensures forall k | 0 <= k < |w.sends| :: !MayBeOut(w.sends[k])
  {
    InitReachable();
    var w1 := NewSigned(Init(), "a", "txid", true);
    w := SentRejected(w1, "a");
    LeadsOn(Init(), w1, w);
    LeadsReaches(Init(), w);
    assert Classify(REJECTION) == Rejected;
  }
}
