/** How a Broadcast intent can lose its record of a send on an input for which no
    confirmation was recorded, while the process runs. */
module WithdrawalTakeover {
  import opened AtomicFile
  import opened SpentSet
  import opened Broadcaster
  import opened Withdrawal
  import opened WithdrawalRecords
  import opened WithdrawalInputs
  import opened WithdrawalOwnership
  import opened WithdrawalSender

  /** A mark made from another intent's record goes through over this input. */
  predicate MarkedOver(w: World, a: Action, i: string, p: Outpoint) {
    && (a.MarkHeld? || a.Remark?) && a.id != i && p in Current(w, a.id).inputs
    && CanMark(w.spent, Current(w, a.id).inputs, if a.MarkHeld? then HoldTxid(Current(w, a.id)) else
               Current(w, a.id).txid, a.id)
  }

  predicate Own(w: World, i: string, p: Outpoint) {
    InState(w, i, Broadcast) && p in w.store[i].inputs && p !in w.confirmed && SentBy(w.spent, p, i)
  }

  lemma OutsideKeepsOwn(w: World, a: Action, i: string, p: Outpoint)
    requires EntriesInv(w) && Enabled(w, a) && Own(w, i, p)
    requires a.Tick? || a.Submit? || a.Prune? || a.DropExpired? || a.ConfirmSpent?
    ensures SentBy(Apply(w, a).spent, p, i)
  {
    assert FlagsOk(w, w.spent);
  }

  /** What writes only the intents file, or nothing. */
  predicate LeavesSpent(a: Action) {
    SendLeaves(a) || BuildLeaves(a) || Resends(a) || EndLeaves(a)
  }

  predicate SendLeaves(a: Action) {
    a.Touch? || a.SaveAttempt? || a.HandOver? || a.Hear? || a.Settle?
  }

  predicate BuildLeaves(a: Action) {
    a.BuildSave? || a.BuildAbort? || a.BuildFail? || a.Defer?
  }

  predicate EndLeaves(a: Action) {
    a.SaveConfirmed? || a.SaveDepth? || a.Abandon? || a.RemarksDone? || a.RepairDone?
  }

  lemma SendLeavesSpent(w: World, a: Action)
    requires SendLeaves(a)
    ensures Apply(w, a).spent == w.spent
  {
  }

  lemma BuildLeavesSpent(w: World, a: Action)
    requires BuildLeaves(a)
    ensures Apply(w, a).spent == w.spent
  {
  }

  lemma ResendLeavesSpent(w: World, a: Action)
    requires Resends(a)
    ensures Apply(w, a).spent == w.spent
  {
  }

  lemma EndLeavesSpent(w: World, a: Action)
    requires EndLeaves(a)
    ensures Apply(w, a).spent == w.spent
  {
  }

  lemma SavesKeepOwn(w: World, a: Action, i: string, p: Outpoint)
    requires Own(w, i, p) && LeavesSpent(a)
    ensures SentBy(Apply(w, a).spent, p, i)
  {
    if SendLeaves(a) {
      SendLeavesSpent(w, a);
    } else if BuildLeaves(a) {
      BuildLeavesSpent(w, a);
    } else if Resends(a) {
      ResendLeavesSpent(w, a);
    } else {
      EndLeavesSpent(w, a);
    }
  }

  lemma ReservesKeepOwn(w: World, a: Action, i: string, p: Outpoint)
    requires Enabled(w, a) && Own(w, i, p) && (a.BuildReserve? || a.SendReserve? || a.Renew?)
    ensures SentBy(Apply(w, a).spent, p, i)
  {
  }

  lemma ReleasesKeepOwn(w: World, a: Action, i: string, p: Outpoint)
    requires Own(w, i, p) && (a.Release? || a.ReleaseOrphan? || a.ConfirmInputs?)
    ensures SentBy(Apply(w, a).spent, p, i)
  {
  }

  lemma ForgetsKeepOwn(w: World, a: Action, i: string, p: Outpoint)
    requires CallInv(w) && Enabled(w, a) && Own(w, i, p) && (a.Forget? || a.DropAbandoned?)
    ensures SentBy(Apply(w, a).spent, p, i)
  {
  }

  /** The sender's mark finds no entry of another withdrawal on its inputs. */
  lemma SendKeepsOwn(w: World, a: Action, i: string, p: Outpoint)
    requires RecordInv(w) && SenderMine(w) && Enabled(w, a) && Own(w, i, p) && a.MarkInputs?
    ensures SentBy(Apply(w, a).spent, p, i)
  {
    assert IsSender(w.call, w.call.id) && InputsMine(w, w.call.id);
  }

  lemma RecoverTakes(w: World, a: Action, i: string, p: Outpoint)
    requires Enabled(w, a) && Own(w, i, p) && (a.MarkHeld? || a.Remark?)
    ensures !SentBy(Apply(w, a).spent, p, i) <==> MarkedOver(w, a, i, p)
  {
  }

  lemma ReachableMine(w: World)
    requires Reachable(w)
    ensures Inv(w) && SenderMine(w)
  {
    var worlds :| Run(worlds) && w in worlds;
    var k :| 0 <= k < |worlds| && worlds[k] == w;
    RunMine(worlds, k);
  }

  predicate Drops(a: Action) {
    a.Release? || a.ReleaseOrphan? || a.ConfirmInputs? || a.Forget? || a.DropAbandoned?
  }

  lemma DropsKeepOwn(w: World, a: Action, i: string, p: Outpoint)
    requires CallInv(w) && Enabled(w, a) && Own(w, i, p) && Drops(a)
    ensures SentBy(Apply(w, a).spent, p, i)
  {
    if a.Forget? || a.DropAbandoned? {
      ForgetsKeepOwn(w, a, i, p);
    } else {
      ReleasesKeepOwn(w, a, i, p);
    }
  }

  /** Nothing but a mark that Recover makes takes an entry from its owner. */
  lemma OthersKeepOwn(w: World, a: Action, i: string, p: Outpoint)
    requires Inv(w) && SenderMine(w) && Enabled(w, a) && Own(w, i, p)
    requires !a.PowerLoss? && !a.Exit? && !a.MarkHeld? && !a.Remark?
    ensures SentBy(Apply(w, a).spent, p, i)
  {
    if LeavesSpent(a) {
      SavesKeepOwn(w, a, i, p);
    } else if a.BuildReserve? || a.SendReserve? || a.Renew? {
      ReservesKeepOwn(w, a, i, p);
    } else if a.MarkInputs? {
      SendKeepsOwn(w, a, i, p);
    } else if Drops(a) {
      DropsKeepOwn(w, a, i, p);
    } else {
      OutsideKeepsOwn(w, a, i, p);
    }
  }

  lemma MarkTakesOver(w: World, a: Action, i: string, p: Outpoint)
    requires EntriesInv(w) && Own(w, i, p) && Enabled(w, a) && MarkedOver(w, a, i, p) && w.phase == Running
    ensures Overtakes(w, a)
  {
    assert FlagsOk(w, w.spent);
    assert SentOver(w, a.id, p);
  }

  lemma ApplyTakes(w: World, a: Action, i: string, p: Outpoint)
    requires Inv(w) && SenderMine(w) && Enabled(w, a) && !a.PowerLoss? && !a.Exit? && Own(w, i, p)
    ensures !SentBy(Apply(w, a).spent, p, i) <==> MarkedOver(w, a, i, p)
    ensures MarkedOver(w, a, i, p) && w.phase == Running ==> Overtakes(w, a)
  {
    if a.MarkHeld? || a.Remark? {
      RecoverTakes(w, a, i, p);
      if MarkedOver(w, a, i, p) && w.phase == Running {
        MarkTakesOver(w, a, i, p);
      }
    } else {
      OthersKeepOwn(w, a, i, p);
    }
  }

  /** Over every run, as long as the process goes on: a Broadcast intent loses its
      own record of a send on an input without a recorded confirmation exactly
      when Recover marks that input for another intent, held or Broadcast, and
      the mark goes through; and once startup is over that is the mark of a held
      one, which takes the input over. */
  lemma LosesEntryExactly(w: World, a: Action, i: string, p: Outpoint)
    requires Reachable(w) && Enabled(w, a) && !a.PowerLoss? && !a.Exit?
    requires InState(w, i, Broadcast) && p in w.store[i].inputs && p !in w.confirmed && SentBy(w.spent, p, i)
    ensures !SentBy(Step(w, a).spent, p, i) <==> MarkedOver(w, a, i, p)
    ensures MarkedOver(w, a, i, p) && w.phase == Running ==> Overtakes(w, a)
  {
    ReachableMine(w);
    ApplyTakes(w, a, i, p);
    StepSpent(w, a);
  }

  lemma StepSpent(w: World, a: Action)
    ensures Step(w, a).spent == Apply(w, a).spent
  {
  }
}
