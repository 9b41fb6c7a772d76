/** While Broadcast holds the lock nobody else can come to own an input of the
    bytes it sends, whatever happened in the run before. */
module WithdrawalSender {
  import opened AtomicFile
  import opened SpentSet
  import opened Broadcaster
  import opened Withdrawal
  import opened WithdrawalRecords
  import opened WithdrawalInputs
  import opened WithdrawalOwnership

  predicate InputsMine(w: World, id: string) {
    id in w.store && forall p :: p in w.store[id].inputs ==> Mine(w.spent, p, id)
  }

  ghost predicate SenderMine(w: World) {
    forall i :: IsSender(w.call, i) ==> InputsMine(w, i)
  }

  /** The sender's entries, as good as when the call reserved them. */
  predicate Holds(w: World, id: string, until: nat) {
    && id in w.store
    && forall p :: p in w.store[id].inputs && p !in w.confirmed ==>
         OwnedBy(w.spent, p, id) && (w.spent[p].kind.Reserved? ==> w.spent[p].kind.expiresAt >= until)
  }

  ghost predicate HoldsOnDisk(w: World, id: string) {
    && id in w.store
    && forall c: Entries, p :: c in w.spentCrash && p in w.store[id].inputs && p !in w.confirmed ==> OwnedBy(c, p, id)
  }

  // ----- Which steps a send is made of -----

  predicate WithinSend(a: Action) {
    a.Tick? || a.Submit? || a.Prune? || a.DropExpired? || a.ConfirmSpent? ||
    a.SaveAttempt? || a.HandOver? || a.Hear? || a.MarkInputs?
  }

  /** What begins or ends another transition leaves no sender. */
  lemma ElsewhereBegins(w: World, a: Action, i: string)
    requires Enabled(w, a) && (Builds(a) || Resends(a))
    ensures !IsSender(Apply(w, a).call, i)
  {
  }

  lemma ElsewhereConfirms(w: World, a: Action, i: string)
    requires Enabled(w, a) && Ends(a)
    ensures !IsSender(Apply(w, a).call, i)
  {
  }

  lemma ElsewhereEnds(w: World, a: Action, i: string)
    requires CallInv(w) && Enabled(w, a) &&
             (a.Release? || a.Forget? || a.Touch? || a.Settle? || a.PowerLoss? || a.Exit?)
    ensures !IsSender(Apply(w, a).call, i)
  {
  }

  lemma ElsewhereRepairs(w: World, a: Action, i: string)
    requires CallInv(w) && Enabled(w, a) && (Repairs(a) || a.DropAbandoned? || a.ReleaseOrphan?)
    ensures !IsSender(Apply(w, a).call, i)
  {
  }

  lemma ElsewhereRedrives(w: World, a: Action, i: string)
    requires Enabled(w, a) && (a.MarkHeld? || a.Renew?)
    ensures !IsSender(Apply(w, a).call, i)
  {
  }

  lemma SenderGoesOn(w: World, a: Action, i: string)
    requires CallInv(w) && Enabled(w, a) && WithinSend(a) && IsSender(Apply(w, a).call, i)
    ensures IsSender(w.call, i)
  {
  }

  lemma SenderStep(w: World, a: Action, i: string)
    requires CallInv(w) && Enabled(w, a) && IsSender(Apply(w, a).call, i)
    ensures (a.SendReserve? && a.id == i) || (WithinSend(a) && IsSender(w.call, i))
  {
    if Builds(a) || Resends(a) {
      ElsewhereBegins(w, a, i);
    } else if Ends(a) {
      ElsewhereConfirms(w, a, i);
    } else if a.Release? || a.Forget? || a.Touch? || a.Settle? || a.PowerLoss? || a.Exit? {
      ElsewhereEnds(w, a, i);
    } else if a.MarkHeld? || a.Renew? {
      ElsewhereRedrives(w, a, i);
    } else if Repairs(a) || a.DropAbandoned? || a.ReleaseOrphan? {
      ElsewhereRepairs(w, a, i);
    } else if WithinSend(a) {
      SenderGoesOn(w, a, i);
    }
  }

  /** Every step of a send but the mark only drops entries or flags them, and
      what it writes is what it leaves in memory. */
  ghost predicate Quiet(w: World, w': World) {
    && (forall i :: i in w.store ==> i in w'.store && w'.store[i].inputs == w.store[i].inputs)
    && w.confirmed <= w'.confirmed
    && (forall p :: p in w'.spent ==>
        p in w.spent && w'.spent[p].intent == w.spent[p].intent && w'.spent[p].kind == w.spent[p].kind)
    && (forall p :: p in w.spent && p !in w'.spent ==> p in w.confirmed || Expired(w.spent[p], w.clock))
    && (forall c: Entries :: c in w'.spentCrash ==> c in w.spentCrash || c == w'.spent)
  }

  lemma QuietOutside(w: World, a: Action)
    requires EntriesInv(w) && Enabled(w, a) && (a.Tick? || a.Submit? || a.Prune? || a.DropExpired? || a.ConfirmSpent?)
    ensures Quiet(w, Apply(w, a))
  {
  }

  lemma QuietAttempt(w: World, a: Action)
    requires Enabled(w, a) && a.SaveAttempt? && w.call.id in w.store
    ensures Quiet(w, Apply(w, a))
  {
  }

  lemma QuietExchange(w: World, a: Action)
    requires a.HandOver? || a.Hear?
    ensures Quiet(w, Apply(w, a))
  {
  }

  ghost predicate Sealed(w: World, w': World, i: string) {
    && w'.store == w.store && w'.confirmed == w.confirmed && i in w.store
    && (forall p :: p in w.store[i].inputs ==> SentBy(w'.spent, p, i))
    && (forall c: Entries :: c in w'.spentCrash ==> c in w.spentCrash || c == w'.spent)
  }

  /** The mark leaves every input the sender's own record of a send. */
  lemma MarkStep(w: World, a: Action, i: string)
    requires FileInv(w) && Enabled(w, a) && a.MarkInputs? && IsSender(w.call, i) && InputsMine(w, i)
    ensures Sealed(w, Apply(w, a), i)
  {
    assert i != "" by {
      assert w.store in w.storeCrash;
    }
    MarkSucceeds(w, i, w.store[i].inputs, MarkTxid(w.store[i], w.call.reply), a.o);
  }

  /** A reservation that succeeded leaves every input the sender's own. */
  lemma ReserveStep(w: World, a: Action)
    requires RecordInv(w) && EntriesInv(w) && Enabled(w, a) && a.SendReserve? && Apply(w, a).call == Reserving(a.id)
    ensures var w' := Apply(w, a);
            InputsMine(w', a.id) && Holds(w', a.id, w.clock + a.ttl) &&
            (!NothingToReserve(w, a.id, w.store[a.id].inputs) ==> HoldsOnDisk(w', a.id))
  {
    var inputs := w.store[a.id].inputs;
    assert a.id != "" by {
      assert w.store in w.storeCrash;
    }
    assert ReserveSucceeds(w, a.id, inputs, a.o);
    forall p | p in inputs
      ensures OwnedBy(Apply(w, a).spent, p, a.id)
      ensures Apply(w, a).spent[p].kind.Reserved? ==> Apply(w, a).spent[p].kind.expiresAt >= w.clock + a.ttl
    {
      assert p in ToReserve(w.spent, inputs, a.id) || SentBy(w.spent, p, a.id);
    }
  }

  /** A step within a send is quiet, or marks. */
  lemma WithinStep(w: World, a: Action, i: string)
    requires RecordInv(w) && EntriesInv(w) && Enabled(w, a) && WithinSend(a) && IsSender(w.call, i) && InputsMine(w, i)
    ensures Quiet(w, Apply(w, a)) || Sealed(w, Apply(w, a), i)
  {
    if a.MarkInputs? {
      MarkStep(w, a, i);
    } else if a.SaveAttempt? {
      QuietAttempt(w, a);
    } else if a.HandOver? || a.Hear? {
      QuietExchange(w, a);
    } else {
      QuietOutside(w, a);
    }
  }

  lemma StepMine(w: World, a: Action)
    requires Inv(w) && SenderMine(w) && Enabled(w, a)
    ensures SenderMine(Apply(w, a))
  {
    var w' := Apply(w, a);
    forall i | IsSender(w'.call, i) ensures InputsMine(w', i) {
      SenderStep(w, a, i);
      if a.SendReserve? {
        ReserveStep(w, a);
      } else {
        WithinStep(w, a, i);
      }
    }
  }

  lemma NextMine(w: World, w': World)
    requires Inv(w) && SenderMine(w) && Next(w, w')
    ensures SenderMine(w')
  {
    var a :| Enabled(w, a) && w' == Step(w, a);
    StepMine(w, a);
  }

  lemma RunNext(worlds: seq<World>, k: nat)
    requires Run(worlds) && k + 1 < |worlds|
    ensures Next(worlds[k], worlds[k + 1])
  {
    assert StepAt(worlds, k);
  }

  lemma {:induction false} RunMine(worlds: seq<World>, k: nat)
    requires Run(worlds) && k < |worlds|
    ensures Inv(worlds[k]) && SenderMine(worlds[k])
  {
    RunKeeps(worlds, k);
    if k > 0 {
      RunMine(worlds, k - 1);
      RunNext(worlds, k - 1);
      NextMine(worlds[k - 1], worlds[k]);
    }
  }

  /** Over every run: while a send is under way, up to the saving of its verdict,
      no other withdrawal owns an input's entry. */
  lemma NobodyElseOwns(w: World, id: string, p: Outpoint)
    requires Reachable(w) && IsSender(w.call, id) && p in Current(w, id).inputs
    ensures Mine(w.spent, p, id)
  {
    var worlds :| Run(worlds) && w in worlds;
    var k :| 0 <= k < |worlds| && worlds[k] == w;
    RunMine(worlds, k);
    assert InputsMine(w, id);
  }

  /** Over every run: marking the inputs of an answered send is never refused. */
  lemma AnsweredMarkSucceeds(w: World, o: WriteOutcome)
    requires Reachable(w) && w.call.Answered? && w.call.id in w.store
    ensures var w' := MarkedSpent(w, w.call.id, w.store[w.call.id].inputs, MarkTxid(w.store[w.call.id], w.call.reply),
                                  o);
            forall p :: p in w.store[w.call.id].inputs ==> SentBy(w'.spent, p, w.call.id)
    ensures CanMark(w.spent, w.store[w.call.id].inputs, MarkTxid(w.store[w.call.id], w.call.reply), w.call.id)
  {
    ReachableInv(w);
    var id := w.call.id;
    forall p | p in w.store[id].inputs ensures Mine(w.spent, p, id) {
      NobodyElseOwns(w, id, p);
    }
    assert id != "" by {
      assert w.store in w.storeCrash;
    }
    MarkSucceeds(w, id, w.store[id].inputs, MarkTxid(w.store[id], w.call.reply), o);
  }

  // ----- From the reservation to the hand-over -----

  lemma QuietHolds(w: World, w': World, i: string, until: nat)
    requires (Quiet(w, w') || Sealed(w, w', i)) && Holds(w, i, until) && w.clock <= until
    ensures Holds(w', i, until)
    ensures HoldsOnDisk(w, i) ==> HoldsOnDisk(w', i)
  {
  }

  lemma StepHolds(w: World, a: Action, i: string, until: nat)
    requires Inv(w) && SenderMine(w) && Enabled(w, a) && IsSender(w.call, i) && IsSender(Apply(w, a).call, i)
    requires Holds(w, i, until) && w.clock <= until
    ensures Holds(Apply(w, a), i, until)
    ensures HoldsOnDisk(w, i) ==> HoldsOnDisk(Apply(w, a), i)
  {
    SenderStep(w, a, i);
    WithinStep(w, a, i);
    QuietHolds(w, Apply(w, a), i, until);
  }

  lemma NextHolds(w: World, w': World, i: string, until: nat)
    requires Inv(w) && SenderMine(w) && Next(w, w') && IsSender(w.call, i) && IsSender(w'.call, i)
    requires Holds(w, i, until) && w.clock <= until
    ensures Holds(w', i, until)
    ensures HoldsOnDisk(w, i) ==> HoldsOnDisk(w', i)
  {
    var a :| Enabled(w, a) && w' == Step(w, a);
    StepHolds(w, a, i, until);
  }

  lemma FirstHolds(w: World, w': World, a: Action)
    requires Inv(w) && Enabled(w, a) && a.SendReserve? && w' == Step(w, a) && IsSender(w'.call, a.id)
    ensures Holds(w', a.id, w.clock + a.ttl)
    ensures !NothingToReserve(w, a.id, Current(w, a.id).inputs) ==> HoldsOnDisk(w', a.id)
  {
    ReserveStep(w, a);
  }

  /** The call goes on from after `k` up to `n`, and the clock stays within. */
  ghost predicate GoesOn(worlds: seq<World>, k: nat, n: nat, id: string, until: nat) {
    && k < n < |worlds|
    && forall m | k < m <= n :: IsSender(worlds[m].call, id) && worlds[m].clock <= until
  }

  lemma RunHoldsNext(worlds: seq<World>, m: nat, id: string, until: nat)
    requires Run(worlds) && m + 1 < |worlds| && worlds[m].clock <= until
    requires IsSender(worlds[m].call, id) && IsSender(worlds[m + 1].call, id) && Holds(worlds[m], id, until)
    ensures Holds(worlds[m + 1], id, until)
    ensures HoldsOnDisk(worlds[m], id) ==> HoldsOnDisk(worlds[m + 1], id)
  {
    RunMine(worlds, m);
    RunNext(worlds, m);
    NextHolds(worlds[m], worlds[m + 1], id, until);
  }

  lemma {:induction false} RunHolds(worlds: seq<World>, k: nat, n: nat, id: string, until: nat)
    requires Run(worlds) && GoesOn(worlds, k, n, id, until) && Holds(worlds[k + 1], id, until)
    ensures Holds(worlds[n], id, until)
    ensures HoldsOnDisk(worlds[k + 1], id) ==> HoldsOnDisk(worlds[n], id)
  {
    if n > k + 1 {
      RunHolds(worlds, k, n - 1, id, until);
      RunHoldsNext(worlds, n - 1, id, until);
    }
  }

  /** At every send, whatever the run before: from the reservation with which
      Broadcast begins to the hand-over, and on to the verdict, every input
      without a recorded confirmation has an entry, it is the sender's and it has
      not run out, for as long as the clock stays within the reservation; and
      where the reservation was written, so it is in every content of the file. */
  lemma SenderOwnsInputs(worlds: seq<World>, k: nat, n: nat, a: Action, p: Outpoint)
    requires Run(worlds) && k + 1 < |worlds| && a.SendReserve? && Enabled(worlds[k], a) &&
             worlds[k + 1] == Step(worlds[k], a)
    requires GoesOn(worlds, k, n, a.id, worlds[k].clock + a.ttl)
    requires p in Current(worlds[n], a.id).inputs && p !in worlds[n].confirmed
    ensures OwnedBy(worlds[n].spent, p, a.id) && !Expired(worlds[n].spent[p], worlds[n].clock)
    ensures !NothingToReserve(worlds[k], a.id, Current(worlds[k], a.id).inputs) ==>
              forall c: Entries :: c in worlds[n].spentCrash ==> OwnedBy(c, p, a.id)
  {
    var w, w', until := worlds[k], worlds[k + 1], worlds[k].clock + a.ttl;
    RunKeeps(worlds, k);
    FirstHolds(w, w', a);
    RunHolds(worlds, k, n, a.id, until);
    HeldNow(worlds[n], a.id, until, p);
  }

  lemma HeldNow(w: World, id: string, until: nat, p: Outpoint)
    requires Holds(w, id, until) && w.clock <= until && p in w.store[id].inputs && p !in w.confirmed
    ensures OwnedBy(w.spent, p, id) && !Expired(w.spent[p], w.clock)
    ensures HoldsOnDisk(w, id) ==> forall c: Entries :: c in w.spentCrash ==> OwnedBy(c, p, id)
  {
  }
}
