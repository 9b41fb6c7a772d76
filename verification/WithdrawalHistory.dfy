/** Where the records come from: over every run, what is on disk and what is
    handed over is what was submitted, reserved, signed and heard, unaltered. */
module WithdrawalHistory {
  import opened AtomicFile
  import opened SpentSet
  import opened Broadcaster
  import opened Withdrawal
  import opened WithdrawalRecords

  // ----- One step -----

  predicate Blank(r: Intent) {
    r.rawHex == "" && r.txid == "" && r.inputs == []
  }

  predicate SameTerms(a: Intent, b: Intent) {
    a.address == b.address && a.amount == b.amount && a.feeRate == b.feeRate
  }

  predicate SameBytes(a: Intent, b: Intent) {
    && a.rawHex == b.rawHex && a.txid == b.txid && a.inputs == b.inputs
    && (a.state == Created <==> b.state == Created) && (a.state == Failed ==> b.state == Failed)
  }

  predicate Submits(a: Action, id: string, r: Intent) {
    a.Submit? && a.id == id && a.address == r.address && a.amount == r.amount && a.feeRate == r.feeRate
  }

  predicate Signs(w: World, a: Action, id: string, r: Intent) {
    a.BuildSave? && w.call == Building(id, r.inputs) && a.rawHex == r.rawHex && a.txid == r.txid
  }

  /** Failed by a verdict on bytes it has. */
  predicate Condemned(r: Intent) {
    r.state == Failed && r.abandonedAt == 0 && !Blank(r)
  }

  /** `b` says no more of the node than `a`. */
  predicate NoNews(a: Intent, b: Intent) {
    && (b.state in {Broadcast, Confirmed} ==> a.state in {Broadcast, Confirmed})
    && (b.hold ==> a.hold) && (Condemned(b) ==> Condemned(a))
    && (b.nodeTxid != "" ==> a.nodeTxid == b.nodeTxid)
  }

  /** `b` says what `a` says and what this answer adds. */
  predicate Heeds(reply: Reply, a: Intent, b: Intent) {
    && (b.state in {Broadcast, Confirmed} ==> a.state in {Broadcast, Confirmed} || reply.Accepted?)
    && (b.hold || Condemned(b) ==> a.hold || Condemned(a) || reply.Rejected?)
    && (b.nodeTxid != "" ==>
          || a.nodeTxid == b.nodeTxid
          || (reply.Mismatch? && b.nodeTxid == if reply.got == "" then "unknown" else reply.got))
  }

  predicate SettlesWith(w: World, a: Action, id: string, r: Intent, r': Intent) {
    a.Settle? && (w.call.Answered? || w.call.Marked?) && w.call.id == id && Heeds(w.call.reply, r, r')
  }

  /** A record that replaces another: the terms are kept, and so are the bytes,
      unless they are the first, as signed, or the build has failed for good. */
  predicate Continues(w: World, a: Action, id: string, r: Intent, r': Intent) {
    && SameTerms(r, r') && (NoNews(r, r') || SettlesWith(w, a, id, r, r'))
    && (|| SameBytes(r, r')
        || (r.state == Created && r'.state == Built && Signs(w, a, id, r'))
        || (r.state == Created && r'.state == Failed && Blank(r')))
  }

  predicate IsNew(r: Intent) {
    r.state == Created && Blank(r) && !r.hold && r.nodeTxid == ""
  }

  ghost predicate Comes(w: World, a: Action, id: string, r': Intent) {
    || (Submits(a, id, r') && IsNew(r'))
    || exists f: Intents :: f in w.storeCrash && id in f && Continues(w, a, id, f[id], r')
  }

  ghost predicate Traced(w: World, a: Action) {
    forall f: Intents, id :: f in Apply(w, a).storeCrash && id in f ==> Comes(w, a, id, f[id])
  }

  lemma SameComes(w: World, a: Action, f: Intents, id: string)
    requires f in w.storeCrash && id in f
    ensures Comes(w, a, id, f[id])
  {
    assert Continues(w, a, id, f[id], f[id]);
  }

  lemma NoWriteTraced(w: World, a: Action)
    requires Apply(w, a).storeCrash <= w.storeCrash
    ensures Traced(w, a)
  {
    forall f: Intents, id | f in Apply(w, a).storeCrash && id in f ensures Comes(w, a, id, f[id]) {
      SameComes(w, a, f, id);
    }
  }

  lemma SavedTraced(w: World, a: Action, id: string, r: Intent, o: WriteOutcome)
    requires w.store in w.storeCrash && Apply(w, a).storeCrash == Saved(w, id, r, o).storeCrash
    requires (id in w.store && Continues(w, a, id, w.store[id], r)) || (Submits(a, id, r) && IsNew(r))
    ensures Traced(w, a)
  {
    forall f: Intents, i | f in Apply(w, a).storeCrash && i in f ensures Comes(w, a, i, f[i]) {
      if f in w.storeCrash {
        SameComes(w, a, f, i);
      } else if i != id {
        SameComes(w, a, w.store, i);
      } else {
        assert f == w.store[id := r];
      }
    }
  }

  lemma StepTraced(w: World, a: Action)
    requires RecordInv(w) && Enabled(w, a)
    ensures Traced(w, a)
  {
    if Quiet(a) {
      QuietSame(w, a);
      NoWriteTraced(w, a);
    } else if SpentOnly(a) {
      SpentOnlySame(w, a);
      NoWriteTraced(w, a);
    } else if a.PowerLoss? || a.Exit? || a.BuildAbort? || a.HandOver? || a.Hear? || a.HandOverAgain? || a.HearAgain? ||
        a.RemarksDone? || a.RepairDone? {
      NoWriteTraced(w, a);
    } else if a.Submit? || a.BuildSave? || a.BuildFail? || a.Defer? {
      BuildTraced(w, a);
    } else if a.Touch? || a.SaveAttempt? || a.Settle? {
      SendTraced(w, a);
    } else if a.SaveResend? || a.SettleAgain? {
      ResendTraced(w, a);
    } else {
      EndTraced(w, a);
    }
  }

  lemma BuildTraced(w: World, a: Action)
    requires RecordInv(w) && Enabled(w, a) && (a.Submit? || a.BuildSave? || a.BuildFail? || a.Defer?)
    ensures Traced(w, a)
  {
    match a
    case Submit(id, address, amount, feeRate, o) =>
      SavedTraced(w, a, id, NewIntent(address, amount, feeRate, w.clock), o);
    case BuildSave(_, _, _) => SignTraced(w, a);
    case BuildFail(id, o) => SavedTraced(w, a, id, UnbuildableRecord(w.store[id], w.clock), o);
    case Defer(id, o) => SavedTraced(w, a, id, DeferredRecord(w.store[id], w.clock), o);
  }

  lemma SignTraced(w: World, a: Action)
    requires RecordInv(w) && w.call.Building? && a.BuildSave?
    ensures Traced(w, a)
  {
    SavedTraced(w, a, w.call.id, BuiltRecord(w.store[w.call.id], w.call.inputs, a.rawHex, a.txid, w.clock), a.o);
  }

  lemma SendTraced(w: World, a: Action)
    requires RecordInv(w) && Enabled(w, a) && (a.Touch? || a.SaveAttempt? || a.Settle?)
    ensures Traced(w, a)
  {
    if a.Touch? {
      SavedTraced(w, a, a.id, w.store[a.id].(updatedAt := w.clock), a.o);
    } else if a.SaveAttempt? {
      AttemptTraced(w, a);
    } else {
      SettleTraced(w, a);
    }
  }

  lemma AttemptTraced(w: World, a: Action)
    requires RecordInv(w) && w.call.Reserving? && a.SaveAttempt?
    ensures Traced(w, a)
  {
    SavedTraced(w, a, w.call.id, AttemptRecord(w.store[w.call.id], w.clock), a.o);
  }

  lemma SettleTraced(w: World, a: Action)
    requires RecordInv(w) && Enabled(w, a) && a.Settle?
    ensures Traced(w, a)
  {
    SavedTraced(w, a, w.call.id, SettledRecord(w.store[w.call.id], w.call.prior, w.call.reply, w.clock), a.o);
  }

  lemma ResendTraced(w: World, a: Action)
    requires RecordInv(w) && Enabled(w, a) && (a.SaveResend? || a.SettleAgain?)
    ensures Traced(w, a)
  {
    match a
    case SaveResend(id, o) => SavedTraced(w, a, id, ResendRecord(w.store[id], w.clock), o);
    case SettleAgain(o) => SettleAgainTraced(w, a);
  }

  lemma SettleAgainTraced(w: World, a: Action)
    requires RecordInv(w) && w.call.Reanswered? && a.SettleAgain?
    ensures Traced(w, a)
  {
    SavedTraced(w, a, w.call.id, ResentRecord(w.store[w.call.id], w.call.sentBefore, w.call.out, w.clock), a.o);
  }

  lemma EndTraced(w: World, a: Action)
    requires RecordInv(w) && Enabled(w, a) && (a.SaveConfirmed? || a.SaveDepth? || a.Abandon?)
    ensures Traced(w, a)
  {
    if a.SaveConfirmed? {
      ConfirmTraced(w, a);
    } else if a.SaveDepth? {
      SavedTraced(w, a, a.id, w.store[a.id].(confirmations := a.depth, updatedAt := w.clock), a.o);
    } else {
      AbandonTraced(w, a);
    }
  }

  lemma AbandonTraced(w: World, a: Action)
    requires RecordInv(w) && Enabled(w, a) && a.Abandon?
    ensures Traced(w, a)
  {
    SavedTraced(w, a, a.id, AbandonedRecord(w.store[a.id], w.clock), a.o);
  }

  lemma ConfirmTraced(w: World, a: Action)
    requires RecordInv(w) && w.call.Confirming? && a.SaveConfirmed?
    ensures Traced(w, a)
  {
    var id, depth := w.call.id, w.call.depth;
    SaveConfirmedIs(w, id, depth, a.o);
    SavedTraced(w, a, id, w.store[id].(state := Confirmed, confirmations := depth, updatedAt := w.clock), a.o);
  }

  // ----- Every run -----

  ghost predicate TakesStep(worlds: seq<World>, k: nat, a: Action) {
    k + 1 < |worlds| && Enabled(worlds[k], a) && worlds[k + 1] == Step(worlds[k], a)
  }

  /** The `k`th step of the run submits `id` on these terms. */
  ghost predicate SubmittedAt(worlds: seq<World>, k: nat, id: string, address: string, amount: int, feeRate: int) {
    exists o :: TakesStep(worlds, k, Submit(id, address, amount, feeRate, o))
  }

  /** The `k`th step reserves these inputs for a build of `id`. */
  ghost predicate ReservedAt(worlds: seq<World>, k: nat, id: string, inputs: seq<Outpoint>) {
    exists ttl: nat, o :: TakesStep(worlds, k, BuildReserve(id, inputs, ttl, o))
  }

  /** The `k`th step saves what the signer gave for `id`, over these inputs. */
  ghost predicate SignedAt(worlds: seq<World>, k: nat, id: string, inputs: seq<Outpoint>, rawHex: string,
                           txid: string)
  {
    && k < |worlds| && worlds[k].call == Building(id, inputs)
    && exists o :: TakesStep(worlds, k, BuildSave(rawHex, txid, o))
  }

  ghost predicate Submitted(worlds: seq<World>, n: nat, id: string, r: Intent) {
    exists k: nat :: k < n && SubmittedAt(worlds, k, id, r.address, r.amount, r.feeRate)
  }

  ghost predicate Reserved(worlds: seq<World>, n: nat, id: string, inputs: seq<Outpoint>) {
    exists k: nat :: k < n && ReservedAt(worlds, k, id, inputs)
  }

  ghost predicate Signed(worlds: seq<World>, n: nat, id: string, inputs: seq<Outpoint>, rawHex: string, txid: string) {
    exists k: nat :: k < n && SignedAt(worlds, k, id, inputs, rawHex, txid) && Reserved(worlds, k, id, inputs)
  }

  /** A record on disk after `n` steps: submitted on its terms, and either without
      bytes and never sent, or with the bytes that were signed over inputs
      reserved for it. */
  ghost predicate AsCalled(worlds: seq<World>, n: nat, id: string, r: Intent) {
    && Submitted(worlds, n, id, r)
    && (r.state == Created ==> Blank(r))
    && (r.state in {Built, Broadcast, Confirmed} || (r.state == Failed && !Blank(r)) ==>
          Signed(worlds, n, id, r.inputs, r.rawHex, r.txid))
  }

  ghost predicate SentAsSigned(worlds: seq<World>, n: nat, s: Send) {
    exists inputs, txid :: Signed(worlds, n, s.id, inputs, s.bytes, txid)
  }

  ghost predicate AllSentAsSigned(worlds: seq<World>, n: nat) {
    n < |worlds| && forall s | s in worlds[n].sends :: SentAsSigned(worlds, n, s)
  }

  ghost predicate AllAsCalled(worlds: seq<World>, n: nat) {
    && n < |worlds| && RecordInv(worlds[n])
    && (forall f: Intents, id :: f in worlds[n].storeCrash && id in f ==> AsCalled(worlds, n, id, f[id]))
    && (worlds[n].call.Building? ==> Reserved(worlds, n, worlds[n].call.id, worlds[n].call.inputs))
    && AllSentAsSigned(worlds, n)
  }

  lemma AsCalledLater(worlds: seq<World>, n: nat, a: Action, id: string, r: Intent, r': Intent)
    requires TakesStep(worlds, n, a) && AsCalled(worlds, n, id, r) && Continues(worlds[n], a, id, r, r')
    requires worlds[n].call.Building? ==> Reserved(worlds, n, worlds[n].call.id, worlds[n].call.inputs)
    ensures AsCalled(worlds, n + 1, id, r')
  {
    SubmittedLater(worlds, n, id, r, r');
    if r.state == Created && r'.state == Built {
      assert SignedAt(worlds, n, id, r'.inputs, r'.rawHex, r'.txid);
    } else if r.state != Created && (r.state != Failed || !Blank(r)) {
      SignedLater(worlds, n, id, r.inputs, r.rawHex, r.txid);
    }
  }

  lemma SubmittedLater(worlds: seq<World>, n: nat, id: string, r: Intent, r': Intent)
    requires Submitted(worlds, n, id, r) && SameTerms(r, r')
    ensures Submitted(worlds, n + 1, id, r')
  {
    var k: nat :| k < n && SubmittedAt(worlds, k, id, r.address, r.amount, r.feeRate);
    assert SubmittedAt(worlds, k, id, r'.address, r'.amount, r'.feeRate);
  }

  lemma SignedLater(worlds: seq<World>, n: nat, id: string, inputs: seq<Outpoint>, rawHex: string, txid: string)
    requires Signed(worlds, n, id, inputs, rawHex, txid)
    ensures Signed(worlds, n + 1, id, inputs, rawHex, txid)
  {
    var k: nat :| k < n && SignedAt(worlds, k, id, inputs, rawHex, txid) && Reserved(worlds, k, id, inputs);
    assert k < n + 1;
  }

  lemma RecordsLater(worlds: seq<World>, n: nat, a: Action)
    requires AllAsCalled(worlds, n) && TakesStep(worlds, n, a)
    ensures forall f: Intents, id :: f in worlds[n + 1].storeCrash && id in f ==> AsCalled(worlds, n + 1, id, f[id])
  {
    var w := worlds[n];
    StepTraced(w, a);
    forall f: Intents, id | f in worlds[n + 1].storeCrash && id in f ensures AsCalled(worlds, n + 1, id, f[id]) {
      assert Comes(w, a, id, f[id]);
      if Submits(a, id, f[id]) && IsNew(f[id]) {
        assert TakesStep(worlds, n, Submit(id, f[id].address, f[id].amount, f[id].feeRate, a.o));
        assert SubmittedAt(worlds, n, id, f[id].address, f[id].amount, f[id].feeRate);
      } else {
        var g: Intents :| g in w.storeCrash && id in g && Continues(w, a, id, g[id], f[id]);
        AsCalledLater(worlds, n, a, id, g[id], f[id]);
      }
    }
  }

  /** Nothing but a reservation begins a build. */
  lemma CallLater(worlds: seq<World>, n: nat, a: Action)
    requires AllAsCalled(worlds, n) && TakesStep(worlds, n, a) && worlds[n + 1].call.Building?
    ensures Reserved(worlds, n + 1, worlds[n + 1].call.id, worlds[n + 1].call.inputs)
  {
    assert worlds[n + 1].call == Apply(worlds[n], a).call;
    ReservedLater(worlds, n, a, worlds[n + 1].call);
  }

  lemma ReservedLater(worlds: seq<World>, n: nat, a: Action, call: Call)
    requires TakesStep(worlds, n, a) && worlds[n].clock > 0 && call == Apply(worlds[n], a).call && call.Building?
    requires worlds[n].call == call ==> Reserved(worlds, n, call.id, call.inputs)
    ensures Reserved(worlds, n + 1, call.id, call.inputs)
  {
    if a.BuildReserve? && call == Building(a.id, a.inputs) {
      assert TakesStep(worlds, n, BuildReserve(a.id, a.inputs, a.ttl, a.o));
      assert ReservedAt(worlds, n, call.id, call.inputs);
    } else {
      BuildingStays(worlds[n], a);
      var k: nat :| k < n && ReservedAt(worlds, k, call.id, call.inputs);
      assert k < n + 1;
    }
  }

  lemma BuildingStays(w: World, a: Action)
    requires Enabled(w, a) && w.clock > 0 && Apply(w, a).call.Building?
    requires !(a.BuildReserve? && Apply(w, a).call == Building(a.id, a.inputs))
    ensures Apply(w, a).call == w.call
  {
    if Quiet(a) {
      QuietSame(w, a);
    } else if SpentOnly(a) {
      SpentBegins(w, a);
    } else if Sends(a) || Resends(a) {
      SendBegins(w, a);
    }
  }

  /** Of these actions only the reservation for a build begins one. */
  lemma SpentBegins(w: World, a: Action)
    requires Enabled(w, a) && SpentOnly(a)
    ensures Apply(w, a).call.Building? ==>
              Apply(w, a).call == w.call || (a.BuildReserve? && Apply(w, a).call == Building(a.id, a.inputs))
  {
  }

  lemma SendBegins(w: World, a: Action)
    requires Enabled(w, a) && !SpentOnly(a) && (Sends(a) || Resends(a))
    ensures Apply(w, a).call.Building? ==> Apply(w, a).call == w.call
  {
  }

  /** Nothing but a hand-over adds a send, and then with the stored bytes. */
  ghost predicate SendComes(w: World, s: Send) {
    || (exists t :: t in w.sends && t.id == s.id && t.bytes == s.bytes)
    || (s.id in w.store && w.store[s.id].state in {Built, Broadcast} && w.store[s.id].rawHex == s.bytes)
  }

  predicate Exchanges(a: Action) {
    a.HandOver? || a.Hear? || a.HandOverAgain? || a.HearAgain?
  }

  lemma SendsCome(w: World, a: Action)
    requires RecordInv(w) && Enabled(w, a)
    ensures forall s | s in Apply(w, a).sends :: SendComes(w, s)
  {
    if Exchanges(a) {
      ExchangeSends(w, a);
    } else {
      SendsStay(w, a);
    }
  }

  lemma ExchangeSends(w: World, a: Action)
    requires RecordInv(w) && Enabled(w, a) && Exchanges(a)
    ensures forall s | s in Apply(w, a).sends :: SendComes(w, s)
  {
    if a.HandOver? || a.HandOverAgain? {
      HandedComes(w, w.call.id, a.HandOverAgain?);
    } else {
      HeardComes(w, a.out);
    }
  }

  lemma HandedComes(w: World, id: string, again: bool)
    requires id in w.store && w.store[id].state in {Built, Broadcast}
    ensures forall s | s in HandedOver(w, id, again).sends :: SendComes(w, s)
  {
  }

  lemma HeardComes(w: World, out: Outcome)
    ensures forall s | s in WithAnswer(w, out).sends :: SendComes(w, s)
  {
    var w' := WithAnswer(w, out);
    forall s | s in w'.sends ensures SendComes(w, s) {
      var k :| 0 <= k < |w'.sends| && w'.sends[k] == s;
      assert w.sends[k] in w.sends;
    }
  }

  lemma SendsStay(w: World, a: Action)
    requires Enabled(w, a) && w.clock > 0 && !Exchanges(a)
    ensures Apply(w, a).sends == w.sends
  {
    if Quiet(a) {
      QuietSame(w, a);
    } else if SpentOnly(a) {
      SpentOnlySame(w, a);
    } else if Builds(a) || a.Submit? {
      BuildSendsStay(w, a);
    } else {
      LaterSendsStay(w, a);
    }
  }

  lemma BuildSendsStay(w: World, a: Action)
    requires !SpentOnly(a) && (Builds(a) || a.Submit?)
    ensures Apply(w, a).sends == w.sends
  {
  }

  lemma LaterSendsStay(w: World, a: Action)
    requires !Quiet(a) && !SpentOnly(a) && !Builds(a) && !a.Submit? && !Exchanges(a)
    ensures Apply(w, a).sends == w.sends
  {
  }

  lemma SendsLater(worlds: seq<World>, n: nat, a: Action)
    requires AllAsCalled(worlds, n) && TakesStep(worlds, n, a)
    ensures AllSentAsSigned(worlds, n + 1)
  {
    var w, n' := worlds[n], n + 1;
    SendsCome(w, a);
    forall s | s in worlds[n'].sends ensures SentAsSigned(worlds, n', s) {
      assert SendComes(w, s);
      var inputs, txid := SendSigned(worlds, n, s);
      SignedLater(worlds, n, s.id, inputs, s.bytes, txid);
    }
  }

  lemma SendSigned(worlds: seq<World>, n: nat, s: Send) returns (inputs: seq<Outpoint>, txid: string)
    requires AllAsCalled(worlds, n) && SendComes(worlds[n], s)
    ensures Signed(worlds, n, s.id, inputs, s.bytes, txid)
  {
    var w := worlds[n];
    if t :| t in w.sends && t.id == s.id && t.bytes == s.bytes {
      inputs, txid :| Signed(worlds, n, t.id, inputs, t.bytes, txid);
    } else {
      inputs, txid := w.store[s.id].inputs, w.store[s.id].txid;
      assert w.store in w.storeCrash && AsCalled(worlds, n, s.id, w.store[s.id]);
    }
  }

  /** Over every run: whatever may be found on disk is as it was submitted, and
      carries bytes only as they were signed over inputs reserved for it; and
      whatever is handed over was signed so. */
  lemma {:induction false} RunsAreAsCalled(worlds: seq<World>, n: nat)
    requires Run(worlds) && n < |worlds|
    ensures AllAsCalled(worlds, n)
  {
    if n == 0 {
      FirstAsCalled(worlds);
    } else {
      RunsAreAsCalled(worlds, n - 1);
      var a := StepOf(worlds, n - 1);
      NextAsCalled(worlds, n - 1, a);
    }
  }

  lemma StepOf(worlds: seq<World>, n: nat) returns (a: Action)
    requires Run(worlds) && n + 1 < |worlds|
    ensures TakesStep(worlds, n, a)
  {
    assert StepAt(worlds, n);
    a :| Enabled(worlds[n], a) && worlds[n + 1] == Step(worlds[n], a);
  }

  lemma FirstAsCalled(worlds: seq<World>)
    requires worlds != [] && worlds[0] == Init()
    ensures AllAsCalled(worlds, 0)
  {
  }

  lemma NextAsCalled(worlds: seq<World>, n: nat, a: Action)
    requires AllAsCalled(worlds, n) && TakesStep(worlds, n, a)
    ensures AllAsCalled(worlds, n + 1)
  {
    StepKeeps(worlds[n], a);
    RecordsLater(worlds, n, a);
    SendsLater(worlds, n, a);
    if worlds[n + 1].call.Building? {
      CallLater(worlds, n, a);
    }
  }
}
