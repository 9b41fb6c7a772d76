/** What every run keeps about the records and the bytes: an intent's signed
    bytes never change once they are on disk, every hand-over is of those bytes,
    and a verdict of Failed is never given to bytes that may be out. */
module WithdrawalRecords {
  import opened AtomicFile
  import opened SpentSet
  import opened Broadcaster
  import opened Withdrawal

  /** `b` may replace `a`: a record with bytes keeps them, and no state is gone
      back to. */
  predicate Follows(a: Intent, b: Intent) {
    a.state == Created ||
    (b.state != Created && b.rawHex == a.rawHex && b.inputs == a.inputs && b.txid == a.txid &&
     (a.state == Broadcast ==> b.state != Built) && (a.state in {Confirmed, Failed} ==> b.state == a.state))
  }

  /** Facts about one record by itself. */
  predicate Sound(r: Intent) {
    && (r.state == Created ==> !r.maybeRelayed && r.sentAt == 0)
    && (r.state == Failed && r.abandonedAt == 0 ==> !r.maybeRelayed)
    && (r.state == Broadcast || r.state == Confirmed ==> r.maybeRelayed)
  }

  /** Records only a send leads to. */
  predicate WasSent(r: Intent) {
    Held(r) || r.state == Broadcast || r.state == Confirmed
  }

  /** Every content that may be found has the record, with bytes. */
  ghost predicate NeverCreated(w: World, id: string) {
    forall f: Intents :: f in w.storeCrash ==> id in f && f[id].state != Created
  }

  predicate AllConfirmed(w: World, inputs: seq<Outpoint>) {
    forall p :: p in inputs ==> p in w.confirmed
  }

  ghost predicate RecordOk(w: World, id: string, r: Intent) {
    && id != "" && id in w.store && Follows(r, w.store[id]) && Sound(r)
    && (r.state == Confirmed ==> AllConfirmed(w, r.inputs))
    && (WasSent(r) ==> NeverCreated(w, id))
  }

  /** Every content of the intents file that may be found is one the visible
      content was reached from. */
  ghost predicate FileInv(w: World) {
    && w.store in w.storeCrash
    && (forall f: Intents, id :: f in w.storeCrash && id in f ==> RecordOk(w, id, f[id]))
  }

  /** The bytes of one hand-over are in every content that may be found, and
      when they may be out the record says so. */
  ghost predicate SendInv(w: World, s: Send) {
    forall f: Intents :: f in w.storeCrash ==>
      && s.id in f && f[s.id].state != Created && f[s.id].rawHex == s.bytes
      && (MayBeOut(s) ==> f[s.id].maybeRelayed)
  }

  ghost predicate SendsInv(w: World) {
    forall k :: 0 <= k < |w.sends| ==> SendInv(w, w.sends[k])
  }

  /** All contents that may be found agree on this record. */
  ghost predicate Pinned(w: World, id: string) {
    id in w.store && forall f: Intents :: f in w.storeCrash ==> id in f && f[id] == w.store[id]
  }

  ghost predicate AllPinned(w: World) {
    forall f: Intents, id :: f in w.storeCrash && id in f ==> id in w.store && f[id] == w.store[id]
  }

  /** No hand-over of `id` among the first `n` may be out. */
  predicate NoneOut(w: World, id: string, n: nat) {
    forall k :: 0 <= k < n <= |w.sends| && w.sends[k].id == id ==> !MayBeOut(w.sends[k])
  }

  predicate Unheard(w: World, id: string) {
    |w.sends| > 0 && w.sends[|w.sends| - 1].id == id && w.sends[|w.sends| - 1].heard == None
  }

  predicate LastSend(w: World, id: string, reply: Reply) {
    |w.sends| > 0 && w.sends[|w.sends| - 1].id == id && w.sends[|w.sends| - 1].heard.Some? &&
    Classify(w.sends[|w.sends| - 1].heard.out) == reply
  }

  /** The attempt was durable, so every content has all records but those
      submitted since, as they are. */
  ghost predicate Sending(w: World, id: string) {
    && Pinned(w, id) && AllPinned(w)
    && w.store[id].state == Built && !Held(w.store[id]) && w.store[id].maybeRelayed && w.store[id].sentAt > 0
  }

  ghost predicate CallInv(w: World) {
    && w.clock > 0
    && (w.call != Idle ==> w.phase == Running)
    && CallOk(w)
  }

  /** What the transition under way may rely on. */
  ghost predicate CallOk(w: World) {
    match w.call
    case Idle => true
    case Building(id, _) => InState(w, id, Created)
    case Reserving(id) => InState(w, id, Built) && !Held(w.store[id])
    case Ready(id, prior) => Sending(w, id) && (!prior ==> NoneOut(w, id, |w.sends|))
    case Waiting(id, prior) =>
      Sending(w, id) && Unheard(w, id) && (!prior ==> NoneOut(w, id, |w.sends| - 1))
    case Answered(id, prior, reply) =>
      Sending(w, id) && LastSend(w, id, reply) && (!prior ==> NoneOut(w, id, |w.sends| - 1))
    case Marked(id, prior, reply) =>
      Sending(w, id) && LastSend(w, id, reply) && (!prior ==> NoneOut(w, id, |w.sends| - 1)) && Marks(prior, reply)
    case ReleaseDue(id) =>
      id in w.store && w.store[id].state in {Created, Failed} &&
      forall f: Intents :: f in w.storeCrash && id in f ==> f[id].state in {Created, Failed}
    case ForgetDue(id) => Pinned(w, id) && w.store[id].state == Failed
    case Resending(id, _) => Pinned(w, id) && w.store[id].state == Broadcast
    case Rewaiting(id, _) => Pinned(w, id) && w.store[id].state == Broadcast && Unheard(w, id)
    case Reanswered(id, _, out) => Pinned(w, id) && w.store[id].state == Broadcast && LastSend(w, id, Classify(out))
    case Confirming(id, _) => InState(w, id, Broadcast) && AllConfirmed(w, w.store[id].inputs)
  }

  ghost predicate RecordInv(w: World) {
    FileInv(w) && SendsInv(w) && CallInv(w)
  }

  /** A record may be written over the stored one. */
  ghost predicate MayReplace(w: World, id: string, r: Intent) {
    && id != ""
    && Sound(r)
    && (r.state == Confirmed ==> AllConfirmed(w, r.inputs))
    && (WasSent(r) ==> NeverCreated(w, id))
    && (id in w.store ==> Follows(w.store[id], r))
    && (forall k :: 0 <= k < |w.sends| && w.sends[k].id == id ==>
          r.state != Created && (MayBeOut(w.sends[k]) ==> r.maybeRelayed))
  }

  lemma FollowsOn(a: Intent, b: Intent, c: Intent)
    requires Follows(a, b) && Follows(b, c)
    ensures Follows(a, c)
  {
  }

  lemma SavedNeverCreated(w: World, id: string, r: Intent, o: WriteOutcome, i: string)
    requires w.store in w.storeCrash && NeverCreated(w, i) && (i == id ==> r.state != Created)
    ensures NeverCreated(Saved(w, id, r, o), i)
  {
  }

  /** A record that was there before. */
  lemma SavedRecord(w: World, id: string, r: Intent, o: WriteOutcome, i: string, old': Intent)
    requires w.store in w.storeCrash && RecordOk(w, i, old') && (id in w.store ==> Follows(w.store[id], r))
    ensures RecordOk(Saved(w, id, r, o), i, old')
  {
    if i == id {
      FollowsOn(old', w.store[i], r);
    }
    if WasSent(old') {
      SavedNeverCreated(w, id, r, o, i);
    }
  }

  lemma SavedFile(w: World, id: string, r: Intent, o: WriteOutcome)
    requires FileInv(w) && MayReplace(w, id, r)
    ensures FileInv(Saved(w, id, r, o))
  {
    var w' := Saved(w, id, r, o);
    assert w.store in w.storeCrash;
    forall f: Intents, i | f in w'.storeCrash && i in f ensures RecordOk(w', i, f[i]) {
      if f in w.storeCrash || i != id {
        var g := if f in w.storeCrash then f else w.store;
        assert g in w.storeCrash && i in g && g[i] == f[i];
        SavedRecord(w, id, r, o, i, f[i]);
      } else {
        assert f[i] == r && w'.store == w.store[id := r];
        if WasSent(r) {
          SavedNeverCreated(w, id, r, o, i);
        }
      }
    }
  }

  lemma SavedSends(w: World, id: string, r: Intent, o: WriteOutcome)
    requires FileInv(w) && SendsInv(w) && MayReplace(w, id, r)
    ensures SendsInv(Saved(w, id, r, o))
  {
    var w' := Saved(w, id, r, o);
    forall k | 0 <= k < |w'.sends| ensures SendInv(w', w'.sends[k]) {
      var s := w.sends[k];
      assert SendInv(w, s);
      forall f: Intents | f in w'.storeCrash
        ensures s.id in f && f[s.id].state != Created && f[s.id].rawHex == s.bytes &&
                (MayBeOut(s) ==> f[s.id].maybeRelayed)
      {
        if f !in w.storeCrash {
          assert f == w.store[id := r];
          assert w.store in w.storeCrash;
        }
      }
    }
  }

  lemma SavedKeeps(w: World, id: string, r: Intent, o: WriteOutcome)
    requires FileInv(w) && SendsInv(w) && MayReplace(w, id, r)
    ensures FileInv(Saved(w, id, r, o)) && SendsInv(Saved(w, id, r, o))
  {
    SavedFile(w, id, r, o);
    SavedSends(w, id, r, o);
  }

  /** A record no hand-over touches, as a Created one is. */
  lemma CreatedUnsent(w: World, id: string)
    requires FileInv(w) && SendsInv(w) && id in w.store && w.store[id].state == Created
    ensures forall k :: 0 <= k < |w.sends| ==> w.sends[k].id != id
  {
    forall k | 0 <= k < |w.sends| ensures w.sends[k].id != id {
      assert SendInv(w, w.sends[k]);
      assert w.store in w.storeCrash;
    }
  }

  /** A stored record with bytes carries the marks of its hand-overs. */
  lemma OutIsMarked(w: World, id: string)
    requires FileInv(w) && SendsInv(w) && id in w.store
    ensures forall k :: 0 <= k < |w.sends| && w.sends[k].id == id ==>
              w.store[id].state != Created && (MayBeOut(w.sends[k]) ==> w.store[id].maybeRelayed)
  {
    forall k | 0 <= k < |w.sends| && w.sends[k].id == id
      ensures w.store[id].state != Created && (MayBeOut(w.sends[k]) ==> w.store[id].maybeRelayed)
    {
      assert SendInv(w, w.sends[k]);
      assert w.store in w.storeCrash;
    }
  }

  /** Settling never loses a mark that a hand-over needs. */
  lemma SettledMayReplace(w: World, id: string, prior: bool, reply: Reply)
    requires FileInv(w) && SendsInv(w) && Sending(w, id) && LastSend(w, id, reply)
    requires !prior ==> NoneOut(w, id, |w.sends| - 1)
    ensures MayReplace(w, id, SettledRecord(w.store[id], prior, reply, w.clock))
  {
    OutIsMarked(w, id);
    var r := SettledRecord(w.store[id], prior, reply, w.clock);
    forall k | 0 <= k < |w.sends| && w.sends[k].id == id
      ensures r.state != Created && (MayBeOut(w.sends[k]) ==> r.maybeRelayed)
    {
      if k < |w.sends| - 1 && !prior {
        assert !MayBeOut(w.sends[k]);
      }
    }
  }

  /** A save that ends the transition. */
  lemma SavedIdle(w: World, id: string, r: Intent, o: WriteOutcome)
    requires FileInv(w) && SendsInv(w) && MayReplace(w, id, r) && w.clock > 0 && w.phase == Running
    ensures RecordInv(Saved(w, id, r, o).(call := Idle))
  {
    SavedKeeps(w, id, r, o);
    QuietFilesKeep(Saved(w, id, r, o), Saved(w, id, r, o).(call := Idle));
  }

  /** Submit adds a record under a new id and disturbs no other. */
  lemma AddedPins(w: World, id: string, r: Intent, o: WriteOutcome, i: string)
    requires Pinned(w, i) && id !in w.store
    ensures Pinned(Saved(w, id, r, o), i) && Saved(w, id, r, o).store[i] == w.store[i]
    ensures AllPinned(w) ==> AllPinned(Saved(w, id, r, o))
  {
  }

  lemma AddedCall(w: World, id: string, r: Intent, o: WriteOutcome)
    requires FileInv(w) && CallInv(w) && id !in w.store && r.state == Created
    ensures CallInv(Saved(w, id, r, o))
  {
    var w' := Saved(w, id, r, o);
    assert CallOk(w') by {
      AddedCallOk(w, id, r, o);
    }
  }

  lemma AddedCallOk(w: World, id: string, r: Intent, o: WriteOutcome)
    requires CallOk(w) && id !in w.store && r.state == Created
    ensures CallOk(Saved(w, id, r, o))
  {
    if w.call != Idle && Pinned(w, w.call.id) {
      AddedPinnedOk(w, id, r, o);
    }
  }

  lemma AddedPinnedOk(w: World, id: string, r: Intent, o: WriteOutcome)
    requires CallOk(w) && id !in w.store && w.call != Idle && Pinned(w, w.call.id)
    ensures CallOk(Saved(w, id, r, o))
  {
    AddedPins(w, id, r, o, w.call.id);
  }

  lemma SubmitKeeps(w: World, id: string, r: Intent, o: WriteOutcome)
    requires RecordInv(w) && id != "" && id !in w.store && r.state == Created && !r.maybeRelayed && r.sentAt == 0 &&
             !Held(r)
    ensures RecordInv(Saved(w, id, r, o))
  {
    forall k | 0 <= k < |w.sends| ensures w.sends[k].id != id {
      assert SendInv(w, w.sends[k]);
      assert w.store in w.storeCrash;
    }
    SavedKeeps(w, id, r, o);
    AddedCall(w, id, r, o);
  }

  // ----- Every action keeps the invariant -----

  lemma PowerLossKeeps(w: World, intents: Intents, entries: Entries)
    requires RecordInv(w) && Enabled(w, PowerLoss(intents, entries))
    ensures RecordInv(Apply(w, PowerLoss(intents, entries)))
  {
    var w' := Apply(w, PowerLoss(intents, entries));
    forall k | 0 <= k < |w'.sends| ensures SendInv(w', w'.sends[k]) {
      assert SendInv(w, w.sends[k]);
    }
  }

  lemma ExitKeeps(w: World)
    requires RecordInv(w)
    ensures RecordInv(Apply(w, Exit))
  {
    var w' := Apply(w, Exit);
    forall k | 0 <= k < |w'.sends| ensures SendInv(w', w'.sends[k]) {
      assert SendInv(w, w.sends[k]);
    }
  }

  ghost predicate RecordsKept(w: World, a: Action) {
    RecordInv(Apply(w, a))
  }

  predicate SameRecords(w: World, w': World) {
    w'.store == w.store && w'.storeCrash == w.storeCrash && w'.sends == w.sends && w'.phase == w.phase &&
        w'.clock > 0 &&
    w.confirmed <= w'.confirmed
  }

  lemma QuietKeeps(w: World, w': World)
    requires RecordInv(w) && SameRecords(w, w') && w'.call == w.call
    ensures RecordInv(w')
  {
    QuietFilesKeep(w, w');
  }

  lemma QuietFilesKeep(w: World, w': World)
    requires FileInv(w) && SendsInv(w) && SameRecords(w, w')
    ensures FileInv(w') && SendsInv(w')
  {
    forall k | 0 <= k < |w'.sends| ensures SendInv(w', w'.sends[k]) {
      assert SendInv(w, w.sends[k]);
    }
  }

  /** Actions that write the spent set and nothing else. */
  predicate SpentOnly(a: Action) {
    a.BuildReserve? || a.SendReserve? || a.MarkInputs? || a.ConfirmInputs? || a.Release? || a.Forget?
  }

  lemma ReservedSame(w: World, id: string, inputs: seq<Outpoint>, ttl: nat, o: WriteOutcome)
    requires w.clock > 0
    ensures SameRecords(w, ReserveIfNeeded(w, id, inputs, ttl, o))
    ensures ReserveIfNeeded(w, id, inputs, ttl, o).call == w.call &&
            ReserveIfNeeded(w, id, inputs, ttl, o).clock == w.clock
  {
  }

  lemma BuildReserveSame(w: World, a: Action)
    requires a.BuildReserve? && w.clock > 0
    ensures SameRecords(w, Apply(w, a))
  {
    ReservedSame(w, a.id, a.inputs, a.ttl, a.o);
  }

  lemma SendReserveSame(w: World, a: Action)
    requires a.SendReserve? && w.clock > 0
    ensures SameRecords(w, Apply(w, a))
  {
    ReservedSame(w, a.id, Current(w, a.id).inputs, a.ttl, a.o);
  }

  lemma ReleaseSame(w: World, a: Action)
    requires a.Release? && w.call.ReleaseDue? && w.clock > 0
    ensures SameRecords(w, Apply(w, a))
  {
  }

  lemma ForgetSame(w: World, a: Action)
    requires a.Forget? && w.call.ForgetDue? && w.clock > 0
    ensures SameRecords(w, Apply(w, a))
  {
  }

  lemma SpentOnlySame(w: World, a: Action)
    requires Enabled(w, a) && SpentOnly(a) && w.clock > 0
    ensures SameRecords(w, Apply(w, a))
  {
    if a.BuildReserve? {
      BuildReserveSame(w, a);
    } else if a.SendReserve? {
      SendReserveSame(w, a);
    } else if a.Release? {
      ReleaseSame(w, a);
    } else if a.Forget? {
      ForgetSame(w, a);
    } else if a.MarkInputs? {
      MarkInputsSame(w, a);
    } else {
      ConfirmInputsSame(w, a);
    }
  }

  lemma MarkInputsSame(w: World, a: Action)
    requires a.MarkInputs? && w.call.Answered? && w.clock > 0
    ensures SameRecords(w, Apply(w, a))
  {
  }

  lemma ConfirmInputsSame(w: World, a: Action)
    requires a.ConfirmInputs? && w.clock > 0
    ensures SameRecords(w, Apply(w, a))
  {
  }

  lemma BuildReserveKeeps(w: World, id: string, inputs: seq<Outpoint>, ttl: nat, o: WriteOutcome)
    requires RecordInv(w) && Enabled(w, BuildReserve(id, inputs, ttl, o))
    ensures RecordInv(Apply(w, BuildReserve(id, inputs, ttl, o)))
  {
    SpentOnlySame(w, BuildReserve(id, inputs, ttl, o));
    QuietFilesKeep(w, Apply(w, BuildReserve(id, inputs, ttl, o)));
  }

  lemma BuiltMayReplace(w: World, id: string, r: Intent)
    requires FileInv(w) && SendsInv(w) && InState(w, id, Created)
    requires r == w.store[id].(state := Built, rawHex := r.rawHex, txid := r.txid, inputs := r.inputs,
                               updatedAt := w.clock)
    ensures MayReplace(w, id, r)
  {
    CreatedUnsent(w, id);
    assert w.store in w.storeCrash;
    assert RecordOk(w, id, w.store[id]);
  }

  lemma BuildSaveKeeps(w: World, rawHex: string, txid: string, o: WriteOutcome)
    requires RecordInv(w) && w.call.Building?
    ensures RecordInv(Apply(w, BuildSave(rawHex, txid, o)))
  {
    var id := w.call.id;
    var r := BuiltRecord(w.store[id], w.call.inputs, rawHex, txid, w.clock);
    assert Apply(w, BuildSave(rawHex, txid, o)) ==
           Saved(w, id, r, o).(call := if o.NotWritten? then ReleaseDue(id) else Idle);
    BuiltSaved(w, id, r, o);
  }

  lemma BuiltSaved(w: World, id: string, r: Intent, o: WriteOutcome)
    requires RecordInv(w) && w.call.Building? && w.call.id == id
    requires r == w.store[id].(state := Built, rawHex := r.rawHex, txid := r.txid, inputs := r.inputs,
                               updatedAt := w.clock)
    ensures RecordInv(Saved(w, id, r, o).(call := if o.NotWritten? then ReleaseDue(id) else Idle))
  {
    BuiltMayReplace(w, id, r);
    SavedKeeps(w, id, r, o);
    QuietFilesKeep(Saved(w, id, r, o), Saved(w, id, r, o).(call := if o.NotWritten? then ReleaseDue(id) else Idle));
  }

  lemma BuildAbortKeeps(w: World)
    requires RecordInv(w) && w.call.Building?
    ensures RecordInv(Apply(w, BuildAbort))
  {
    QuietFilesKeep(w, Apply(w, BuildAbort));
  }

  lemma BuildFailKeeps(w: World, id: string, o: WriteOutcome)
    requires RecordInv(w) && Enabled(w, BuildFail(id, o))
    ensures RecordInv(Apply(w, BuildFail(id, o)))
  {
    CreatedUnsent(w, id);
    assert w.store in w.storeCrash;
    SavedKeeps(w, id, UnbuildableRecord(w.store[id], w.clock), o);
    QuietFilesKeep(Saved(w, id, UnbuildableRecord(w.store[id], w.clock), o), Apply(w, BuildFail(id, o)));
  }

  lemma DeferKeeps(w: World, id: string, o: WriteOutcome)
    requires RecordInv(w) && Enabled(w, Defer(id, o))
    ensures RecordInv(Apply(w, Defer(id, o)))
  {
    CreatedUnsent(w, id);
    assert w.store in w.storeCrash;
    SavedKeeps(w, id, DeferredRecord(w.store[id], w.clock), o);
  }

  lemma SendReserveKeeps(w: World, id: string, ttl: nat, o: WriteOutcome)
    requires RecordInv(w) && Enabled(w, SendReserve(id, ttl, o))
    ensures RecordInv(Apply(w, SendReserve(id, ttl, o)))
  {
    SpentOnlySame(w, SendReserve(id, ttl, o));
    QuietFilesKeep(w, Apply(w, SendReserve(id, ttl, o)));
  }

  lemma TouchKeeps(w: World, id: string, o: WriteOutcome)
    requires RecordInv(w) && Enabled(w, Touch(id, o))
    ensures RecordInv(Apply(w, Touch(id, o)))
  {
    OutIsMarked(w, id);
    assert w.store in w.storeCrash;
    SavedKeeps(w, id, w.store[id].(updatedAt := w.clock), o);
  }

  lemma SaveAttemptKeeps(w: World, o: WriteOutcome)
    requires RecordInv(w) && w.call.Reserving?
    ensures RecordInv(Apply(w, SaveAttempt(o)))
  {
    var id := w.call.id;
    var r := w.store[id];
    AttemptMayReplace(w, id);
    var w1 := Saved(w, id, AttemptRecord(r, w.clock), o);
    var w' := w1.(call := if o.Durable? then Ready(id, Prior(r)) else Idle);
    assert Apply(w, SaveAttempt(o)) == w';
    SavedKeeps(w, id, AttemptRecord(r, w.clock), o);
    QuietFilesKeep(w1, w');
    if o.Durable? {
      AttemptPins(w, w', id);
    }
  }

  lemma AttemptMayReplace(w: World, id: string)
    requires FileInv(w) && SendsInv(w) && InState(w, id, Built) && !Held(w.store[id])
    ensures MayReplace(w, id, AttemptRecord(w.store[id], w.clock)) && w.store in w.storeCrash
  {
    OutIsMarked(w, id);
    assert RecordOk(w, id, w.store[id]);
  }

  lemma AttemptPins(w: World, w': World, id: string)
    requires SendsInv(w) && InState(w, id, Built) && !Held(w.store[id]) && w.store in w.storeCrash && w.clock > 0
    requires w' == Saved(w, id, AttemptRecord(w.store[id], w.clock), Durable).(call := Ready(id, Prior(w.store[id])))
    ensures CallOk(w')
  {
    if !Prior(w.store[id]) {
      forall k | 0 <= k < |w'.sends| && w'.sends[k].id == id ensures !MayBeOut(w'.sends[k]) {
        assert SendInv(w, w.sends[k]);
      }
    }
  }

  lemma HandOverKeeps(w: World, id: string, again: bool, call: Call)
    requires FileInv(w) && SendsInv(w) && Pinned(w, id) && w.store[id].state != Created && w.store[id].maybeRelayed
    ensures FileInv(HandedOver(w, id, again).(call := call)) && SendsInv(HandedOver(w, id, again).(call := call))
  {
    var w' := HandedOver(w, id, again).(call := call);
    forall k | 0 <= k < |w'.sends| ensures SendInv(w', w'.sends[k]) {
      if k < |w.sends| {
        assert SendInv(w, w.sends[k]);
      }
    }
  }

  lemma HearKeeps(w: World, out: Outcome, call: Call)
    requires FileInv(w) && SendsInv(w) && |w.sends| > 0 && w.sends[|w.sends| - 1].heard == None
    ensures FileInv(WithAnswer(w, out).(call := call)) && SendsInv(WithAnswer(w, out).(call := call))
  {
    var w' := WithAnswer(w, out).(call := call);
    forall k | 0 <= k < |w'.sends| ensures SendInv(w', w'.sends[k]) {
      assert SendInv(w, w.sends[k]);
    }
  }

  lemma HandOverActionKeeps(w: World)
    requires RecordInv(w) && w.call.Ready?
    ensures RecordInv(Apply(w, HandOver))
  {
    HandOverKeeps(w, w.call.id, false, Waiting(w.call.id, w.call.prior));
  }

  lemma HearActionKeeps(w: World, out: Outcome)
    requires RecordInv(w) && w.call.Waiting?
    ensures RecordInv(Apply(w, Hear(out)))
  {
    var call := Answered(w.call.id, w.call.prior, Classify(out));
    assert Apply(w, Hear(out)) == WithAnswer(w, out).(call := call);
    HearKeeps(w, out, call);
  }

  lemma MarkInputsKeeps(w: World, o: WriteOutcome)
    requires RecordInv(w) && Enabled(w, MarkInputs(o))
    ensures RecordInv(Apply(w, MarkInputs(o)))
  {
    var w' := Apply(w, MarkInputs(o));
    SpentOnlySame(w, MarkInputs(o));
    QuietFilesKeep(w, w');
    assert w'.call == Marked(w.call.id, w.call.prior, w.call.reply);
  }

  lemma SettledKeeps(w: World, id: string, prior: bool, reply: Reply, o: WriteOutcome)
    requires FileInv(w) && SendsInv(w) && Sending(w, id) && LastSend(w, id, reply)
    requires (!prior ==> NoneOut(w, id, |w.sends| - 1)) && w.clock > 0 && w.phase == Running
    ensures RecordInv(Settled(w, id, prior, reply, o))
  {
    var r := SettledRecord(w.store[id], prior, reply, w.clock);
    SettledMayReplace(w, id, prior, reply);
    SavedIdle(w, id, r, o);
    QuietFilesKeep(Saved(w, id, r, o).(call := Idle), Settled(w, id, prior, reply, o));
  }

  lemma SettleKeeps(w: World, o: WriteOutcome)
    requires RecordInv(w) && Enabled(w, Settle(o))
    ensures RecordInv(Apply(w, Settle(o)))
  {
    SettledKeeps(w, w.call.id, w.call.prior, w.call.reply, o);
  }

  lemma ResendKeeps(w: World, id: string, o: WriteOutcome)
    requires RecordInv(w) && Enabled(w, SaveResend(id, o))
    ensures RecordInv(Apply(w, SaveResend(id, o)))
  {
    OutIsMarked(w, id);
    assert w.store in w.storeCrash;
    SavedKeeps(w, id, ResendRecord(w.store[id], w.clock), o);
    QuietFilesKeep(Saved(w, id, ResendRecord(w.store[id], w.clock), o), Apply(w, SaveResend(id, o)));
  }

  lemma HandOverAgainKeeps(w: World)
    requires RecordInv(w) && w.call.Resending?
    ensures RecordInv(Apply(w, HandOverAgain))
  {
    assert w.store in w.storeCrash;
    HandOverKeeps(w, w.call.id, true, Rewaiting(w.call.id, w.call.sentBefore));
  }

  lemma HearAgainKeeps(w: World, out: Outcome)
    requires RecordInv(w) && w.call.Rewaiting?
    ensures RecordInv(Apply(w, HearAgain(out)))
  {
    var call := Reanswered(w.call.id, w.call.sentBefore, out);
    assert Apply(w, HearAgain(out)) == WithAnswer(w, out).(call := call);
    HearKeeps(w, out, call);
  }

  lemma SettleAgainKeeps(w: World, o: WriteOutcome)
    requires RecordInv(w) && w.call.Reanswered?
    ensures RecordInv(Apply(w, SettleAgain(o)))
  {
    var id, r := w.call.id, ResentRecord(w.store[w.call.id], w.call.sentBefore, w.call.out, w.clock);
    OutIsMarked(w, id);
    assert w.store in w.storeCrash;
    SavedIdle(w, id, r, o);
  }

  lemma ConfirmInputsKeeps(w: World, id: string, depth: int, o: WriteOutcome)
    requires RecordInv(w) && Enabled(w, ConfirmInputs(id, depth, o))
    ensures RecordInv(Apply(w, ConfirmInputs(id, depth, o)))
  {
    SpentOnlySame(w, ConfirmInputs(id, depth, o));
    QuietFilesKeep(w, Apply(w, ConfirmInputs(id, depth, o)));
  }

  lemma SaveConfirmedKeeps(w: World, o: WriteOutcome)
    requires RecordInv(w) && w.call.Confirming?
    ensures RecordInv(Apply(w, SaveConfirmed(o)))
  {
    var id, depth := w.call.id, w.call.depth;
    ConfirmedMayReplace(w, id, depth);
    var r := w.store[id].(state := Confirmed, confirmations := depth, updatedAt := w.clock);
    SaveConfirmedIs(w, id, depth, o);
    SavedIdle(w, id, r, o);
  }

  lemma SaveConfirmedIs(w: World, id: string, depth: int, o: WriteOutcome)
    requires w.call == Confirming(id, depth) && id in w.store
    ensures Apply(w, SaveConfirmed(o)) ==
            Saved(w, id, w.store[id].(state := Confirmed, confirmations := depth, updatedAt := w.clock), o)
            .(call := Idle)
  {
  }

  lemma ConfirmedMayReplace(w: World, id: string, depth: int)
    requires FileInv(w) && SendsInv(w) && InState(w, id, Broadcast) && AllConfirmed(w, w.store[id].inputs)
    ensures MayReplace(w, id, w.store[id].(state := Confirmed, confirmations := depth, updatedAt := w.clock))
  {
    OutIsMarked(w, id);
    assert w.store in w.storeCrash;
    assert RecordOk(w, id, w.store[id]);
  }

  lemma SaveDepthKeeps(w: World, id: string, depth: int, o: WriteOutcome)
    requires RecordInv(w) && Enabled(w, SaveDepth(id, depth, o))
    ensures RecordInv(Apply(w, SaveDepth(id, depth, o)))
  {
    OutIsMarked(w, id);
    assert w.store in w.storeCrash;
    SavedKeeps(w, id, w.store[id].(confirmations := depth, updatedAt := w.clock), o);
  }

  lemma AbandonKeeps(w: World, id: string, wait: nat, o: WriteOutcome)
    requires RecordInv(w) && Enabled(w, Abandon(id, wait, o))
    ensures RecordInv(Apply(w, Abandon(id, wait, o)))
  {
    var r := AbandonedRecord(w.store[id], w.clock);
    AbandonedMayReplace(w, id);
    SavedKeeps(w, id, r, o);
    QuietFilesKeep(Saved(w, id, r, o), Apply(w, Abandon(id, wait, o)));
  }

  lemma AbandonedMayReplace(w: World, id: string)
    requires FileInv(w) && SendsInv(w) && w.clock > 0 && id in w.store
    requires w.store[id].state == Broadcast || (w.store[id].state == Built && Held(w.store[id]))
    ensures MayReplace(w, id, AbandonedRecord(w.store[id], w.clock))
  {
    OutIsMarked(w, id);
    assert w.store in w.storeCrash && RecordOk(w, id, w.store[id]);
  }

  lemma EndKeeps(w: World, w': World)
    requires RecordInv(w) && SameRecords(w, w') && w'.call == Idle
    ensures RecordInv(w')
  {
    QuietFilesKeep(w, w');
  }

  lemma PhaseKeeps(w: World, phase: Phase)
    requires RecordInv(w) && w.phase != Running
    ensures RecordInv(w.(phase := phase))
  {
    var w' := w.(phase := phase);
    forall k | 0 <= k < |w'.sends| ensures SendInv(w', w'.sends[k]) {
      assert SendInv(w, w.sends[k]);
    }
  }

  predicate Quiet(a: Action) {
    a.Tick? || a.Prune? || a.DropExpired? || a.ConfirmSpent? || a.Remark? || a.DropAbandoned? ||
    a.ReleaseOrphan? || a.MarkHeld? || a.Renew?
  }

  lemma RemarkSame(w: World, a: Action)
    requires a.Remark? && w.clock > 0
    ensures SameRecords(w, Apply(w, a)) && Apply(w, a).call == w.call
  {
  }

  lemma DropSame(w: World, a: Action)
    requires a.DropAbandoned? && w.clock > 0
    ensures SameRecords(w, Apply(w, a)) && Apply(w, a).call == w.call
  {
  }

  lemma OrphanSame(w: World, a: Action)
    requires a.ReleaseOrphan? && w.clock > 0
    ensures SameRecords(w, Apply(w, a)) && Apply(w, a).call == w.call
  {
  }

  lemma KeepUpSame(w: World, a: Action)
    requires (a.Prune? || a.MarkHeld?) && w.clock > 0
    ensures SameRecords(w, Apply(w, a)) && Apply(w, a).call == w.call
  {
  }

  lemma RenewSame(w: World, a: Action)
    requires a.Renew? && w.clock > 0
    ensures SameRecords(w, Apply(w, a)) && Apply(w, a).call == w.call
  {
    ReservedSame(w, a.id, Current(w, a.id).inputs, a.ttl, a.o);
  }

  lemma QuietSame(w: World, a: Action)
    requires Enabled(w, a) && Quiet(a) && w.clock > 0
    ensures SameRecords(w, Apply(w, a)) && Apply(w, a).call == w.call
  {
    if a.Remark? {
      RemarkSame(w, a);
    } else if a.DropAbandoned? {
      DropSame(w, a);
    } else if a.ReleaseOrphan? {
      OrphanSame(w, a);
    } else if a.Prune? || a.MarkHeld? {
      KeepUpSame(w, a);
    } else if a.Renew? {
      RenewSame(w, a);
    }
  }

  lemma QuietActionKeeps(w: World, a: Action)
    requires RecordInv(w) && Enabled(w, a) && Quiet(a)
    ensures RecordsKept(w, a)
  {
    QuietSame(w, a);
    QuietKeeps(w, Apply(w, a));
  }

  lemma EndActionKeeps(w: World, a: Action)
    requires RecordInv(w) && Enabled(w, a) && (a.Release? || a.Forget?)
    ensures RecordsKept(w, a)
  {
    SpentOnlySame(w, a);
    EndKeeps(w, Apply(w, a));
  }

  lemma OutsideKeeps(w: World, a: Action)
    requires RecordInv(w) && Enabled(w, a) && (a.Submit? || a.PowerLoss? || a.Exit? || a.RemarksDone? || a.RepairDone?)
    ensures RecordsKept(w, a)
  {
    match a
    case Submit(id, address, amount, feeRate, o) => SubmitKeeps(w, id, NewIntent(address, amount, feeRate, w.clock), o);
    case PowerLoss(intents, entries) => PowerLossKeeps(w, intents, entries);
    case Exit => ExitKeeps(w);
    case RemarksDone => PhaseKeeps(w, Repairing);
    case RepairDone => PhaseKeeps(w, Running);
  }

  predicate Builds(a: Action) {
    a.BuildReserve? || a.BuildSave? || a.BuildAbort? || a.BuildFail? || a.Defer?
  }

  lemma BuildEndsKeep(w: World, a: Action)
    requires RecordInv(w) && Enabled(w, a) && (a.BuildFail? || a.Defer?)
    ensures RecordsKept(w, a)
  {
    match a
    case BuildFail(id, o) => BuildFailKeeps(w, id, o);
    case Defer(id, o) => DeferKeeps(w, id, o);
  }

  lemma BuildKeeps(w: World, a: Action)
    requires RecordInv(w) && Enabled(w, a) && Builds(a)
    ensures RecordsKept(w, a)
  {
    if a.BuildFail? || a.Defer? {
      BuildEndsKeep(w, a);
    } else {
      match a
      case BuildReserve(id, inputs, ttl, o) => BuildReserveKeeps(w, id, inputs, ttl, o);
      case BuildSave(rawHex, txid, o) => BuildSaveKeeps(w, rawHex, txid, o);
      case BuildAbort => BuildAbortKeeps(w);
    }
  }

  predicate Sends(a: Action) {
    a.SendReserve? || a.Touch? || a.SaveAttempt? || a.HandOver? || a.Hear? || a.MarkInputs? || a.Settle?
  }

  lemma BeforeSendKeeps(w: World, a: Action)
    requires RecordInv(w) && Enabled(w, a) && (a.SendReserve? || a.Touch? || a.SaveAttempt?)
    ensures RecordsKept(w, a)
  {
    if a.SaveAttempt? {
      SaveAttemptKeeps(w, a.o);
    } else if a.SendReserve? {
      SendReserveKeeps(w, a.id, a.ttl, a.o);
    } else {
      TouchKeeps(w, a.id, a.o);
    }
  }

  lemma AfterSendKeeps(w: World, a: Action)
    requires RecordInv(w) && Enabled(w, a) && (a.HandOver? || a.Hear? || a.MarkInputs? || a.Settle?)
    ensures RecordsKept(w, a)
  {
    match a
    case HandOver => HandOverActionKeeps(w);
    case Hear(out) => HearActionKeeps(w, out);
    case MarkInputs(o) => MarkInputsKeeps(w, o);
    case Settle(o) => SettleKeeps(w, o);
  }

  predicate Resends(a: Action) {
    a.SaveResend? || a.HandOverAgain? || a.HearAgain? || a.SettleAgain?
  }

  lemma RebroadcastKeeps(w: World, a: Action)
    requires RecordInv(w) && Enabled(w, a) && Resends(a)
    ensures RecordsKept(w, a)
  {
    match a
    case SaveResend(id, o) => ResendKeeps(w, id, o);
    case HandOverAgain => HandOverAgainKeeps(w);
    case HearAgain(out) => HearAgainKeeps(w, out);
    case SettleAgain(o) => SettleAgainKeeps(w, o);
  }

  predicate Ends(a: Action) {
    a.ConfirmInputs? || a.SaveConfirmed? || a.SaveDepth? || a.Abandon?
  }

  lemma EndingKeeps(w: World, a: Action)
    requires RecordInv(w) && Enabled(w, a) && Ends(a)
    ensures RecordsKept(w, a)
  {
    if a.ConfirmInputs? || a.SaveConfirmed? {
      ConfirmingKeeps(w, a);
    } else {
      match a
      case SaveDepth(id, depth, o) => SaveDepthKeeps(w, id, depth, o);
      case Abandon(id, wait, o) => AbandonKeeps(w, id, wait, o);
    }
  }

  lemma ConfirmingKeeps(w: World, a: Action)
    requires RecordInv(w) && Enabled(w, a) && (a.ConfirmInputs? || a.SaveConfirmed?)
    ensures RecordsKept(w, a)
  {
    match a
    case ConfirmInputs(id, depth, o) => ConfirmInputsKeeps(w, id, depth, o);
    case SaveConfirmed(o) => SaveConfirmedKeeps(w, o);
  }

  lemma ApplyKeeps(w: World, a: Action)
    requires RecordInv(w) && Enabled(w, a)
    ensures RecordsKept(w, a)
  {
    if Quiet(a) {
      QuietActionKeeps(w, a);
    } else if Builds(a) {
      BuildKeeps(w, a);
    } else if a.SendReserve? || a.Touch? || a.SaveAttempt? {
      BeforeSendKeeps(w, a);
    } else if Sends(a) {
      AfterSendKeeps(w, a);
    } else if Resends(a) {
      RebroadcastKeeps(w, a);
    } else if Ends(a) {
      EndingKeeps(w, a);
    } else if a.Release? || a.Forget? {
      EndActionKeeps(w, a);
    } else {
      OutsideKeeps(w, a);
    }
  }

  lemma StepKeeps(w: World, a: Action)
    requires RecordInv(w) && Enabled(w, a)
    ensures RecordInv(Step(w, a))
  {
    ApplyKeeps(w, a);
    QuietKeeps(Apply(w, a), Step(w, a));
  }

  lemma MarkedIfOut(w: World, f: Intents, k: nat)
    requires FileInv(w) && SendsInv(w) && f in w.storeCrash && k < |w.sends|
    ensures w.sends[k].id in f && Sound(f[w.sends[k].id])
    ensures MayBeOut(w.sends[k]) ==> f[w.sends[k].id].maybeRelayed
  {
    assert SendInv(w, w.sends[k]);
  }
}
