/** The withdrawal engine: its transitions as sequences of store writes,
    spent-set writes and sends. A ghost trace follows every one of them as a
    step of the protocol, so an engine in a valid state is at the end of a run
    and everything proved of runs holds of it. */
module WithdrawalEngine {
  import opened AtomicFile
  import opened SpentSet
  import opened Broadcaster
  import SpentStore
  import opened IntentStore
  import opened Withdrawal
  import opened WithdrawalOwnership
  import opened WithdrawalSender
  import opened WithdrawalRecovery
  import opened WithdrawalRedrive

  /** What the selector and the signer answer Build with. */
  datatype Selection = Selected(inputs: seq<Outpoint>) | SelectLater | SelectNever
  datatype Signing = Signed(rawHex: string, txid: string) | SignLater | SignNever

  datatype BuildResult =
    | BuildOk | BuildWrongState | BuildNotSaved | BuildNotDurable
    | BuildDeferred(saved: WriteOutcome) | BuildFailed(saved: WriteOutcome)

  /** `at` is the time saved with the attempt. */
  datatype SendResult = Handed(at: nat, saved: WriteOutcome) | SendWrongState | SendHeld | NotReserved | NotRecorded

  datatype Done = Ok(o: WriteOutcome) | WrongState | NotYet | NotClear | ChainFailed

  /** A node's answer to a question, and what Abandon's questions came to. */
  datatype Answer = Yes | No | Fails
  datatype Check = AllClear | Refuted | Unanswered

  ghost predicate LostPower(w: World, intents: File<Intents>, entries: File<Entries>)
    reads intents, entries
  {
    && intents.visible in w.storeCrash && intents.crash == {intents.visible}
    && entries.visible in w.spentCrash && entries.crash == {entries.visible}
  }

  ghost predicate Ended(w: World, intents: File<Intents>, entries: File<Entries>)
    reads intents, entries
  {
    && intents.visible == w.store && intents.crash == w.storeCrash && intents.Valid()
    && entries.visible == w.spentSeen && entries.crash == w.spentCrash && entries.Valid()
  }

  // ----- What the steps that save a record come to -----

  lemma AttemptStep(w: World, id: string, o: WriteOutcome)
    requires w.call == Reserving(id) && id in w.store
    ensures Apply(w, SaveAttempt(o)) == Saved(w, id, AttemptRecord(w.store[id], w.clock), o)
                                        .(call := if o.Durable? then Ready(id, Prior(w.store[id])) else Idle)
  {
  }

  lemma MarkInputsStep(w: World, id: string, prior: bool, reply: Reply, o: WriteOutcome)
    requires w.call == Answered(id, prior, reply) && id in w.store
    ensures Apply(w, MarkInputs(o)) == MarkedSpent(w, id, w.store[id].inputs, MarkTxid(w.store[id], reply), o)
                                       .(call := Marked(id, prior, reply))
  {
  }

  lemma HearAgainStep(w: World, id: string, before: nat, out: Outcome)
    requires w.call == Rewaiting(id, before)
    ensures Apply(w, HearAgain(out)) == WithAnswer(w, out).(call := Reanswered(id, before, out))
  {
  }

  lemma SendReserveStep(w: World, id: string, ttl: nat, o: WriteOutcome)
    requires id in w.store && w.call == Idle
    ensures Apply(w, SendReserve(id, ttl, o)) == ReserveIfNeeded(w, id, w.store[id].inputs, ttl, o)
                                                 .(call := if ReserveSucceeds(w, id, w.store[id].inputs, o) then
                                                   Reserving(id) else Idle)
  {
  }

  lemma ReleaseStep(w: World, id: string, o: WriteOutcome)
    requires w.call == ReleaseDue(id)
    ensures Apply(w, Release(o)) == KeptIfChanged(w, AfterRelease(w.spent, id), o).(call := Idle)
  {
  }

  lemma BuildReserveStep(w: World, id: string, inputs: seq<Outpoint>, ttl: nat, o: WriteOutcome)
    requires w.call == Idle
    ensures Apply(w, BuildReserve(id, inputs, ttl, o)) ==
              ReserveIfNeeded(w, id, inputs, ttl, o).(call := if ReserveSucceeds(w, id, inputs, o) then
                                                      Building(id, inputs) else Idle)
  {
  }

  lemma HandOverStep(w: World, id: string, prior: bool)
    requires w.call == Ready(id, prior) && id in w.store
    ensures Apply(w, HandOver) == HandedOver(w, id, false).(call := Waiting(id, prior))
  {
  }

  lemma HandOverAgainStep(w: World, id: string, before: nat)
    requires w.call == Resending(id, before) && id in w.store
    ensures Apply(w, HandOverAgain) == HandedOver(w, id, true).(call := Rewaiting(id, before))
  {
  }

  /** The answer goes to the hand-over just made. */
  lemma AnswerLast(sends: seq<Send>, id: string, r: Intent, again: bool, out: Outcome)
    ensures var more := sends + [Send(id, r.rawHex, r.sentAt, again, None)];
            more[|more| - 1 := more[|more| - 1].(heard := Some(out))] == sends + [SentNow(id, r, again, out)]
  {
  }

  lemma UnbuildableStep(w: World, id: string, o: WriteOutcome)
    requires w.phase == Running && InState(w, id, Created) && (w.call == Idle || (w.call.Building? && w.call.id == id))
    ensures Enabled(w, BuildFail(id, o))
    ensures Apply(w, BuildFail(id, o)) == Saved(w, id, UnbuildableRecord(w.store[id], w.clock), o)
                                          .(call := if o.Durable? then ReleaseDue(id) else Idle)
  {
  }

  lemma BuiltStep(w: World, id: string, inputs: seq<Outpoint>, rawHex: string, txid: string, o: WriteOutcome)
    requires w.call == Building(id, inputs) && id in w.store
    ensures Apply(w, BuildSave(rawHex, txid, o)) ==
            Saved(w, id, BuiltRecord(w.store[id], inputs, rawHex, txid, w.clock), o)
                                                    .(call := if o.NotWritten? then ReleaseDue(id) else Idle)
  {
  }

  class Engine {
    const store: FileStore
    const spent: SpentStore.Store
    const ttl: nat
    const wait: nat
    const required: int
    /** The wall clock as last read. */
    var clock: nat
    ghost var trace: seq<World>

    ghost predicate Agrees(w: World)
      reads this, store, store.file, spent, spent.file
    {
      && w.clock == clock
      && w.store == store.intents && w.storeCrash == store.file.crash
      && w.spent == spent.entries && w.spentSeen == spent.file.visible && w.spentCrash == spent.file.crash
    }

    ghost function World(): World
      requires trace != []
      reads this
    {
      trace[|trace| - 1]
    }

    /** The engine is at the end of a run of the protocol. */
    ghost predicate Tracks()
      reads this, store, store.file, spent, spent.file
    {
      store.Valid() && spent.Valid() && Run(trace) && Agrees(World())
    }

    /** ... and no transition is under way. */
    ghost predicate Valid()
      reads this, store, store.file, spent, spent.file
    {
      Tracks() && World().phase == Running && World().call == Idle
    }

    /** A process starting on the two files: as a power loss left them, or as
        the process before it did. */
    constructor (intents: File<Intents>, entries: File<Entries>, now: nat, ttl: nat, wait: nat, required: int,
                 ghost before: seq<World>)
      requires Run(before) && now > 0
      requires LostPower(before[|before| - 1], intents, entries) || Ended(before[|before| - 1], intents, entries)
      ensures Tracks() && World().phase == Restarted && World().call == Idle && World().remarked == {}
      ensures fresh(store) && fresh(spent) && store.file == intents && spent.file == entries
      ensures before <= trace
    {
      store := new FileStore(intents);
      spent := new SpentStore.Store(entries, now);
      clock := now;
      this.ttl := ttl;
      this.wait := wait;
      this.required := required;
      ghost var w := Step(before[|before| - 1], Tick(now));
      ghost var a := if LostPower(before[|before| - 1], intents, entries) then
          PowerLoss(intents.visible, entries.visible) else Exit;
      trace := before + [w] + [Step(w, a)];
      new;
      assert Enabled(before[|before| - 1], Tick(now));
      Extend(before, Tick(now));
      Extend(before + [w], a);
    }

    static lemma Extend(run: seq<World>, a: Action)
      requires Run(run) && Enabled(run[|run| - 1], a)
      ensures Run(run + [Step(run[|run| - 1], a)])
    {
      var next := run + [Step(run[|run| - 1], a)];
      forall k | 0 <= k < |next| - 1 ensures StepAt(next, k) {
        if k == |run| - 1 {
          assert Enabled(next[k], a) && next[k + 1] == Step(next[k], a);
        } else {
          assert StepAt(run, k);
        }
      }
    }

    /** Records that what just happened to the two files is this step, which
        leads to `w` but for the flags. */
    ghost method Advance(a: Action, w: World)
      requires Leads(w) && Enabled(World(), a) && w == Apply(World(), a)
      modifies this`trace
      ensures Tracks() && old(trace) <= trace
      ensures World() == w.(flags := World().flags)
    {
      Extend(trace, a);
      trace := trace + [Step(World(), a)];
    }

    /** Reading the clock: it may have gone anywhere. */
    method Now()
      requires Tracks()
      modifies this`clock, this`trace
      ensures Tracks() && old(trace) <= trace && World().clock == clock > 0
      ensures World() == old(World()).(clock := clock, flags := World().flags)
    {
      var t: nat :| t > 0;
      clock := t;
      Advance(Tick(t), World().(clock := t));
    }

    /** How far a write of a file gets. */
    method Disk() returns (steps: nat)
    {
      steps := *;
    }

    /** What just happened to the two files leads to `w`. */
    ghost predicate Leads(w: World)
      reads this, store, store.file, spent, spent.file
    {
      store.Valid() && spent.Valid() && Run(trace) && Agrees(w)
    }

    /** A conditional write of one record. */
    method WriteRecord(id: string, r: Intent, from: State) returns (o: WriteOutcome)
      requires Tracks() && id in store.intents && store.intents[id].state == from
      modifies store`intents, store.file
      ensures Leads(Saved(World(), id, r, o))
      ensures store.intents == if o.NotWritten? then old(store.intents) else old(store.intents)[id := r]
      ensures o.Durable? ==> store.file.crash == {store.intents}
    {
      var steps := Disk();
      var res := store.Update(id, r, from, steps);
      o := res.o;
    }

    /** A reservation of inputs, which leaves the set alone unless it is got. */
    method TakeInputs(id: string, inputs: seq<Outpoint>) returns (r: SpentStore.ReserveResult, ghost o: WriteOutcome)
      requires Tracks()
      modifies spent`entries, spent.file
      ensures r.Taken? <==> !CanReserve(old(spent.entries), inputs, id, clock)
      ensures r.Taken? ==> Tracks()
      ensures !r.Taken? ==> Leads(ReserveIfNeeded(World(), id, inputs, ttl, o))
      ensures !r.Taken? ==> (r.Got? <==> ReserveSucceeds(World(), id, inputs, o))
      ensures spent.entries == if r.Got? then AfterReserve(old(spent.entries), inputs, id, clock, ttl) else
              old(spent.entries)
    {
      var steps := Disk();
      r := spent.Reserve(inputs, id, clock, ttl, steps);
      o := if r.NotPersisted? then r.o else Durable;
      ReserveNothing(World(), id, inputs);
    }

    static lemma ReserveNothing(w: World, id: string, inputs: seq<Outpoint>)
      ensures NothingToReserve(w, id, inputs) ==>
                forall now, ttl :: AfterReserve(w.spent, inputs, id, now, ttl) == w.spent
    {
    }

    /** A record of a send, refused when another's is in the way. */
    method WriteMark(id: string, inputs: seq<Outpoint>, txid: string) returns (o: WriteOutcome)
      requires Tracks()
      modifies spent`entries, spent.file
      ensures Leads(MarkedSpent(World(), id, inputs, txid, o))
      ensures spent.entries == AfterMark(old(spent.entries), inputs, txid, id, clock)
    {
      var steps := Disk();
      var ok;
      ok, o := spent.MarkBroadcastFor(inputs, txid, id, clock, steps);
    }

    method WriteRelease(id: string) returns (o: WriteOutcome)
      requires Tracks()
      modifies spent`entries, spent.file
      ensures Leads(KeptIfChanged(World(), AfterRelease(World().spent, id), o))
      ensures spent.entries == AfterRelease(old(spent.entries), id)
    {
      var steps := Disk();
      o := spent.Release(id, steps);
    }

    // ----- Broadcast -----

    /** Re-reserves a Built intent's inputs for another TTL. */
    method ReserveForSend(id: string) returns (got: bool)
      requires Valid() && InState(World(), id, Built) && !Held(store.intents[id])
      modifies this`clock, this`trace, spent`entries, spent.file
      ensures Tracks() && old(trace) <= trace && World().phase == Running
      ensures World().sends == old(World().sends)
      ensures World().call == if got then Reserving(id) else Idle
      ensures spent.entries == if got then AfterReserve(old(spent.entries), store.intents[id].inputs, id, clock, ttl)
                               else old(spent.entries)
    {
      Now();
      var inputs := store.intents[id].inputs;
      ReservedIsOwned(World().spent, inputs, id, clock, ttl);
      var r, o := TakeInputs(id, inputs);
      if r.Taken? {
        return false;
      }
      ghost var w := ReserveIfNeeded(World(), id, inputs, ttl, o);
      SendReserveStep(World(), id, ttl, o);
      Advance(SendReserve(id, ttl, o), w.(call := if r.Got? then Reserving(id) else Idle));
      return r.Got?;
    }

    /** The attempt is on disk before anything is sent. */
    method RecordAttempt(id: string) returns (o: WriteOutcome)
      requires Tracks() && World().phase == Running && World().call == Reserving(id)
      requires InState(World(), id, Built) && !Held(store.intents[id])
      modifies this`clock, this`trace, store`intents, store.file
      ensures Tracks() && old(trace) <= trace && World().phase == Running
      ensures World().sends == old(World().sends)
      ensures World().call == if o.Durable? then Ready(id, Prior(old(store.intents[id]))) else Idle
      ensures store.intents == if o.NotWritten? then old(store.intents)
                               else old(store.intents)[id := AttemptRecord(old(store.intents[id]), clock)]
      ensures o.Durable? ==> store.file.crash == {store.intents}
    {
      Now();
      var r := store.intents[id];
      o := WriteRecord(id, AttemptRecord(r, clock), Built);
      Attempted(id, o);
    }

    ghost method Attempted(id: string, o: WriteOutcome)
      requires trace != [] && World().call == Reserving(id) && id in World().store
      requires Leads(Saved(World(), id, AttemptRecord(World().store[id], World().clock), o))
      modifies this`trace
      ensures Tracks() && old(trace) <= trace && World().phase == old(World()).phase
      ensures World().sends == old(World().sends)
      ensures World().call == if o.Durable? then Ready(id, Prior(old(World()).store[id])) else Idle
    {
      AttemptStep(World(), id, o);
      ghost var w := Saved(World(), id, AttemptRecord(World().store[id], World().clock), o);
      Advance(SaveAttempt(o), w.(call := if o.Durable? then Ready(id, Prior(World().store[id])) else Idle));
    }

    /** The one place Broadcast hands bytes to the node, and what came of it. */
    method Transmit(id: string, ghost prior: bool, out: Outcome)
      requires Tracks() && World().phase == Running && World().call == Ready(id, prior) && id in store.intents
      modifies this`trace
      ensures Tracks() && old(trace) <= trace && World().phase == Running
      ensures World().sends == old(World().sends) + [SentNow(id, store.intents[id], false, out)]
      ensures World().call == Answered(id, prior, Classify(out))
    {
      HandOverStep(World(), id, prior);
      Advance(HandOver, HandedOver(World(), id, false).(call := Waiting(id, prior)));
      AnswerLast(old(World().sends), id, store.intents[id], false, out);
      Listen(id, prior, out);
    }

    ghost method Listen(id: string, prior: bool, out: Outcome)
      requires Tracks() && World().phase == Running && World().call == Waiting(id, prior)
      requires World().sends != []
      modifies this`trace
      ensures Tracks() && old(trace) <= trace && World().phase == Running &&
              World().call == Answered(id, prior, Classify(out))
      ensures var sends := old(World().sends);
              World().sends == sends[|sends| - 1 := sends[|sends| - 1].(heard := Some(out))]
    {
      Advance(Hear(out), WithAnswer(World(), out).(call := Answered(id, prior, Classify(out))));
    }

    /** Makes the inputs permanent when the answer asks for it. */
    method MarkIfDue(id: string, prior: bool, reply: Reply)
      requires Tracks() && World().phase == Running && World().call == Answered(id, prior, reply) && id in store.intents
      modifies this`clock, this`trace, spent`entries, spent.file
      ensures Tracks() && old(trace) <= trace && World().phase == Running
      ensures World().sends == old(World().sends)
      ensures World().call == if Marks(prior, reply) then Marked(id, prior, reply) else Answered(id, prior, reply)
      ensures Marks(prior, reply) ==>
                AllMarked(spent.entries, store.intents[id].inputs, id, MarkTxid(store.intents[id], reply))
      ensures !Marks(prior, reply) ==> spent.entries == old(spent.entries)
      ensures Elsewhere(old(spent.entries), spent.entries, store.intents[id].inputs, id)
    {
      if Marks(prior, reply) {
        MarkSent(id, prior, reply);
      }
    }

    /** Nothing is in the way of marking the inputs of an answered send. */
    lemma MarkWillDo(id: string, reply: Reply)
      requires Tracks() && World().call.Answered? && World().call.id == id && World().call.reply == reply &&
               id in store.intents
      ensures CanMark(spent.entries, store.intents[id].inputs, MarkTxid(store.intents[id], reply), id)
    {
      assert Reachable(World());
      AnsweredMarkSucceeds(World(), Durable);
    }

    method MarkSent(id: string, ghost prior: bool, reply: Reply)
      requires Tracks() && World().phase == Running && World().call == Answered(id, prior, reply) && id in store.intents
      requires Marks(prior, reply)
      modifies this`clock, this`trace, spent`entries, spent.file
      ensures Tracks() && old(trace) <= trace && World().phase == Running
      ensures World().sends == old(World().sends) && World().call == Marked(id, prior, reply)
      ensures AllMarked(spent.entries, store.intents[id].inputs, id, MarkTxid(store.intents[id], reply))
      ensures Elsewhere(old(spent.entries), spent.entries, store.intents[id].inputs, id)
    {
      Now();
      var r := store.intents[id];
      MarkWillDo(id, reply);
      var txid := MarkTxid(r, reply);
      MarkLeaves(spent.entries, r.inputs, txid, id, clock);
      var o := WriteMark(id, r.inputs, txid);
      MarkedNow(id, prior, reply, o);
    }

    ghost method MarkedNow(id: string, prior: bool, reply: Reply, o: WriteOutcome)
      requires trace != [] && World().phase == Running && World().call == Answered(id, prior, reply)
      requires id in World().store && Marks(prior, reply)
      requires Leads(MarkedSpent(World(), id, World().store[id].inputs, MarkTxid(World().store[id], reply), o))
      modifies this`trace
      ensures Tracks() && old(trace) <= trace && World().phase == Running
      ensures World().sends == old(World().sends) && World().call == Marked(id, prior, reply)
    {
      ghost var r := World().store[id];
      MarkInputsStep(World(), id, prior, reply, o);
      Advance(MarkInputs(o), MarkedSpent(World(), id, r.inputs, MarkTxid(r, reply), o)
                             .(call := Marked(id, prior, reply)));
    }

    /** Saves the verdict, and frees the inputs only once a rejection is on
        disk. */
    method SaveVerdict(id: string, prior: bool, reply: Reply) returns (o: WriteOutcome)
      requires Tracks() && World().phase == Running && InState(World(), id, Built)
      requires World().call == if Marks(prior, reply) then Marked(id, prior, reply) else Answered(id, prior, reply)
      modifies this`clock, this`trace, store`intents, store.file, spent`entries, spent.file
      ensures Valid() && old(trace) <= trace
      ensures World().sends == old(World().sends)
      ensures !o.NotWritten? ==>
                store.intents == old(store.intents)[id := SettledRecord(old(store.intents[id]), prior, reply, clock)]
      ensures o.NotWritten? ==> store.intents == old(store.intents)
      ensures !(reply.Rejected? && !prior && o.Durable?) ==> spent.entries == old(spent.entries)
      ensures reply.Rejected? && !prior && o.Durable? ==> spent.entries == AfterRelease(old(spent.entries), id)
    {
      o := SaveSettled(id, prior, reply);
      if reply.Rejected? && !prior && o.Durable? {
        Free(id);
      }
    }

    method SaveSettled(id: string, prior: bool, reply: Reply) returns (o: WriteOutcome)
      requires Tracks() && World().phase == Running && InState(World(), id, Built)
      requires World().call == if Marks(prior, reply) then Marked(id, prior, reply) else Answered(id, prior, reply)
      modifies this`clock, this`trace, store`intents, store.file
      ensures Tracks() && old(trace) <= trace && World().phase == Running
      ensures World().sends == old(World().sends)
      ensures World().call == if reply.Rejected? && !prior && o.Durable? then ReleaseDue(id) else Idle
      ensures !o.NotWritten? ==>
                store.intents == old(store.intents)[id := SettledRecord(old(store.intents[id]), prior, reply, clock)]
      ensures o.NotWritten? ==> store.intents == old(store.intents)
    {
      Now();
      var r := SettledRecord(store.intents[id], prior, reply, clock);
      o := WriteRecord(id, r, Built);
      Advance(Settle(o), Settled(World(), id, prior, reply, o));
    }

    /** Drops the reservation of an intent that is over. */
    method Free(id: string)
      requires Tracks() && World().phase == Running && World().call == ReleaseDue(id)
      modifies this`trace, spent`entries, spent.file
      ensures Valid() && old(trace) <= trace
      ensures World().sends == old(World().sends)
      ensures spent.entries == AfterRelease(old(spent.entries), id)
    {
      var o := WriteRelease(id);
      ReleaseStep(World(), id, o);
      Advance(Release(o), KeptIfChanged(World(), AfterRelease(World().spent, id), o).(call := Idle));
    }

    method SendAndSettle(id: string, prior: bool, out: Outcome) returns (o: WriteOutcome)
      requires Tracks() && World().phase == Running && World().call == Ready(id, prior) && InState(World(), id, Built)
      modifies this`clock, this`trace, store`intents, store.file, spent`entries, spent.file
      ensures Valid() && old(trace) <= trace
      ensures World().sends == old(World().sends) + [SentNow(id, old(store.intents[id]), false, out)]
      ensures store.intents ==
              if o.NotWritten? then old(store.intents)
              else old(store.intents)[id := SettledRecord(old(store.intents[id]), prior, Classify(out), clock)]
      ensures Marks(prior, Classify(out)) ==>
                AllMarked(spent.entries, old(store.intents[id]).inputs, id,
                          MarkTxid(old(store.intents[id]), Classify(out)))
      ensures Elsewhere(old(spent.entries), spent.entries, old(store.intents[id]).inputs, id)
      ensures !Held(old(store.intents[id])) ==>
                StillStands(old(spent.entries), spent.entries, old(store.intents[id]), store.intents[id], id)
    {
      Transmit(id, prior, out);
      MarkIfDue(id, prior, Classify(out));
      ghost var m := spent.entries;
      o := SaveVerdict(id, prior, Classify(out));
      VerdictLeaves(old(spent.entries), m, spent.entries, old(store.intents[id]), store.intents[id], id, prior,
                    Classify(out), o, clock);
    }

    /** A send that was refused its inputs is recorded, if the record lands. */
    method NoteRefusal(id: string)
      requires Valid() && InState(World(), id, Built) && !Held(store.intents[id])
      modifies this`clock, this`trace, store`intents, store.file
      ensures Valid() && old(trace) <= trace
      ensures World().sends == old(World().sends)
      ensures store.intents == old(store.intents) ||
              store.intents == old(store.intents)[id := old(store.intents[id]).(updatedAt := clock)]
    {
      Now();
      var r := store.intents[id];
      var o := WriteRecord(id, r.(updatedAt := clock), Built);
      Advance(Touch(id, o), Saved(World(), id, r.(updatedAt := clock), o));
    }

    /** Sends a Built intent's stored bytes. `out` is what will come of it if
        anything is sent. Nothing goes out unless the inputs are the
        intent's own and the attempt is on disk; what is saved afterwards is a
        function of the record, of whether an earlier attempt may be out, and of
        the answer. */
    method Broadcast(id: string, out: Outcome) returns (r: SendResult, ghost keep: nat)
      requires Valid()
      modifies this`clock, this`trace, store`intents, store.file, spent`entries, spent.file
      ensures Valid() && old(trace) <= trace
      ensures r.SendWrongState? <==> !InState(old(World()), id, Built)
      ensures r.SendHeld? <==> InState(old(World()), id, Built) &&
                               (old(store.intents)[id].nodeTxid != "" || old(store.intents)[id].hold)
      ensures r.SendWrongState? || r.SendHeld? ==>
                store.intents == old(store.intents) && spent.entries == old(spent.entries)
      ensures r.NotReserved? ==>
                store.intents == old(store.intents) ||
                store.intents == old(store.intents)[id := old(store.intents)[id].(updatedAt := clock)]
      ensures r.NotRecorded? ==>
                store.intents == old(store.intents) ||
                store.intents == old(store.intents)[id := old(store.intents)[id].(
                  attempts := old(store.intents)[id].attempts + 1, maybeRelayed := true, sentAt := clock,
                  updatedAt := clock)]
      ensures !r.Handed? ==> World().sends == old(World().sends)
      ensures r.Handed? ==>
                && World().sends == old(World().sends) +
                     [Send(id, old(store.intents)[id].rawHex, r.at, false, Some(out))]
                && Verdict(old(store.intents), store.intents, id, Classify(out), r, clock)
                && (if r.saved.NotWritten? then store.intents[id] == old(store.intents)[id].(
                      attempts := old(store.intents)[id].attempts + 1, maybeRelayed := true, sentAt := r.at,
                      updatedAt := r.at)
                    else AnswerDecides(old(store.intents)[id], store.intents[id], out, r.at, clock))
                && AnswerMarks(old(store.intents)[id], spent.entries, out, id)
      ensures !r.SendWrongState? && !r.SendHeld? ==>
                SendLeaves(old(spent.entries), spent.entries, old(store.intents), store.intents, id, r, keep)
    {
      keep := 0;
      if id !in store.intents || store.intents[id].state != Built {
        return SendWrongState, keep;
      }
      if Held(store.intents[id]) {
        return SendHeld, keep;
      }
      r, keep := SendBuilt(id, out);
      if r.Handed? {
        AnswerDecidesRecord(old(store.intents)[id], out, r.at, clock);
        AnswerDecidesMarks(old(store.intents)[id], spent.entries, out, id);
      }
    }

    method SendBuilt(id: string, out: Outcome) returns (r: SendResult, ghost keep: nat)
      requires Valid() && InState(World(), id, Built) && !Held(store.intents[id])
      modifies this`clock, this`trace, store`intents, store.file, spent`entries, spent.file
      ensures Valid() && old(trace) <= trace
      ensures !r.SendWrongState? && !r.SendHeld?
      ensures r.NotReserved? ==>
                store.intents == old(store.intents) ||
                store.intents == old(store.intents)[id := old(store.intents)[id].(updatedAt := clock)]
      ensures !r.NotReserved? ==>
                AttemptOutcome(old(World()), World(), old(store.intents), store.intents, spent.entries, id, out, r,
                               clock)
      ensures r.NotReserved? ==> World().sends == old(World().sends)
      ensures SendLeaves(old(spent.entries), spent.entries, old(store.intents), store.intents, id, r, keep)
    {
      var got := ReserveForSend(id);
      keep := clock;
      ghost var rec := store.intents[id];
      ReservedStands(old(spent.entries), rec, id, clock, ttl);
      if got {
        ghost var m := spent.entries;
        r := AttemptAndSend(id, out);
        ElsewhereOn(old(spent.entries), m, spent.entries, rec.inputs, id);
      } else {
        NoteRefusal(id);
        return NotReserved, keep;
      }
    }

    method AttemptAndSend(id: string, out: Outcome) returns (r: SendResult)
      requires Tracks() && World().phase == Running && World().call == Reserving(id)
      requires InState(World(), id, Built) && !Held(store.intents[id])
      modifies this`clock, this`trace, store`intents, store.file, spent`entries, spent.file
      ensures Valid() && old(trace) <= trace && (r.Handed? || r.NotRecorded?)
      ensures AttemptOutcome(old(World()), World(), old(store.intents), store.intents, spent.entries, id, out, r, clock)
      ensures id in store.intents && Elsewhere(old(spent.entries), spent.entries, old(store.intents[id]).inputs, id)
      ensures StillStands(old(spent.entries), spent.entries, old(store.intents[id]), store.intents[id], id)
    {
      var prior := Prior(store.intents[id]);
      var recorded := RecordAttempt(id);
      if !recorded.Durable? {
        return NotRecorded;
      }
      var at := clock;
      assert StillStands(spent.entries, spent.entries, old(store.intents[id]), store.intents[id], id);
      var o := SendAndSettle(id, prior, out);
      r := Handed(at, o);
    }

    // ----- Build -----

    method ReserveForBuild(id: string, inputs: seq<Outpoint>) returns (got: bool)
      requires Valid() && InState(World(), id, Created)
      modifies this`clock, this`trace, spent`entries, spent.file
      ensures Tracks() && old(trace) <= trace && World().phase == Running
      ensures World().sends == old(World().sends)
      ensures World().call == if got then Building(id, inputs) else Idle
      ensures got ==> forall p :: p in inputs ==> OwnedBy(spent.entries, p, id)
      ensures SameForOthers(old(spent.entries), spent.entries, id)
      ensures !got ==> spent.entries == old(spent.entries)
    {
      Now();
      ReservedIsOwned(World().spent, inputs, id, clock, ttl);
      var r, o := TakeInputs(id, inputs);
      if r.Taken? {
        return false;
      }
      ghost var w := ReserveIfNeeded(World(), id, inputs, ttl, o);
      BuildReserveStep(World(), id, inputs, ttl, o);
      Advance(BuildReserve(id, inputs, ttl, o), w.(call := if r.Got? then Building(id, inputs) else Idle));
      return r.Got?;
    }

    /** An attempt that did not settle the intent: it waits, Created. */
    method DeferBuild(id: string) returns (o: WriteOutcome)
      requires Valid() && InState(World(), id, Created)
      modifies this`clock, this`trace, store`intents, store.file
      ensures Valid() && old(trace) <= trace
      ensures World().sends == old(World().sends)
      ensures store.intents == if o.NotWritten? then old(store.intents)
                               else old(store.intents)[id := DeferredRecord(old(store.intents)[id], clock)]
    {
      Now();
      var r := DeferredRecord(store.intents[id], clock);
      o := WriteRecord(id, r, Created);
      Advance(Defer(id, o), Saved(World(), id, r, o));
    }

    /** The verdict lands before the inputs are freed; a verdict that did not
        land durably frees nothing. */
    method FailBuild(id: string) returns (o: WriteOutcome)
      requires Tracks() && World().phase == Running && InState(World(), id, Created)
      requires World().call == Idle || (World().call.Building? && World().call.id == id)
      modifies this`clock, this`trace, store`intents, store.file, spent`entries, spent.file
      ensures Valid() && old(trace) <= trace
      ensures World().sends == old(World().sends)
      ensures store.intents == if o.NotWritten? then old(store.intents)
                               else old(store.intents)[id := UnbuildableRecord(old(store.intents)[id], clock)]
      ensures spent.entries == if o.Durable? then AfterRelease(old(spent.entries), id) else old(spent.entries)
      ensures o.Durable? ==> store.file.crash == {store.intents}
    {
      o := SaveUnbuildable(id);
      if o.Durable? {
        Free(id);
      }
    }

    method SaveUnbuildable(id: string) returns (o: WriteOutcome)
      requires Tracks() && World().phase == Running && InState(World(), id, Created)
      requires World().call == Idle || (World().call.Building? && World().call.id == id)
      modifies this`clock, this`trace, store`intents, store.file
      ensures Tracks() && old(trace) <= trace && World().phase == Running
      ensures World().sends == old(World().sends)
      ensures World().call == if o.Durable? then ReleaseDue(id) else Idle
      ensures o.Durable? ==> store.file.crash == {store.intents}
      ensures store.intents == if o.NotWritten? then old(store.intents)
                               else old(store.intents)[id := UnbuildableRecord(old(store.intents)[id], clock)]
    {
      Now();
      var r := UnbuildableRecord(store.intents[id], clock);
      o := WriteRecord(id, r, Created);
      UnbuildableStep(World(), id, o);
      ghost var w := Saved(World(), id, r, o);
      Advance(BuildFail(id, o), w.(call := if o.Durable? then ReleaseDue(id) else Idle));
    }

    method SaveBuilt(id: string, inputs: seq<Outpoint>, rawHex: string, txid: string) returns (r: BuildResult)
      requires Tracks() && World().phase == Running && World().call == Building(id, inputs) &&
               InState(World(), id, Created)
      requires forall p :: p in inputs ==> OwnedBy(spent.entries, p, id)
      modifies this`clock, this`trace, store`intents, store.file, spent`entries, spent.file
      ensures Valid() && old(trace) <= trace
      ensures World().sends == old(World().sends)
      ensures r.BuildOk? || r.BuildNotDurable? || r.BuildNotSaved?
      ensures BuildOutcome(old(store.intents), store.intents, spent.entries, id, Signed(rawHex, txid), inputs, r, clock)
    {
      Now();
      var built := BuiltRecord(store.intents[id], inputs, rawHex, txid, clock);
      var o := WriteRecord(id, built, Created);
      BuiltStep(World(), id, inputs, rawHex, txid, o);
      ghost var w := Saved(World(), id, built, o);
      Advance(BuildSave(rawHex, txid, o), w.(call := if o.NotWritten? then ReleaseDue(id) else Idle));
      if o.NotWritten? {
        Free(id); // not saved, so it must not reach the network
        return BuildNotSaved;
      }
      return if o.Durable? then BuildOk else BuildNotDurable;
    }

    /** Selects, reserves, signs, saves. The answers of the address check, the
        selector and the signer are given; Later stands for an error that says
        nothing about the intent. A build put off leaves the intent Created with
        the attempt counted, and one given up leaves it Failed, unless the record
        could not be saved; neither leaves it a reservation it did not have, but
        for a verdict that is not durable. */
    method Build(id: string, validDestination: bool, selection: Selection, signing: Signing) returns (r: BuildResult)
      requires Valid()
      modifies this`clock, this`trace, store`intents, store.file, spent`entries, spent.file
      ensures Valid() && old(trace) <= trace
      ensures World().sends == old(World().sends)
      ensures r.BuildWrongState? <==> !InState(old(World()), id, Created)
      ensures r.BuildWrongState? ==> store.intents == old(store.intents) && spent.entries == old(spent.entries)
      ensures r.BuildOk? || r.BuildNotDurable? || r.BuildNotSaved? ==>
                && validDestination && selection.Selected? && signing.Signed?
                && BuildOutcome(old(store.intents), store.intents, spent.entries, id, signing, selection.inputs, r,
                                clock)
      ensures r.BuildOk? || r.BuildNotDurable? ==>
                store.intents == old(store.intents)[id := old(store.intents)[id].(
                  state := Built, rawHex := signing.rawHex, txid := signing.txid, inputs := selection.inputs,
                  updatedAt := clock)]
      ensures r.BuildDeferred? && !r.saved.NotWritten? ==>
                store.intents == old(store.intents)[id := old(store.intents)[id].(
                  attempts := old(store.intents)[id].attempts + 1, updatedAt := clock)]
      ensures r.BuildFailed? && !r.saved.NotWritten? ==>
                store.intents == old(store.intents)[id := old(store.intents)[id].(
                  state := Failed, rawHex := "", txid := "", inputs := [], updatedAt := clock)]
      ensures r.BuildDeferred? ==>
                validDestination && !selection.SelectNever? &&
                PutOff(old(store.intents), store.intents, old(spent.entries), spent.entries, id, r.saved, clock)
      ensures r.BuildFailed? ==>
                && (!validDestination || selection.SelectNever? || signing.SignNever?)
                && GivenUp(old(store.intents), store.intents, old(spent.entries), spent.entries, id, r.saved, clock)
    {
      if id !in store.intents || store.intents[id].state != Created {
        return BuildWrongState;
      }
      if !validDestination || selection.SelectNever? {
        var o := FailBuild(id);
        return BuildFailed(o);
      }
      if selection.SelectLater? {
        var o := DeferBuild(id);
        return BuildDeferred(o);
      }
      r := ReserveAndSign(id, selection.inputs, signing);
    }

    method ReserveAndSign(id: string, inputs: seq<Outpoint>, signing: Signing) returns (r: BuildResult)
      requires Valid() && InState(World(), id, Created)
      modifies this`clock, this`trace, store`intents, store.file, spent`entries, spent.file
      ensures Valid() && old(trace) <= trace
      ensures World().sends == old(World().sends)
      ensures !r.BuildWrongState?
      ensures r.BuildOk? || r.BuildNotDurable? || r.BuildNotSaved? ==>
                && signing.Signed?
                && BuildOutcome(old(store.intents), store.intents, spent.entries, id, signing, inputs, r, clock)
      ensures r.BuildDeferred? ==>
                PutOff(old(store.intents), store.intents, old(spent.entries), spent.entries, id, r.saved, clock)
      ensures r.BuildFailed? ==>
                && signing.SignNever?
                && GivenUp(old(store.intents), store.intents, old(spent.entries), spent.entries, id, r.saved, clock)
    {
      var got := ReserveForBuild(id, inputs);
      if !got {
        var o := DeferBuild(id);
        return BuildDeferred(o);
      }
      r := SignAndSave(id, inputs, signing);
    }

    method SignAndSave(id: string, inputs: seq<Outpoint>, signing: Signing) returns (r: BuildResult)
      requires Tracks() && World().phase == Running && World().call == Building(id, inputs) &&
               InState(World(), id, Created)
      requires forall p :: p in inputs ==> OwnedBy(spent.entries, p, id)
      modifies this`clock, this`trace, store`intents, store.file, spent`entries, spent.file
      ensures Valid() && old(trace) <= trace
      ensures World().sends == old(World().sends)
      ensures !r.BuildWrongState?
      ensures r.BuildOk? || r.BuildNotDurable? || r.BuildNotSaved? ==>
                && signing.Signed?
                && BuildOutcome(old(store.intents), store.intents, spent.entries, id, signing, inputs, r, clock)
      ensures r.BuildDeferred? ==>
                && spent.entries == AfterRelease(old(spent.entries), id)
                && store.intents == if r.saved.NotWritten? then old(store.intents)
                                    else old(store.intents)[id := DeferredRecord(old(store.intents)[id], clock)]
      ensures r.BuildFailed? ==>
                && signing.SignNever?
                && spent.entries == (if r.saved.Durable? then AfterRelease(old(spent.entries), id) else
                                     old(spent.entries))
                && store.intents == if r.saved.NotWritten? then old(store.intents)
                                    else old(store.intents)[id := UnbuildableRecord(old(store.intents)[id], clock)]
    {
      match signing
      case Signed(rawHex, txid) => r := SaveBuilt(id, inputs, rawHex, txid);
      case SignNever =>
        var o := FailBuild(id);
        return BuildFailed(o);
      case SignLater =>
        var o := AbortBuild(id, inputs);
        return BuildDeferred(o);
    }

    /** Nothing signed: the reservation goes and the intent waits. */
    method AbortBuild(id: string, inputs: seq<Outpoint>) returns (o: WriteOutcome)
      requires Tracks() && World().phase == Running && World().call == Building(id, inputs) &&
               InState(World(), id, Created)
      modifies this`clock, this`trace, store`intents, store.file, spent`entries, spent.file
      ensures Valid() && old(trace) <= trace
      ensures World().sends == old(World().sends)
      ensures spent.entries == AfterRelease(old(spent.entries), id)
      ensures store.intents == if o.NotWritten? then old(store.intents)
                               else old(store.intents)[id := DeferredRecord(old(store.intents)[id], clock)]
    {
      Aborted(id);
      Free(id);
      o := DeferBuild(id);
    }

    ghost method Aborted(id: string)
      requires Tracks() && World().phase == Running && World().call.Building? && World().call.id == id
      modifies this`trace
      ensures Tracks() && old(trace) <= trace &&
              World() == old(World()).(call := ReleaseDue(id), flags := World().flags)
    {
      Advance(BuildAbort, World().(call := ReleaseDue(id)));
    }

    // ----- Submit -----

    /** Registers an intent. Of two submits of one id exactly one creates, and
        the other never writes over what the first has become; `fold` compares
        addresses without regard to case. */
    method Submit(id: string, address: string, amount: int, feeRate: int, validDestination: bool,
                  fold: (string, string) -> bool)
      returns (res: SaveResult, valid: bool, conflict: bool)
      requires Valid()
      modifies this`clock, this`trace, store`intents, store.file
      ensures Valid() && old(trace) <= trace
      ensures valid == (id != "" && address != "" && amount > 0 && feeRate > 0 && validDestination)
      ensures World().sends == old(World().sends) && spent.entries == old(spent.entries)
      ensures !valid || id in old(store.intents) ==> store.intents == old(store.intents)
      ensures valid ==> (res.Exists? <==> id in old(store.intents))
      ensures conflict <==>
                valid && id in old(store.intents) && !SameTerms(old(store.intents)[id], address, amount, feeRate, fold)
      ensures valid && res.Wrote? && !res.o.NotWritten? ==>
                store.intents == old(store.intents)[id := Intent(
                  address, amount, feeRate, Created, "", "", false, 0, 0, false, "", [], 0, 0, clock)]
    {
      if id == "" || address == "" || amount <= 0 || feeRate <= 0 || !validDestination {
        return Stale, false, false;
      }
      Now();
      var steps := Disk();
      res := store.Create(id, NewIntent(address, amount, feeRate, clock), steps);
      if res.Wrote? {
        Advance(Action.Submit(id, address, amount, feeRate, res.o),
                Saved(World(), id, NewIntent(address, amount, feeRate, clock), res.o));
        return res, true, false;
      }
      return res, true, !SameTerms(store.intents[id], address, amount, feeRate, fold);
    }

    // ----- Rebroadcast -----

    method RecordResend(id: string) returns (o: WriteOutcome)
      requires Valid() && InState(World(), id, State.Broadcast)
      modifies this`clock, this`trace, store`intents, store.file
      ensures Tracks() && old(trace) <= trace && World().phase == Running
      ensures World().sends == old(World().sends)
      ensures World().call == if o.Durable? then Resending(id, LastSent(old(store.intents[id]))) else Idle
      ensures store.intents == if o.NotWritten? then old(store.intents)
                               else old(store.intents)[id := ResendRecord(old(store.intents[id]), clock)]
    {
      Now();
      var r := store.intents[id];
      o := WriteRecord(id, ResendRecord(r, clock), State.Broadcast);
      ghost var w := Saved(World(), id, ResendRecord(r, clock), o);
      Advance(SaveResend(id, o), w.(call := if o.Durable? then Resending(id, LastSent(r)) else Idle));
    }

    method TransmitAgain(id: string, ghost before: nat, out: Outcome)
      requires Tracks() && World().phase == Running && World().call == Resending(id, before) && id in store.intents
      modifies this`trace
      ensures Tracks() && old(trace) <= trace && World().phase == Running
      ensures World().sends == old(World().sends) + [SentNow(id, store.intents[id], true, out)]
      ensures World().call == Reanswered(id, before, out)
    {
      SendAgain(id, before);
      AnswerLast(old(World().sends), id, store.intents[id], true, out);
      ListenAgain(id, before, out);
    }

    ghost method SendAgain(id: string, before: nat)
      requires Tracks() && World().phase == Running && World().call == Resending(id, before) && id in store.intents
      modifies this`trace
      ensures Tracks() && old(trace) <= trace && World().phase == Running && World().call == Rewaiting(id, before)
      ensures World().sends == old(World().sends) +
              [Send(id, store.intents[id].rawHex, store.intents[id].sentAt, true, None)]
    {
      HandOverAgainStep(World(), id, before);
      Advance(HandOverAgain, HandedOver(World(), id, true).(call := Rewaiting(id, before)));
    }

    ghost method ListenAgain(id: string, before: nat, out: Outcome)
      requires Tracks() && World().phase == Running && World().call == Rewaiting(id, before)
      requires World().sends != []
      modifies this`trace
      ensures Tracks() && old(trace) <= trace && World().phase == Running && World().call == Reanswered(id, before, out)
      ensures var sends := old(World().sends);
              World().sends == sends[|sends| - 1 := sends[|sends| - 1].(heard := Some(out))]
    {
      HearAgainStep(World(), id, before, out);
      Advance(HearAgain(out), WithAnswer(World(), out).(call := Reanswered(id, before, out)));
    }

    method SettleResend(id: string, before: nat, out: Outcome) returns (o: WriteOutcome)
      requires Tracks() && World().phase == Running && World().call == Reanswered(id, before, out)
      requires InState(World(), id, State.Broadcast)
      modifies this`clock, this`trace, store`intents, store.file
      ensures Valid() && old(trace) <= trace
      ensures World().sends == old(World().sends)
      ensures o.NotWritten? ==> store.intents == old(store.intents)
      ensures !o.NotWritten? ==>
                store.intents == old(store.intents)[id := ResentRecord(old(store.intents[id]), before, out, clock)]
    {
      Now();
      var r := ResentRecord(store.intents[id], before, out, clock);
      o := WriteRecord(id, r, State.Broadcast);
      Advance(SettleAgain(o), Saved(World(), id, r, o).(call := Idle));
    }

    /** Sends a Broadcast intent's bytes again. The state never changes. The time
        Abandon waits from, once saved, is that of this send exactly on success,
        when the node has the bytes mined, and on an error of none of the kinds
        permanent, transient and unauthorized; a lost reply is transient. */
    method Rebroadcast(id: string, out: Outcome) returns (r: SendResult)
      requires Valid()
      modifies this`clock, this`trace, store`intents, store.file
      ensures Valid() && old(trace) <= trace && spent.entries == old(spent.entries)
      ensures r.SendWrongState? <==> !InState(old(World()), id, State.Broadcast)
      ensures !r.Handed? ==> World().sends == old(World().sends)
      ensures r.Handed? ==>
                World().sends == old(World().sends) + [Send(id, old(store.intents)[id].rawHex, r.at, true, Some(out))]
      ensures r.SendWrongState? ==> store.intents == old(store.intents)
      ensures !r.Handed? && !r.SendWrongState? ==>
                store.intents == old(store.intents) ||
                store.intents == old(store.intents)[id := old(store.intents)[id].(
                  attempts := old(store.intents)[id].attempts + 1, sentAt := clock, updatedAt := clock)]
      ensures !r.SendWrongState? ==> InState(World(), id, State.Broadcast)
      ensures r.Handed? && r.saved.NotWritten? ==>
                store.intents == old(store.intents)[id := old(store.intents)[id].(
                  attempts := old(store.intents)[id].attempts + 1, sentAt := r.at, updatedAt := r.at)]
      ensures r.Handed? && !r.saved.NotWritten? ==>
                var b := old(store.intents)[id];
                store.intents == old(store.intents)[id := b.(
                  attempts := b.attempts + 1, updatedAt := clock,
                  sentAt :=
                    if out.Success? || AlreadyInChain in out.kinds || out.kinds !! {Permanent, Transient, Unauthorized}
                    then r.at else if b.sentAt == 0 then b.updatedAt else b.sentAt)]
    {
      if id !in store.intents || store.intents[id].state != State.Broadcast {
        return SendWrongState;
      }
      var before := LastSent(store.intents[id]);
      var recorded := RecordResend(id);
      if !recorded.Durable? {
        return NotRecorded;
      }
      var at := clock;
      var o := ResendAndSettle(id, before, out);
      ResentExactly(old(store.intents)[id], at, out, clock);
      return Handed(at, o);
    }

    method ResendAndSettle(id: string, before: nat, out: Outcome) returns (o: WriteOutcome)
      requires Tracks() && World().phase == Running && World().call == Resending(id, before) &&
               InState(World(), id, State.Broadcast)
      modifies this`clock, this`trace, store`intents, store.file
      ensures Valid() && old(trace) <= trace
      ensures World().sends == old(World().sends) + [SentNow(id, old(store.intents[id]), true, out)]
      ensures store.intents == if o.NotWritten? then old(store.intents)
                               else old(store.intents)[id := ResentRecord(old(store.intents[id]), before, out, clock)]
    {
      TransmitAgain(id, before, out);
      o := SettleResend(id, before, out);
    }

    // ----- UpdateConfirmations -----

    method ConfirmDepth(id: string, depth: int) returns (o: WriteOutcome)
      requires Valid() && InState(World(), id, State.Broadcast)
      modifies this`clock, this`trace, spent`entries, spent.file
      ensures Tracks() && old(trace) <= trace && World().phase == Running
      ensures World().sends == old(World().sends) && World().call == Confirming(id, depth)
      ensures spent.entries == AfterConfirm(old(spent.entries), store.intents[id].inputs)
    {
      var steps := Disk();
      var outs := store.intents[id].inputs;
      o := spent.ConfirmSpentAll(outs, steps);
      ghost var w := KeptIfChanged(World(), AfterConfirm(World().spent, outs), o);
      Advance(ConfirmInputs(id, depth, o),
              w.(confirmed := World().confirmed + (set p | p in outs), call := Confirming(id, depth)));
    }

    /** `depth` is the node's count. Confirmed is reached once, and only from
        Broadcast. */
    method UpdateConfirmations(id: string, depth: int) returns (r: Done)
      requires Valid()
      modifies this`clock, this`trace, store`intents, store.file, spent`entries, spent.file
      ensures Valid() && old(trace) <= trace
      ensures World().sends == old(World().sends)
      ensures r.NotYet? <==> required <= 0
      ensures r.WrongState? <==> required > 0 && !InState(old(World()), id, State.Broadcast)
      ensures !r.Ok? ==> store.intents == old(store.intents) && spent.entries == old(spent.entries)
      ensures r.Ok? && depth >= required ==>
                spent.entries == AfterConfirm(old(spent.entries), old(store.intents)[id].inputs)
      ensures r.Ok? && depth < required ==> spent.entries == old(spent.entries)
      ensures r.Ok? && !r.o.NotWritten? ==> store.intents == old(store.intents)[id := old(store.intents)[id].(
                  state := if depth >= required then Confirmed else
                      State.Broadcast, confirmations := depth, updatedAt := clock)]
    {
      if required <= 0 {
        return NotYet; // nothing would ever confirm
      }
      if id !in store.intents || store.intents[id].state != State.Broadcast {
        return WrongState;
      }
      if depth >= required {
        var o := ConfirmDepth(id, depth);
        r := FinishConfirm(id, depth);
      } else {
        r := RecordDepth(id, depth);
      }
    }

    method RecordDepth(id: string, depth: int) returns (r: Done)
      requires Valid() && InState(World(), id, State.Broadcast)
      modifies this`clock, this`trace, store`intents, store.file
      ensures Valid() && old(trace) <= trace && World().sends == old(World().sends) && r.Ok?
      ensures !r.o.NotWritten? ==> store.intents == old(store.intents)[id :=
                old(store.intents)[id].(state := State.Broadcast, confirmations := depth, updatedAt := clock)]
    {
      Now();
      var rec := store.intents[id].(confirmations := depth, updatedAt := clock);
      var o := WriteRecord(id, rec, State.Broadcast);
      Advance(SaveDepth(id, depth, o), Saved(World(), id, rec, o));
      return Ok(o);
    }

    method FinishConfirm(id: string, depth: int) returns (r: Done)
      requires Tracks() && World().phase == Running && World().call == Confirming(id, depth) &&
               InState(World(), id, State.Broadcast)
      modifies this`clock, this`trace, store`intents, store.file
      ensures Valid() && old(trace) <= trace && World().sends == old(World().sends) && r.Ok?
      ensures !r.o.NotWritten? ==> store.intents == old(store.intents)[id :=
                old(store.intents)[id].(state := Confirmed, confirmations := depth, updatedAt := clock)]
    {
      Now();
      var rec := store.intents[id].(state := Confirmed, confirmations := depth, updatedAt := clock);
      var o := WriteRecord(id, rec, State.Broadcast);
      Advance(SaveConfirmed(o), Saved(World(), id, rec, o).(call := Idle));
      return Ok(o);
    }

    // ----- Abandon -----

    method SaveAbandoned(id: string) returns (o: WriteOutcome)
      requires Valid() && id in store.intents
      requires store.intents[id].state == State.Broadcast ||
               (store.intents[id].state == Built && Held(store.intents[id]))
      requires clock - LastSent(store.intents[id]) >= wait
      modifies this`trace, store`intents, store.file
      ensures Tracks() && old(trace) <= trace && World().phase == Running
      ensures World().sends == old(World().sends)
      ensures World().call == if o.Durable? then ForgetDue(id) else Idle
      ensures store.intents == if o.NotWritten? then old(store.intents)
                               else old(store.intents)[id := AbandonedRecord(old(store.intents[id]), clock)]
    {
      var r := store.intents[id];
      o := WriteRecord(id, AbandonedRecord(r, clock), r.state);
      ghost var w := Saved(World(), id, AbandonedRecord(r, clock), o);
      Advance(Action.Abandon(id, wait, o), w.(call := if o.Durable? then ForgetDue(id) else Idle));
    }

    /** Asks the node about the transaction, under every txid the record has, and
        about every input. */
    static method AskNode(r: Intent, knows: string -> Answer, unspent: Outpoint -> Answer) returns (c: Check)
      ensures c.AllClear? <==>
                (forall t | t in Txids(r) :: knows(t).No?) && (forall p | p in r.inputs :: unspent(p).Yes?)
      ensures c.Refuted? ==> (exists t :: t in Txids(r) && knows(t).Yes?) || exists p :: p in r.inputs && unspent(p).No?
      ensures c.Unanswered? ==>
                (exists t :: t in Txids(r) && knows(t).Fails?) || exists p :: p in r.inputs && unspent(p).Fails?
    {
      var txids := [r.txid, r.nodeTxid];
      for k := 0 to |txids|
        invariant forall j | 0 <= j < k && txids[j] in Txids(r) :: knows(txids[j]).No?
      {
        if txids[k] != "" && txids[k] != NODE_TXID_UNKNOWN {
          assert txids[k] in Txids(r);
          if knows(txids[k]) != No {
            return if knows(txids[k]).Yes? then Refuted else Unanswered;
          }
        }
      }
      assert forall t | t in Txids(r) :: t == txids[0] || t == txids[1];
      for k := 0 to |r.inputs|
        invariant forall j | 0 <= j < k :: unspent(r.inputs[j]).Yes?
      {
        if unspent(r.inputs[k]) != Yes {
          assert r.inputs[k] in r.inputs;
          return if unspent(r.inputs[k]).No? then Refuted else Unanswered;
        }
      }
      return AllClear;
    }

    /** Only after the wait, and only when the node knows the transaction under
        none of its txids and has every input unspent. The entries go only after
        the verdict is on disk. */
    method Abandon(id: string, knows: string -> Answer, unspent: Outpoint -> Answer) returns (r: Done)
      requires Valid()
      modifies this`clock, this`trace, store`intents, store.file, spent`entries, spent.file
      ensures Valid() && old(trace) <= trace
      ensures World().sends == old(World().sends)
      ensures r.WrongState? <==> !(InState(old(World()), id, State.Broadcast) ||
                                   (InState(old(World()), id, Built) &&
                                    (old(store.intents)[id].nodeTxid != "" || old(store.intents)[id].hold)))
      ensures !r.Ok? ==> store.intents == old(store.intents) && spent.entries == old(spent.entries)
      ensures r.NotYet? <==>
                !r.WrongState? &&
                var b := old(store.intents)[id];
                clock - (if b.sentAt == 0 then b.updatedAt else b.sentAt) < wait
      ensures r.Ok? <==> !r.WrongState? && !r.NotYet? &&
                         var b := old(store.intents)[id];
                         (forall t | t == b.txid || t == b.nodeTxid :: t == "" || t == "unknown" || knows(t).No?) &&
                         (forall p | p in b.inputs :: unspent(p).Yes?)
      ensures r.Ok? && !r.o.NotWritten? ==>
                store.intents == old(store.intents)[id := old(store.intents)[id].(
                  state := Failed, abandonedAt := clock, updatedAt := clock)]
      ensures r.Ok? && !r.o.Durable? ==> spent.entries == old(spent.entries)
      ensures r.Ok? ==> spent.entries == old(spent.entries) || spent.entries == AfterForget(old(spent.entries), id)
    {
      if id !in store.intents ||
         !(store.intents[id].state == State.Broadcast ||
           (store.intents[id].state == Built && Held(store.intents[id]))) {
        return WrongState;
      }
      Now();
      if clock - LastSent(store.intents[id]) < wait {
        return NotYet;
      }
      var c := AskNode(store.intents[id], knows, unspent);
      if c.Refuted? {
        return NotClear;
      }
      if c.Unanswered? {
        return ChainFailed;
      }
      r := AbandonNow(id);
    }

    method AbandonNow(id: string) returns (r: Done)
      requires Valid() && id in store.intents
      requires store.intents[id].state == State.Broadcast ||
               (store.intents[id].state == Built && Held(store.intents[id]))
      requires clock - LastSent(store.intents[id]) >= wait
      modifies this`trace, store`intents, store.file, spent`entries, spent.file
      ensures Valid() && old(trace) <= trace && r.Ok?
      ensures World().sends == old(World().sends)
      ensures !r.o.NotWritten? ==>
                store.intents == old(store.intents)[id := AbandonedRecord(old(store.intents)[id], clock)]
      ensures !r.o.Durable? ==> spent.entries == old(spent.entries)
      ensures spent.entries == old(spent.entries) || spent.entries == AfterForget(old(spent.entries), id)
    {
      var o := SaveAbandoned(id);
      if o.Durable? {
        ForgetAbandoned(id);
      }
      return Ok(o);
    }

    method ForgetAbandoned(id: string)
      requires Tracks() && World().phase == Running && World().call == ForgetDue(id)
      modifies this`trace, spent`entries, spent.file
      ensures Valid() && old(trace) <= trace
      ensures World().sends == old(World().sends)
      ensures spent.entries == old(spent.entries) || spent.entries == AfterForget(old(spent.entries), id)
    {
      assert Reachable(World());
      ReachableInv(World());
      var steps := Disk();
      var o := spent.Forget(id, steps);
      Advance(Action.Forget(o), Forgotten(World(), id, o).(call := Idle));
    }

    // ----- Recover -----

    /** Everything Recover keeps while it repairs: no send, no record changed. */
    twostate predicate Repairing(phase: Phase)
      reads this, store, store.file, spent, spent.file
    {
      && Tracks() && old(trace) <= trace && trace != [] && old(trace) != []
      && World().phase == phase && World().call == Idle
      && World().sends == old(World().sends) && store.intents == old(store.intents)
    }

    method Remark(id: string)
      requires Tracks() && World().phase == Restarted && World().call == Idle && InState(World(), id, State.Broadcast)
      modifies this`clock, this`trace, spent`entries, spent.file
      ensures Repairing(Restarted) && World().remarked == old(World().remarked) + {id}
      ensures spent.entries ==
              AfterMark(old(spent.entries), store.intents[id].inputs, store.intents[id].txid, id, clock)
    {
      Now();
      var r := store.intents[id];
      var o := WriteMark(id, r.inputs, r.txid);
      ghost var w := MarkedSpent(World(), id, r.inputs, r.txid, o);
      Advance(Action.Remark(id, o), w.(remarked := World().remarked + {id}));
    }

    /** First pass: the inputs of Broadcast intents are marked again. */
    method RemarkAll() returns (ids: seq<string>, ghost times: seq<nat>)
      requires Tracks() && World().phase == Restarted && World().call == Idle
      modifies this`clock, this`trace, spent`entries, spent.file
      ensures Repairing(Phase.Repairing)
      ensures Lists(ids, store.intents, State.Broadcast) && |times| == |ids|
      ensures spent.entries == MarkAll(old(spent.entries), store.intents, ids, times)
    {
      ids := store.List(State.Broadcast);
      times := MarkListed(ids);
      MarksDone(ids);
    }

    ghost method MarksDone(ids: seq<string>)
      requires Tracks() && World().phase == Restarted && World().call == Idle
      requires forall id | InState(World(), id, State.Broadcast) :: id in ids
      requires forall k | 0 <= k < |ids| :: ids[k] in World().remarked
      modifies this`trace
      ensures Repairing(Phase.Repairing)
    {
      Advance(RemarksDone, World().(phase := Phase.Repairing));
    }

    method MarkListed(ids: seq<string>) returns (ghost times: seq<nat>)
      requires Tracks() && World().phase == Restarted && World().call == Idle
      requires Known(ids, store.intents) && forall k | 0 <= k < |ids| :: InState(World(), ids[k], State.Broadcast)
      modifies this`clock, this`trace, spent`entries, spent.file
      ensures Repairing(Restarted)
      ensures forall k | 0 <= k < |ids| :: ids[k] in World().remarked
      ensures |times| == |ids| && spent.entries == MarkAll(old(spent.entries), store.intents, ids, times)
    {
      times := [];
      ghost var s, m := store.intents, spent.entries;
      for k := 0 to |ids|
        invariant Repairing(Restarted)
        invariant |times| == k && forall j | 0 <= j < k :: ids[j] in World().remarked
        invariant spent.entries == MarkAll(m, s, ids[..k], times)
      {
        Remark(ids[k]);
        MarkAllNext(m, s, ids, times, clock);
        times := times + [clock];
      }
      assert ids[..|ids|] == ids;
    }

    method DropAbandonedOne(id: string) returns (o: WriteOutcome)
      requires Tracks() && World().phase == Phase.Repairing && World().call == Idle
      requires id != "" && Abandoned(store.intents, id)
      modifies this`trace, spent`entries, spent.file
      ensures Repairing(Phase.Repairing)
      ensures !o.NotWritten? ==> spent.entries == AfterForget(old(spent.entries), id)
    {
      var steps := Disk();
      o := spent.Forget(id, steps);
      Advance(DropAbandoned(id, o), Forgotten(World(), id, o));
    }

    /** Second pass: what abandoned intents still own is dropped. `landed` says
        that every write reached the file. */
    method DropAbandonedAll() returns (ids: seq<string>, landed: bool)
      requires Tracks() && World().phase == Phase.Repairing && World().call == Idle
      modifies this`trace, spent`entries, spent.file
      ensures Repairing(Phase.Repairing)
      ensures forall id :: id in ids <==> id != "" && Sender(old(spent.entries), id)
      ensures landed ==> spent.entries == DropAll(old(spent.entries), store.intents, ids)
    {
      ids := spent.Owners((e: Entry) => e.kind.Sent? && !e.confirmed && e.intent != "");
      landed := true;
      for k := 0 to |ids|
        invariant Repairing(Phase.Repairing)
        invariant landed ==> spent.entries == DropAll(old(spent.entries), store.intents, ids[..k])
      {
        assert ids[k] in ids && ids[..k + 1][..k] == ids[..k];
        if ids[k] in store.intents && store.intents[ids[k]].state == Failed && store.intents[ids[k]].abandonedAt != 0 {
          var o := DropAbandonedOne(ids[k]);
          landed := landed && !o.NotWritten?;
        }
      }
      assert ids[..|ids|] == ids;
    }

    method ReleaseOrphanOne(id: string)
      requires Tracks() && World().phase == Phase.Repairing && World().call == Idle
      requires IsIn(store.intents, id, {Created, Failed})
      modifies this`trace, spent`entries, spent.file
      ensures Repairing(Phase.Repairing) && spent.entries == AfterRelease(old(spent.entries), id)
    {
      var o := WriteRelease(id);
      Advance(ReleaseOrphan(id, o), KeptIfChanged(World(), AfterRelease(World().spent, id), o));
    }

    /** Third pass: reservations of intents with nothing built are released;
        those of ids the store does not know are kept. */
    method ReleaseOrphanReservations() returns (ids: seq<string>)
      requires Tracks() && World().phase == Phase.Repairing && World().call == Idle
      modifies this`trace, spent`entries, spent.file
      ensures Repairing(Phase.Repairing)
      ensures forall id :: id in ids <==> Reserver(old(spent.entries), id)
      ensures spent.entries == ReleaseAll(old(spent.entries), store.intents, ids)
    {
      ids := spent.Owners((e: Entry) => e.kind.Reserved?);
      for k := 0 to |ids|
        invariant Repairing(Phase.Repairing)
        invariant spent.entries == ReleaseAll(old(spent.entries), store.intents, ids[..k])
      {
        assert ids[..k + 1][..k] == ids[..k];
        if ids[k] in store.intents &&
            (store.intents[ids[k]].state == Created || store.intents[ids[k]].state == Failed) {
          ReleaseOrphanOne(ids[k]);
        }
      }
      assert ids[..|ids|] == ids;
    }

    method MarkHeldOne(id: string)
      requires Valid() && InState(World(), id, Built) && Held(store.intents[id])
      modifies this`clock, this`trace, spent`entries, spent.file
      ensures Repairing(Running)
      ensures spent.entries == Redriven(old(spent.entries), store.intents[id], id, clock, ttl)
    {
      Now();
      var r := store.intents[id];
      var o := WriteMark(id, r.inputs, HoldTxid(r));
      Advance(MarkHeld(id, o), MarkedSpent(World(), id, r.inputs, HoldTxid(r), o));
    }

    method RenewOne(id: string) returns (got: bool, landed: bool)
      requires Valid() && InState(World(), id, Built) && !Held(store.intents[id])
      modifies this`clock, this`trace, spent`entries, spent.file
      ensures Repairing(Running)
      ensures landed ==> spent.entries == Redriven(old(spent.entries), store.intents[id], id, clock, ttl)
      ensures landed ==> (got <==> CanReserve(old(spent.entries), store.intents[id].inputs, id, clock))
      ensures got ==> landed
    {
      Now();
      var inputs := store.intents[id].inputs;
      var r, o := TakeInputs(id, inputs);
      if r.Taken? {
        return false, true;
      }
      Advance(Renew(id, ttl, o), ReserveIfNeeded(World(), id, inputs, ttl, o));
      return r.Got?, r.Got?;
    }

    /** One Built intent: its inputs first, and only then, unless the context
        has ended, its bytes. */
    method RedriveOne(id: string, ended: bool, out: Outcome) returns (landed: bool, ghost look: nat, ghost keep: nat)
      requires Valid() && InState(World(), id, Built)
      modifies this`clock, this`trace, store`intents, store.file, spent`entries, spent.file
      ensures Valid() && old(trace) <= trace
      ensures SameElsewhere(old(store.intents), store.intents, id) && id in store.intents
      ensures landed ==> Turned(old(spent.entries), spent.entries, old(store.intents)[id], store.intents[id], id, look,
                                keep)
      ensures ended ==> World().sends == old(World().sends) && store.intents == old(store.intents)
      ensures ended && landed ==> spent.entries == Redriven(old(spent.entries), store.intents[id], id, look, ttl)
    {
      ghost var m, r := spent.entries, store.intents[id];
      if Held(store.intents[id]) {
        MarkHeldOne(id);
        RedrivenTurn(m, r, id, clock, ttl);
        return true, clock, clock;
      }
      var got;
      got, landed := RenewOne(id);
      look, keep := clock, clock;
      RedrivenTurn(m, r, id, look, ttl);
      if got && !ended {
        ghost var m1, s1 := spent.entries, store.intents;
        ghost var res, kept := SendOne(id, out);
        keep := if res.NotReserved? then look else kept;
        SentTurn(m, m1, spent.entries, s1, store.intents, id, res, look, kept);
      }
    }

    /** The send of a turn, whatever becomes of it. */
    method SendOne(id: string, out: Outcome) returns (ghost r: SendResult, ghost keep: nat)
      requires Valid() && InState(World(), id, Built) && !Held(store.intents[id])
      modifies this`clock, this`trace, store`intents, store.file, spent`entries, spent.file
      ensures Valid() && old(trace) <= trace
      ensures SameElsewhere(old(store.intents), store.intents, id)
      ensures SendLeaves(old(spent.entries), spent.entries, old(store.intents), store.intents, id, r, keep)
    {
      var res;
      res, keep := Broadcast(id, out);
      r := res;
    }

    /** The turn of one listed intent, after those before it. */
    method RedriveNext(ids: seq<string>, k: nat, ended: bool, before: bool, ghost m: Entries, ghost s: Intents,
                       ghost looks: seq<nat>, ghost keeps: seq<nat>)
      returns (landed: bool, ghost look: nat, ghost keep: nat)
      requires Valid() && k < |ids| && InState(World(), ids[k], Built) && |looks| == |keeps| == k && Known(ids, s)
      requires before ==> Turns(m, s, spent.entries, store.intents, ids[..k], looks, keeps)
      requires ended ==> store.intents == s
      requires ended && before ==> spent.entries == WithdrawalRecovery.RedriveAll(m, s, ids[..k], looks, ttl)
      modifies this`clock, this`trace, store`intents, store.file, spent`entries, spent.file
      ensures Valid() && old(trace) <= trace && SameElsewhere(old(store.intents), store.intents, ids[k])
      ensures landed ==>
                Turns(m, s, spent.entries, store.intents, ids[..k + 1], looks + [look], keeps + [keep])
      ensures ended ==> World().sends == old(World().sends) && store.intents == s
      ensures ended && landed ==>
                spent.entries == WithdrawalRecovery.RedriveAll(m, s, ids[..k + 1], looks + [look], ttl)
    {
      var out: Outcome := *;
      ghost var m1, s1 := spent.entries, store.intents;
      landed, look, keep := RedriveOne(ids[k], ended, out);
      landed := before && landed;
      if landed {
        TurnsNext(m, s, m1, s1, spent.entries, store.intents, ids, looks, keeps, look, keep);
        RedriveAllNext(m, s, ids, looks, look, ttl);
      }
    }

    /** Last pass: every Built intent, held ones included. */
    method RedriveBuilt(ended: bool)
      returns (ids: seq<string>, ghost looks: seq<nat>, ghost keeps: seq<nat>, landed: bool)
      requires Valid()
      modifies this`clock, this`trace, store`intents, store.file, spent`entries, spent.file
      ensures Valid() && old(trace) <= trace
      ensures Lists(ids, old(store.intents), Built) && |ids| == |looks| == |keeps|
      ensures landed ==> Turns(old(spent.entries), old(store.intents), spent.entries, store.intents, ids, looks, keeps)
      ensures ended ==> World().sends == old(World().sends) && store.intents == old(store.intents)
      ensures ended && landed ==>
                spent.entries == WithdrawalRecovery.RedriveAll(old(spent.entries), old(store.intents), ids, looks, ttl)
    {
      ids := store.List(Built);
      landed := true;
      looks, keeps := [], [];
      ghost var m, s := spent.entries, store.intents;
      for k := 0 to |ids|
        invariant Valid() && old(trace) <= trace && |looks| == |keeps| == k
        invariant forall j | k <= j < |ids| :: ids[j] in store.intents && store.intents[ids[j]] == s[ids[j]]
        invariant landed ==> Turns(m, s, spent.entries, store.intents, ids[..k], looks, keeps)
        invariant ended ==> World().sends == old(World().sends) && store.intents == s
        invariant ended && landed ==>
                    spent.entries == WithdrawalRecovery.RedriveAll(m, s, ids[..k], looks, ttl)
      {
        ghost var look, keep;
        landed, look, keep := RedriveNext(ids, k, ended, landed, m, s, looks, keeps);
        looks, keeps := looks + [look], keeps + [keep];
      }
      assert ids[..|ids|] == ids;
    }

    ghost method RepairsDone()
      requires Tracks() && World().phase == Phase.Repairing && World().call == Idle
      modifies this`trace
      ensures Repairing(Running)
    {
      Advance(RepairDone, World().(phase := Running));
    }

    /** Recover, once at startup. When the writes of its passes land and nothing
        is in their way, every intent that is then Broadcast or held owns sends
        on all its inputs and every other Built one entries that had not run out
        when taken, whatever was sent and whatever came of it. Under an ended
        context nothing is sent and no record changes, and the spent set ends as
        the four passes prescribe. */
    method Recover(ended: bool) returns (ghost ord: Orders, ghost keeps: seq<nat>, landed: bool)
      requires Tracks() && World().phase == Restarted && World().call == Idle
      modifies this`clock, this`trace, store`intents, store.file, spent`entries, spent.file
      ensures Valid() && old(trace) <= trace
      ensures |ord.built| == |keeps| && Lists(ord.built, old(store.intents), Built)
      ensures landed && Unblocked(old(spent.entries), old(store.intents)) ==>
                LiveRestored(spent.entries, store.intents, ord.built, keeps)
      ensures ended ==> World().sends == old(World().sends) && store.intents == old(store.intents)
      ensures ended && landed ==>
                Proper(old(spent.entries), store.intents, ord) &&
                spent.entries == Repaired(old(spent.entries), store.intents, ord, ttl)
    {
      ghost var drops, built, looks;
      var repaired, redriven;
      drops, repaired := RepairSpent();
      built, looks, keeps, redriven := RedriveBuilt(ended);
      ord := drops.(built := built, redrives := looks);
      landed := repaired && redriven;
      if landed {
        Recovered(old(spent.entries), old(store.intents), drops, spent.entries, store.intents, ord, keeps);
      }
    }

    /** The passes that come before any Built intent is looked at. */
    method RepairSpent() returns (ghost ord: Orders, landed: bool)
      requires Tracks() && World().phase == Restarted && World().call == Idle
      modifies this`clock, this`trace, spent`entries, spent.file
      ensures Repairing(Running)
      ensures landed ==> ProperDrops(old(spent.entries), store.intents, ord) &&
                         spent.entries == AfterDrops(old(spent.entries), store.intents, ord)
    {
      var broadcast, marks := RemarkAll();
      var sent, dropped, reserved := DropAndRelease();
      return Orders(broadcast, sent, reserved, [], marks, []), dropped;
    }

    method DropAndRelease() returns (sent: seq<string>, landed: bool, reserved: seq<string>)
      requires Tracks() && World().phase == Phase.Repairing && World().call == Idle
      modifies this`trace, spent`entries, spent.file
      ensures Repairing(Running)
      ensures forall id :: id in sent <==> id != "" && Sender(old(spent.entries), id)
      ensures landed ==> forall id :: id in reserved <==> Reserver(DropAll(old(spent.entries), store.intents, sent), id)
      ensures landed ==>
                spent.entries == ReleaseAll(DropAll(old(spent.entries), store.intents, sent), store.intents, reserved)
    {
      sent, landed := DropAbandonedAll();
      reserved := ReleaseOrphanReservations();
      RepairsDone();
    }
  }

  /** The txids the node can be asked about. */
  function Txids(r: Intent): set<string> {
    {r.txid, r.nodeTxid} - {"", NODE_TXID_UNKNOWN}
  }

  /** A hand-over that was answered, dated as the record it was made from. */
  function SentNow(id: string, r: Intent, again: bool, out: Outcome): Send {
    Send(id, r.rawHex, r.sentAt, again, Some(out))
  }

  predicate SameTerms(r: Intent, address: string, amount: int, feeRate: int, fold: (string, string) -> bool) {
    fold(r.address, address) && r.amount == amount && r.feeRate == feeRate
  }

  /** What a Build that reached the save leaves: a Built record over inputs
      that are all the intent's own, or nothing at all. */
  ghost predicate BuildOutcome(before: Intents, after: Intents, entries: Entries, id: string, signing: Signing,
                               inputs: seq<Outpoint>, r: BuildResult, now: nat)
    requires id in before && signing.Signed?
  {
    if r.BuildNotSaved? then
      after == before && forall p :: p in entries && entries[p].kind.Reserved? ==> entries[p].intent != id
    else
      && (after == before[id := BuiltRecord(before[id], inputs, signing.rawHex, signing.txid, now)])
      && forall p :: p in inputs ==> OwnedBy(entries, p, id)
  }

  /** What was not this withdrawal's is as it was. */
  predicate SameForOthers(before: Entries, after: Entries, id: string) {
    forall p | p in after && after[p].intent != id :: p in before && before[p] == after[p]
  }

  /** What a build that was put off leaves: the attempt is counted, and there is
      no reservation it did not have. */
  ghost predicate PutOff(before: Intents, after: Intents, entries: Entries, entries': Entries, id: string,
                         o: WriteOutcome, now: nat)
    requires id in before
  {
    && after == (if o.NotWritten? then before else before[id := DeferredRecord(before[id], now)])
    && SameForOthers(entries, entries', id)
    && (entries' == entries || forall p | p in entries' && entries'[p].kind.Reserved? :: entries'[p].intent != id)
  }

  /** What a build that was given up leaves: a Failed record with nothing built,
      and no reservation once that is on disk. */
  ghost predicate GivenUp(before: Intents, after: Intents, entries: Entries, entries': Entries, id: string,
                          o: WriteOutcome, now: nat)
    requires id in before
  {
    && after == (if o.NotWritten? then before else before[id := UnbuildableRecord(before[id], now)])
    && SameForOthers(entries, entries', id)
    && (o.Durable? ==> forall p | p in entries' && entries'[p].kind.Reserved? :: entries'[p].intent != id)
  }

  /** What an attempt leaves once the inputs are the intent's: nothing is sent
      unless the attempt is on disk, and then the verdict follows. */
  ghost predicate AttemptOutcome(w: World, w': World, before: Intents, after: Intents, entries: Entries, id: string,
                                 out: Outcome, r: SendResult, now: nat)
    requires id in before
  {
    && (r.NotRecorded? ==> after == before || after == before[id := AttemptRecord(before[id], now)])
    && (!r.Handed? ==> w'.sends == w.sends)
    && (r.Handed? ==>
          && w'.sends == w.sends + [Send(id, before[id].rawHex, r.at, false, Some(out))]
          && Verdict(before, after, id, Classify(out), r, now)
          && (Marks(Prior(before[id]), Classify(out)) ==>
                AllMarked(entries, before[id].inputs, id, MarkTxid(before[id], Classify(out)))))
  }

  /** What Broadcast leaves of the entries: those of a withdrawal that was refused
      its inputs are as they were; any other ends with what its new state asks
      for, reserved last at `keep`. Nobody else's change. */
  ghost predicate SendLeaves(m: Entries, m': Entries, before: Intents, after: Intents, id: string, r: SendResult,
                             keep: nat)
    requires id in before
  {
    && id in after && after[id].inputs == before[id].inputs && Elsewhere(m, m', before[id].inputs, id)
    && if r.NotReserved? then m' == m && after[id] == before[id].(updatedAt := after[id].updatedAt)
       else after[id].state in {Built, State.Broadcast, Failed} && Stands(m', after[id], id, keep)
  }

  lemma MarkLeaves(m: Entries, inputs: seq<Outpoint>, txid: string, id: string, now: nat)
    requires CanMark(m, inputs, txid, id)
    ensures var m' := AfterMark(m, inputs, txid, id, now);
            Elsewhere(m, m', inputs, id) && AllMarked(m', inputs, id, txid)
  {
  }

  lemma ReservedStands(m: Entries, r: Intent, id: string, now: nat, ttl: nat)
    requires r.state == Built && !Held(r)
    ensures var m' := AfterReserve(m, r.inputs, id, now, ttl);
            Elsewhere(m, m', r.inputs, id) && Stands(m', r, id, now)
  {
    ReservedIsOwned(m, r.inputs, id, now, ttl);
  }

  /** What the passes come to together. */
  lemma Recovered(m: Entries, s: Intents, drops: Orders, m': Entries, s': Intents, ord: Orders, keeps: seq<nat>)
    requires ProperDrops(m, s, drops) && Lists(ord.built, s, Built) && |ord.built| == |ord.redrives| == |keeps|
    requires ord == drops.(built := ord.built, redrives := ord.redrives)
    requires Turns(AfterDrops(m, s, drops), s, m', s', ord.built, ord.redrives, keeps)
    ensures Unblocked(m, s) ==> LiveRestored(m', s', ord.built, keeps)
    ensures Proper(m, s, ord) && AfterDrops(m, s, ord) == AfterDrops(m, s, drops)
  {
    assert ProperDrops(m, s, ord);
    if Unblocked(m, s) {
      TurnsRestore(m, s, ord, m', s', ord.redrives, keeps);
    }
  }

  /** A turn that sends nothing. */
  lemma RedrivenTurn(m: Entries, r: Intent, id: string, now: nat, ttl: nat)
    requires r.state == Built
    ensures Turned(m, Redriven(m, r, id, now, ttl), r, r, id, now, now)
  {
    if !Held(r) {
      ReservedStands(m, r, id, now, ttl);
    }
  }

  /** A turn that does. */
  lemma SentTurn(m: Entries, m1: Entries, m': Entries, s1: Intents, s': Intents, id: string, res: SendResult,
                 look: nat, keep: nat)
    requires id in s1 && s1[id].state == Built && !Held(s1[id]) && CanReserve(m, s1[id].inputs, id, look)
    requires Turned(m, m1, s1[id], s1[id], id, look, look) && SendLeaves(m1, m', s1, s', id, res, keep)
    ensures Turned(m, m', s1[id], s'[id], id, look, if res.NotReserved? then look else keep)
  {
    ElsewhereOn(m, m1, m', s1[id].inputs, id);
  }

  /** The verdict leaves the intent with what its new state asks for. */
  lemma VerdictLeaves(m: Entries, m1: Entries, m': Entries, r: Intent, r': Intent, id: string, prior: bool,
                      reply: Reply,
                      o: WriteOutcome, now: nat)
    requires r.state == Built && r' == if o.NotWritten? then r else SettledRecord(r, prior, reply, now)
    requires Elsewhere(m, m1, r.inputs, id) &&
             (if Marks(prior, reply) then forall p :: p in r.inputs ==> SentBy(m1, p, id) else m1 == m)
    requires m' == if reply.Rejected? && !prior && o.Durable? then AfterRelease(m1, id) else m1
    ensures Elsewhere(m, m', r.inputs, id)
    ensures !Held(r) ==> StillStands(m, m', r, r', id)
  {
    assert Elsewhere(m1, m', r.inputs, id);
    ElsewhereOn(m, m1, m', r.inputs, id);
  }

  /** All these inputs are recorded as spent for good, by this withdrawal and
      in this transaction. */
  ghost predicate AllMarked(m: Entries, inputs: seq<Outpoint>, id: string, txid: string) {
    forall p :: p in inputs ==> p in m && m[p].kind == Sent(txid) && m[p].intent == id && !m[p].confirmed
  }

  predicate NodeHasIt(out: Outcome) {
    out.Success? || AlreadyInChain in out.kinds
  }

  predicate NotKnown(out: Outcome) {
    !NodeHasIt(out) && (ContextEnded in out.kinds || UnknownOutcome in out.kinds)
  }

  predicate OtherTxid(out: Outcome) {
    !NodeHasIt(out) && !NotKnown(out) && TxidMismatch in out.kinds
  }

  predicate NeverTaken(out: Outcome) {
    !NodeHasIt(out) && !NotKnown(out) && !OtherTxid(out) && Permanent in out.kinds
  }

  predicate NotTaken(out: Outcome) {
    !NodeHasIt(out) && !NotKnown(out) && !OtherTxid(out) && !NeverTaken(out) &&
    (Transient in out.kinds || Unauthorized in out.kinds)
  }

  /** An earlier attempt may be out. */
  predicate MayHaveBeenSent(r: Intent) {
    r.maybeRelayed || (r.attempts > 0 && r.sentAt == 0)
  }

  /** Field by field, the record once the answer to a hand-over at `at` is saved. */
  predicate AnswerDecides(b: Intent, c: Intent, out: Outcome, at: nat, now: nat) {
    && c.address == b.address && c.amount == b.amount && c.feeRate == b.feeRate
    && c.rawHex == b.rawHex && c.txid == b.txid && c.inputs == b.inputs
    && c.abandonedAt == b.abandonedAt && c.confirmations == b.confirmations
    && c.attempts == b.attempts + 1 && c.sentAt == at && c.updatedAt == now
    && (c.state == State.Broadcast <==> NodeHasIt(out))
    && (c.state == Failed <==> NeverTaken(out) && !MayHaveBeenSent(b))
    && c.state in {Built, State.Broadcast, Failed}
    && (c.hold <==> b.hold || (NeverTaken(out) && MayHaveBeenSent(b)))
    && (c.maybeRelayed <==> MayHaveBeenSent(b) || !(NeverTaken(out) || NotTaken(out)))
    && c.nodeTxid == if !OtherTxid(out) then b.nodeTxid else if out.got == "" then "unknown" else out.got
  }

  /** Which answers make the inputs spent for good, and in which transaction. */
  ghost predicate AnswerMarks(b: Intent, m: Entries, out: Outcome, id: string) {
    && (NodeHasIt(out) || (NeverTaken(out) && MayHaveBeenSent(b)) ==> AllMarked(m, b.inputs, id, b.txid))
    && (OtherTxid(out) ==> AllMarked(m, b.inputs, id, if out.got == "" then "unknown" else out.got))
  }

  /** A re-send moves the time Abandon waits from, unless it was refused. */
  lemma ResentExactly(b: Intent, at: nat, out: Outcome, now: nat)
    ensures ResendRecord(b, at) == b.(attempts := b.attempts + 1, sentAt := at, updatedAt := at)
    ensures ResentRecord(ResendRecord(b, at), LastSent(b), out, now) ==
            b.(attempts := b.attempts + 1, updatedAt := now,
               sentAt :=
                 if out.Success? || AlreadyInChain in out.kinds || out.kinds !! {Permanent, Transient, Unauthorized}
                 then at else if b.sentAt == 0 then b.updatedAt else b.sentAt)
  {
  }

  lemma AnswerDecidesRecord(b: Intent, out: Outcome, at: nat, now: nat)
    requires b.state == Built
    ensures AnswerDecides(b, SettledRecord(AttemptRecord(b, at), Prior(b), Classify(out), now), out, at, now)
  {
  }

  lemma AnswerDecidesMarks(b: Intent, m: Entries, out: Outcome, id: string)
    requires Marks(Prior(b), Classify(out)) ==> AllMarked(m, b.inputs, id, MarkTxid(b, Classify(out)))
    ensures AnswerMarks(b, m, out, id)
  {
  }

  /** What a completed Broadcast leaves in the store. */
  ghost predicate Verdict(before: Intents, after: Intents, id: string, reply: Reply, r: SendResult, now: nat)
    requires id in before && r.Handed?
  {
    var attempt := AttemptRecord(before[id], r.at);
    if r.saved.NotWritten? then after == before[id := attempt]
    else after == before[id := SettledRecord(attempt, Prior(before[id]), reply, now)]
  }
}
