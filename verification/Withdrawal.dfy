/** The withdrawal protocol as a state machine. One action is one write of the
    intent store, one write of the spent set, one hand-over of bytes to the
    node, or one thing the outside does; the process may end, and a power loss
    may fall, between any two.
    Every transition of the engine is a sequence of these actions. */
module Withdrawal {
  import opened AtomicFile
  import opened SpentSet
  import opened Broadcaster

  datatype State = Created | Built | Broadcast | Confirmed | Failed

  /** A withdrawal's record. Times are clock readings, 0 for unset. */
  datatype Intent = Intent(
    address: string, amount: int, feeRate: int,
    state: State, txid: string, nodeTxid: string, maybeRelayed: bool,
    sentAt: nat, abandonedAt: nat, hold: bool,
    rawHex: string, inputs: seq<Outpoint>,
    attempts: nat, confirmations: int, updatedAt: nat)

  type Intents = map<string, Intent>

  function NewIntent(address: string, amount: int, feeRate: int, now: nat): Intent {
    Intent(address, amount, feeRate, Created, "", "", false, 0, 0, false, "", [], 0, 0, now)
  }

  /** A Built intent the engine will not send again and will not fail. */
  predicate Held(r: Intent) {
    r.nodeTxid != "" || r.hold
  }

  function HoldTxid(r: Intent): string {
    if r.nodeTxid != "" then r.nodeTxid else r.txid
  }

  const NODE_TXID_UNKNOWN := "unknown"

  /** One hand-over of bytes, at the time saved with the attempt; `again` for a
      re-send. `heard` stays None when the process stopped before it read the
      answer. */
  datatype Send = Send(id: string, bytes: string, at: nat, again: bool, heard: Heard)
  datatype Heard = None | Some(out: Outcome)

  predicate MayBeOut(s: Send) {
    s.heard.None? || Leaves(Classify(s.heard.out))
  }

  /** A re-send whose outcome Rebroadcast takes for a refusal: the time Abandon
      waits from is put back to what it was before. */
  predicate TakenBack(s: Send) {
    s.again && s.heard.Some? && PutsBack(s.heard.out)
  }

  // ----- The records each transition writes -----

  function Prior(r: Intent): bool {
    r.maybeRelayed || (r.attempts > 0 && r.sentAt == 0)
  }

  function BuiltRecord(r: Intent, inputs: seq<Outpoint>, rawHex: string, txid: string, now: nat): Intent {
    r.(state := Built, rawHex := rawHex, txid := txid, inputs := inputs, updatedAt := now)
  }

  function DeferredRecord(r: Intent, now: nat): Intent {
    r.(attempts := r.attempts + 1, updatedAt := now)
  }

  function UnbuildableRecord(r: Intent, now: nat): Intent {
    r.(state := Failed, rawHex := "", txid := "", inputs := [], updatedAt := now)
  }

  function AttemptRecord(r: Intent, now: nat): Intent {
    r.(attempts := r.attempts + 1, maybeRelayed := true, sentAt := now, updatedAt := now)
  }

  /** Whether an answer makes the inputs permanent before the record is saved. */
  predicate Marks(prior: bool, reply: Reply) {
    reply.Accepted? || reply.Mismatch? || (reply.Rejected? && prior)
  }

  function MarkTxid(r: Intent, reply: Reply): string {
    if reply.Mismatch? then (if reply.got == "" then NODE_TXID_UNKNOWN else reply.got) else r.txid
  }

  /** The record saved once the node has answered. */
  function SettledRecord(r: Intent, prior: bool, reply: Reply, now: nat): Intent {
    match reply
    case Accepted => r.(state := Broadcast, updatedAt := now)
    case Unknown => r.(updatedAt := now)
    case Mismatch(_) => r.(nodeTxid := MarkTxid(r, reply), updatedAt := now)
    case Rejected =>
      if prior then r.(hold := true, updatedAt := now)
      else r.(state := Failed, maybeRelayed := false, updatedAt := now)
    case Refused => r.(maybeRelayed := prior, updatedAt := now)
  }

  function ResendRecord(r: Intent, now: nat): Intent {
    r.(attempts := r.attempts + 1, sentAt := now, updatedAt := now)
  }

  function ResentRecord(r: Intent, sentBefore: nat, out: Outcome, now: nat): Intent {
    if PutsBack(out) then r.(sentAt := sentBefore, updatedAt := now) else r.(updatedAt := now)
  }

  function LastSent(r: Intent): nat {
    if r.sentAt == 0 then r.updatedAt else r.sentAt
  }

  function AbandonedRecord(r: Intent, now: nat): Intent {
    r.(state := Failed, abandonedAt := now, updatedAt := now)
  }

  // ----- The world -----

  /** After a restart Recover first marks the inputs of Broadcast intents,
      then drops and releases, and only then does anything else run. */
  datatype Phase = Restarted | Repairing | Running

  /** How far the transition that holds the engine's lock has got. */
  datatype Call =
    | Idle
    | Building(id: string, inputs: seq<Outpoint>)       // inputs reserved, nothing saved
    | Reserving(id: string)                             // a Built intent's inputs re-reserved
    | Ready(id: string, prior: bool)                    // the attempt is on disk
    | Waiting(id: string, prior: bool)                  // the bytes are handed over
    | Answered(id: string, prior: bool, reply: Reply)
    | Marked(id: string, prior: bool, reply: Reply)     // inputs permanent, record to save
    | ReleaseDue(id: string)
    | ForgetDue(id: string)
    | Resending(id: string, sentBefore: nat)
    | Rewaiting(id: string, sentBefore: nat)
    | Reanswered(id: string, sentBefore: nat, out: Outcome)
    | Confirming(id: string, depth: int)

  datatype World = World(
    clock: nat,
    store: Intents,              // the intents file as read, and its copy in memory
    storeCrash: set<Intents>,    // what a power loss may leave of it
    spent: Entries,              // the spent set in memory
    spentSeen: Entries,          // its file as read
    spentCrash: set<Entries>,    // what a power loss may leave of its file
    phase: Phase,
    remarked: set<string>,       // Broadcast intents Recover has dealt with
    call: Call,
    sends: seq<Send>,            // every hand-over so far
    confirmed: set<Outpoint>,    // outpoints whose confirmation was recorded
    flags: Flags)

  /** What has happened in the run that voids some claim. */
  datatype Flags = Flags(
    reused: bool,                // see Reuses
    overtaken: bool,             // see Overtakes
    lapsed: bool,                // see LapsedNow
    unsettled: bool,             // see Unsettles
    turned: bool)                // the clock has gone back

  function Init(): World {
    World(1, map[], {map[]}, map[], map[], {map[]}, Running, {}, Idle, [], {}, Flags(false, false, false, false, false))
  }

  datatype Action =
    // the outside
    | Tick(now: nat)
    | Submit(id: string, address: string, amount: int, feeRate: int, o: WriteOutcome)
    | Prune(o: WriteOutcome)
    | DropExpired(p: Outpoint)
    | ConfirmSpent(outs: seq<Outpoint>, o: WriteOutcome)
    | PowerLoss(intents: Intents, entries: Entries)
    | Exit
    // Build
    | BuildReserve(id: string, inputs: seq<Outpoint>, ttl: nat, o: WriteOutcome)
    | BuildSave(rawHex: string, txid: string, o: WriteOutcome)
    | BuildAbort
    | BuildFail(id: string, o: WriteOutcome)
    | Defer(id: string, o: WriteOutcome)
    // Broadcast
    | SendReserve(id: string, ttl: nat, o: WriteOutcome)
    | Touch(id: string, o: WriteOutcome)
    | SaveAttempt(o: WriteOutcome)
    | HandOver
    | Hear(out: Outcome)
    | MarkInputs(o: WriteOutcome)
    | Settle(o: WriteOutcome)
    // Rebroadcast
    | SaveResend(id: string, o: WriteOutcome)
    | HandOverAgain
    | HearAgain(out: Outcome)
    | SettleAgain(o: WriteOutcome)
    // UpdateConfirmations
    | ConfirmInputs(id: string, depth: int, o: WriteOutcome)
    | SaveConfirmed(o: WriteOutcome)
    | SaveDepth(id: string, depth: int, o: WriteOutcome)
    // Abandon
    | Abandon(id: string, wait: nat, o: WriteOutcome)
    // the end of a failed or abandoned intent
    | Release(o: WriteOutcome)
    | Forget(o: WriteOutcome)
    // Recover
    | Remark(id: string, o: WriteOutcome)
    | RemarksDone
    | DropAbandoned(id: string, o: WriteOutcome)
    | ReleaseOrphan(id: string, o: WriteOutcome)
    | RepairDone
    | MarkHeld(id: string, o: WriteOutcome)
    | Renew(id: string, ttl: nat, o: WriteOutcome)

  predicate InState(w: World, id: string, s: State) {
    id in w.store && w.store[id].state == s
  }

  predicate CanBegin(w: World) {
    w.phase == Running && w.call == Idle
  }

  ghost predicate Enabled(w: World, a: Action) {
    match a
    case Tick(now) => now > 0
    case Submit(id, address, amount, feeRate, _) =>
      id != "" && address != "" && amount > 0 && feeRate > 0 && id !in w.store
    case Prune(_) => true
    case DropExpired(p) => p in w.spent && Expired(w.spent[p], w.clock)
    case ConfirmSpent(_, _) => true
    case PowerLoss(intents, entries) => intents in w.storeCrash && entries in w.spentCrash
    case Exit => true
    case BuildReserve(id, inputs, _, _) =>
      CanBegin(w) && InState(w, id, Created) && CanReserve(w.spent, inputs, id, w.clock)
    case BuildSave(_, _, _) => w.call.Building?
    case BuildAbort => w.call.Building?
    case BuildFail(id, _) =>
      w.phase == Running && InState(w, id, Created) &&
      (w.call == Idle || (w.call.Building? && w.call.id == id))
    case Defer(id, _) => CanBegin(w) && InState(w, id, Created)
    case SendReserve(id, _, _) =>
      CanBegin(w) && InState(w, id, Built) && !Held(w.store[id]) &&
      CanReserve(w.spent, w.store[id].inputs, id, w.clock)
    case Touch(id, _) => CanBegin(w) && InState(w, id, Built) && !Held(w.store[id])
    case SaveAttempt(_) => w.call.Reserving?
    case HandOver => w.call.Ready?
    case Hear(_) => w.call.Waiting?
    case MarkInputs(_) => w.call.Answered? && Marks(w.call.prior, w.call.reply)
    case Settle(_) => w.call.Marked? || (w.call.Answered? && !Marks(w.call.prior, w.call.reply))
    case SaveResend(id, _) => CanBegin(w) && InState(w, id, Broadcast)
    case HandOverAgain => w.call.Resending?
    case HearAgain(_) => w.call.Rewaiting?
    case SettleAgain(_) => w.call.Reanswered?
    case ConfirmInputs(id, _, _) => CanBegin(w) && InState(w, id, Broadcast)
    case SaveConfirmed(_) => w.call.Confirming?
    case SaveDepth(id, _, _) => CanBegin(w) && InState(w, id, Broadcast)
    case Abandon(id, wait, _) =>
      CanBegin(w) && (InState(w, id, Broadcast) || (InState(w, id, Built) && Held(w.store[id]))) &&
      w.clock - LastSent(w.store[id]) >= wait
    case Release(_) => w.call.ReleaseDue?
    case Forget(_) => w.call.ForgetDue?
    case Remark(id, _) => w.phase == Restarted && InState(w, id, Broadcast)
    case RemarksDone => w.phase == Restarted && forall id | InState(w, id, Broadcast) :: id in w.remarked
    case DropAbandoned(id, _) => w.phase == Repairing && InState(w, id, Failed) && w.store[id].abandonedAt != 0
    case ReleaseOrphan(id, _) => w.phase == Repairing && (InState(w, id, Created) || InState(w, id, Failed))
    case RepairDone => w.phase == Repairing
    case MarkHeld(id, _) => CanBegin(w) && InState(w, id, Built) && Held(w.store[id])
    case Renew(id, _, _) =>
      CanBegin(w) && InState(w, id, Built) && !Held(w.store[id]) &&
      CanReserve(w.spent, w.store[id].inputs, id, w.clock)
  }

  // ----- Effects -----

  /** A conditional write of one record, with memory rolled back exactly when
      the file still holds the old content. */
  function Saved(w: World, id: string, r: Intent, o: WriteOutcome): World {
    var written := w.store[id := r];
    w.(store := if o.NotWritten? then w.store else written,
       storeCrash := CrashAfter(w.storeCrash, written, o))
  }

  /** The spent set changed in memory and written; memory keeps the change
      whatever became of the write. */
  function Kept(w: World, m: Entries, o: WriteOutcome): World {
    w.(spent := m, spentSeen := SeenAfter(w.spentSeen, m, o), spentCrash := CrashAfter(w.spentCrash, m, o))
  }

  /** As Kept, but nothing is written when nothing changed. */
  function KeptIfChanged(w: World, m: Entries, o: WriteOutcome): World {
    if m == w.spent then w else Kept(w, m, o)
  }

  /** A reservation: memory takes it only when the write was durable. */
  function Reserve(w: World, id: string, inputs: seq<Outpoint>, ttl: nat, o: WriteOutcome): World {
    var m := AfterReserve(w.spent, inputs, id, w.clock, ttl);
    w.(spent := if o.Durable? then m else w.spent,
       spentSeen := SeenAfter(w.spentSeen, m, o), spentCrash := CrashAfter(w.spentCrash, m, o))
  }

  predicate NothingToReserve(w: World, id: string, inputs: seq<Outpoint>) {
    ToReserve(w.spent, inputs, id) == {}
  }

  /** Reserve as called: a withdrawal whose inputs are all its own sends writes
      nothing and succeeds. */
  function ReserveIfNeeded(w: World, id: string, inputs: seq<Outpoint>, ttl: nat, o: WriteOutcome): World {
    if NothingToReserve(w, id, inputs) then w else Reserve(w, id, inputs, ttl, o)
  }

  predicate ReserveSucceeds(w: World, id: string, inputs: seq<Outpoint>, o: WriteOutcome) {
    NothingToReserve(w, id, inputs) || o.Durable?
  }

  /** Forget: memory takes the drop unless the file still holds the old content. */
  function Forgotten(w: World, id: string, o: WriteOutcome): World {
    var m := AfterForget(w.spent, id);
    if m == w.spent then w
    else w.(spent := if o.NotWritten? then w.spent else m,
            spentSeen := SeenAfter(w.spentSeen, m, o), spentCrash := CrashAfter(w.spentCrash, m, o))
  }

  function MarkedSpent(w: World, id: string, inputs: seq<Outpoint>, txid: string, o: WriteOutcome): World {
    if CanMark(w.spent, inputs, txid, id)
    then Kept(w, AfterMark(w.spent, inputs, txid, id, w.clock), o) else w
  }

  function HandedOver(w: World, id: string, again: bool): World
    requires id in w.store
  {
    w.(sends := w.sends + [Send(id, w.store[id].rawHex, w.store[id].sentAt, again, None)])
  }

  function WithAnswer(w: World, out: Outcome): World {
    if w.sends == [] then w
    else w.(sends := w.sends[|w.sends| - 1 := w.sends[|w.sends| - 1].(heard := Some(out))])
  }

  /** The process starts again on what a power loss left of the two files. */
  function Restart(w: World, intents: Intents, entries: Entries): World {
    w.(store := intents, storeCrash := {intents},
       spent := AfterLoad(entries, w.clock), spentSeen := entries, spentCrash := {entries},
       phase := Restarted, remarked := {}, call := Idle)
  }

  /** The process starts again on the two files as they are; what a later power
      loss may leave of them has not changed. */
  function Reopen(w: World): World {
    w.(spent := AfterLoad(w.spentSeen, w.clock), phase := Restarted, remarked := {}, call := Idle)
  }

  /** The record the lock holder works on, which the store is known to hold. */
  function Current(w: World, id: string): Intent {
    if id in w.store then w.store[id] else NewIntent("", 0, 0, 0)
  }

  function Apply(w: World, a: Action): World {
    match a
    case Tick(now) => w.(clock := now)
    case Submit(id, address, amount, feeRate, o) => Saved(w, id, NewIntent(address, amount, feeRate, w.clock), o)
    case Prune(o) => KeptIfChanged(w, AfterPrune(w.spent, w.clock), o)
    case DropExpired(p) => w.(spent := w.spent - {p})
    case ConfirmSpent(outs, o) =>
      KeptIfChanged(w, AfterConfirm(w.spent, outs), o).(confirmed := w.confirmed + (set p | p in outs))
    case PowerLoss(intents, entries) => Restart(w, intents, entries)
    case Exit => Reopen(w)
    case BuildReserve(id, inputs, ttl, o) =>
      var w1 := ReserveIfNeeded(w, id, inputs, ttl, o);
      if ReserveSucceeds(w, id, inputs, o) then w1.(call := Building(id, inputs)) else w1
    case BuildSave(rawHex, txid, o) =>
      var id := if w.call.Building? then w.call.id else "";
      var inputs := if w.call.Building? then w.call.inputs else [];
      var w1 := Saved(w, id, BuiltRecord(Current(w, id), inputs, rawHex, txid, w.clock), o);
      w1.(call := if o.NotWritten? then ReleaseDue(id) else Idle)
    case BuildAbort => w.(call := ReleaseDue(if w.call.Building? then w.call.id else ""))
    case BuildFail(id, o) =>
      var w1 := Saved(w, id, UnbuildableRecord(Current(w, id), w.clock), o);
      w1.(call := if o.Durable? then ReleaseDue(id) else Idle)
    case Defer(id, o) => Saved(w, id, DeferredRecord(Current(w, id), w.clock), o)
    case SendReserve(id, ttl, o) =>
      var w1 := ReserveIfNeeded(w, id, Current(w, id).inputs, ttl, o);
      if ReserveSucceeds(w, id, Current(w, id).inputs, o) then w1.(call := Reserving(id)) else w1
    case Touch(id, o) => Saved(w, id, Current(w, id).(updatedAt := w.clock), o)
    case SaveAttempt(o) =>
      var id := if w.call.Reserving? then w.call.id else "";
      var r := Current(w, id);
      var w1 := Saved(w, id, AttemptRecord(r, w.clock), o);
      w1.(call := if o.Durable? then Ready(id, Prior(r)) else Idle)
    case HandOver =>
      (match w.call
       case Ready(id, prior) => if id in w.store then HandedOver(w, id, false).(call := Waiting(id, prior)) else w
       case _ => w)
    case Hear(out) =>
      (match w.call
       case Waiting(id, prior) => WithAnswer(w, out).(call := Answered(id, prior, Classify(out)))
       case _ => w)
    case MarkInputs(o) =>
      (match w.call
       case Answered(id, prior, reply) =>
         MarkedSpent(w, id, Current(w, id).inputs, MarkTxid(Current(w, id), reply),
                     o).(call := Marked(id, prior, reply))
       case _ => w)
    case Settle(o) =>
      (match w.call
       case Answered(id, prior, reply) => Settled(w, id, prior, reply, o)
       case Marked(id, prior, reply) => Settled(w, id, prior, reply, o)
       case _ => w)
    case SaveResend(id, o) =>
      var r := Current(w, id);
      Saved(w, id, ResendRecord(r, w.clock), o).(call := if o.Durable? then Resending(id, LastSent(r)) else Idle)
    case HandOverAgain =>
      (match w.call
       case Resending(id, before) => if id in w.store then HandedOver(w, id, true).(call := Rewaiting(id, before)) else
           w
       case _ => w)
    case HearAgain(out) =>
      (match w.call
       case Rewaiting(id, before) => WithAnswer(w, out).(call := Reanswered(id, before, out))
       case _ => w)
    case SettleAgain(o) =>
      (match w.call
       case Reanswered(id, before, out) =>
         Saved(w, id, ResentRecord(Current(w, id), before, out, w.clock), o).(call := Idle)
       case _ => w)
    case ConfirmInputs(id, depth, o) =>
      var outs := Current(w, id).inputs;
      KeptIfChanged(w, AfterConfirm(w.spent, outs), o)
      .(confirmed := w.confirmed + (set p | p in outs), call := Confirming(id, depth))
    case SaveConfirmed(o) =>
      (match w.call
       case Confirming(id, depth) =>
         Saved(w, id, Current(w, id).(state := Confirmed, confirmations := depth, updatedAt := w.clock),
               o).(call := Idle)
       case _ => w)
    case SaveDepth(id, depth, o) =>
      Saved(w, id, Current(w, id).(confirmations := depth, updatedAt := w.clock), o)
    case Abandon(id, wait, o) =>
      Saved(w, id, AbandonedRecord(Current(w, id), w.clock), o)
      .(call := if o.Durable? then ForgetDue(id) else Idle)
    case Release(o) =>
      (match w.call
       case ReleaseDue(id) => KeptIfChanged(w, AfterRelease(w.spent, id), o).(call := Idle)
       case _ => w)
    case Forget(o) =>
      (match w.call
       case ForgetDue(id) => Forgotten(w, id, o).(call := Idle)
       case _ => w)
    case Remark(id, o) =>
      MarkedSpent(w, id, Current(w, id).inputs, Current(w, id).txid, o).(remarked := w.remarked + {id})
    case RemarksDone => w.(phase := Repairing)
    case DropAbandoned(id, o) => Forgotten(w, id, o)
    case ReleaseOrphan(id, o) => KeptIfChanged(w, AfterRelease(w.spent, id), o)
    case RepairDone => w.(phase := Running)
    case MarkHeld(id, o) => MarkedSpent(w, id, Current(w, id).inputs, HoldTxid(Current(w, id)), o)
    case Renew(id, ttl, o) => ReserveIfNeeded(w, id, Current(w, id).inputs, ttl, o)
  }

  function Settled(w: World, id: string, prior: bool, reply: Reply, o: WriteOutcome): World {
    Saved(w, id, SettledRecord(Current(w, id), prior, reply, w.clock), o)
    .(call := if reply.Rejected? && !prior && o.Durable? then ReleaseDue(id) else Idle)
  }

  // ----- What voids a claim about inputs -----

  /** Some file content a power loss may leave has this intent in this state. */
  ghost predicate MaybeIn(w: World, id: string, s: State) {
    exists f: Intents :: f in w.storeCrash && id in f && f[id].state == s
  }

  /** A withdrawal is given an entry on an outpoint whose confirmation was
      already recorded. */
  ghost predicate Reuses(w: World, a: Action) {
    match a
    case BuildReserve(id, inputs, _, _) => exists p: Outpoint :: p in inputs && p in w.confirmed
    case SendReserve(id, _, _) => exists p: Outpoint :: p in Current(w, id).inputs && p in w.confirmed
    case Renew(id, _, _) => exists p: Outpoint :: p in Current(w, id).inputs && p in w.confirmed
    case MarkHeld(id, _) => HoldMarks(w, id) && exists p: Outpoint :: p in Current(w, id).inputs && p in w.confirmed
    case _ => false
  }

  /** The mark on a held intent's inputs goes through. */
  predicate HoldMarks(w: World, id: string) {
    CanMark(w.spent, Current(w, id).inputs, HoldTxid(Current(w, id)), id)
  }

  /** A held intent takes an outpoint over: another withdrawal's record of a
      send, which names the same txid, or an input of an intent that is over as
      read but Broadcast in what a power loss may leave. */
  ghost predicate Overtakes(w: World, a: Action) {
    a.MarkHeld? && HoldMarks(w, a.id) &&
    exists p: Outpoint :: p in Current(w, a.id).inputs && (SentOver(w, a.id, p) || OverButOut(w, a.id, p))
  }

  predicate SentOver(w: World, id: string, p: Outpoint) {
    p in w.spent && w.spent[p].kind.Sent? && !w.spent[p].confirmed && w.spent[p].intent != id
  }

  ghost predicate OverButOut(w: World, id: string, p: Outpoint) {
    exists i :: i != id && InState(w, i, Failed) && MaybeIn(w, i, Broadcast) && p in w.store[i].inputs
  }

  ghost predicate Disturbs(w: World, a: Action) {
    Reuses(w, a) || Overtakes(w, a)
  }

  /** No outpoint was given out again and no input taken over. */
  predicate Orderly(w: World) {
    !w.flags.reused && !w.flags.overtaken
  }

  /** A Built intent, or one whose build is under way, has an entry that ran out. */
  ghost predicate LapsedNow(w: World) {
    exists p: Outpoint :: p in w.spent && Expired(w.spent[p], w.clock) &&
                (MaybeIn(w, w.spent[p].intent, Built) || (w.call.Building? && w.call.id == w.spent[p].intent))
  }

  /** Recover drops the entry on an unconfirmed input of an intent that is Failed
      as read, though a power loss may still leave it Built. */
  ghost predicate Unsettles(w: World, a: Action) {
    && (a.DropAbandoned? || a.ReleaseOrphan?) && InState(w, a.id, Failed) && MaybeIn(w, a.id, Built)
    && exists p :: Frees(w, a, a.id, p)
  }

  predicate Frees(w: World, a: Action, id: string, p: Outpoint) {
    p in Current(w, id).inputs && p !in w.confirmed && OwnedBy(w.spent, p, id) && p !in Apply(w, a).spent
  }

  ghost function FlagsAfter(w: World, a: Action, w': World): Flags {
    Flags(w.flags.reused || Reuses(w, a), w.flags.overtaken || Overtakes(w, a), w.flags.lapsed || LapsedNow(w'),
          w.flags.unsettled || Unsettles(w, a), w.flags.turned || (a.Tick? && a.now < w.clock))
  }

  ghost function Step(w: World, a: Action): World {
    var w' := Apply(w, a);
    w'.(flags := FlagsAfter(w, a, w'))
  }

  // ----- Runs -----

  ghost predicate Next(w: World, w': World) {
    exists a :: Enabled(w, a) && w' == Step(w, a)
  }

  ghost predicate StepAt(worlds: seq<World>, k: nat) {
    k + 1 < |worlds| && Next(worlds[k], worlds[k + 1])
  }

  /** A run, as the sequence of worlds it passes through. */
  ghost predicate Run(worlds: seq<World>) {
    && worlds != [] && worlds[0] == Init()
    && forall k :: 0 <= k < |worlds| - 1 ==> StepAt(worlds, k)
  }

  /** Some run passes through here. */
  ghost predicate Reachable(w: World) {
    exists worlds :: Run(worlds) && w in worlds
  }

  lemma StepReaches(w: World, a: Action)
    requires Reachable(w) && Enabled(w, a)
    ensures Reachable(Step(w, a))
  {
    var worlds :| Run(worlds) && w in worlds;
    var n :| 0 <= n < |worlds| && worlds[n] == w;
    var run := worlds[..n + 1] + [Step(w, a)];
    forall k | 0 <= k < |run| - 1 ensures StepAt(run, k) {
      if k < n {
        assert StepAt(worlds, k);
      } else {
        assert Enabled(run[k], a) && run[k + 1] == Step(run[k], a);
      }
    }
    assert Step(w, a) in run;
  }

  lemma InitReachable()
    ensures Reachable(Init())
  {
    assert Run([Init()]);
  }
}
