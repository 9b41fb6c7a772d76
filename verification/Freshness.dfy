/** The cache protocol for one address. The server holds a version of the
    address's set and writes, on every connection that has subscribed, one
    notification per change, in order. Calls overlap, connections are replaced,
    and a reply is handled at any time after the server has answered, in any
    order. The cached set and the status are named by the version they are of. */
module Freshness {
  import opened CacheRecord

  /** A listunspent in flight: what it was sent with, and the version it was
      answered from once it has been. */
  datatype ListCall = ListCall(gen: nat, notedBefore: nat, answer: Option<nat>)

  datatype SubCall = SubCall(gen: nat, answer: Option<nat>)

  /** What is on a connection's stream, unread. */
  datatype Message = Notify(version: nat) | Pong(version: nat)

  datatype World = World(
    version: nat,                    // the server's
    notified: set<nat>,              // connections the server notifies on
    streams: map<nat, seq<Message>>, // what each connection has not yet read
    pings: set<(nat, nat)>,          // answered pings, by connection and version, to be acted on
    ignored: set<(nat, nat)>,        // notifications read on a connection that was not live
    lists: map<nat, ListCall>,       // by ticket
    subs: map<nat, SubCall>,
    tickets: nat,                    // the last ticket taken
    gens: nat,                       // the last connection made
    live: nat,                       // 0 for none
    cache: Cache<nat, nat>,
    top: nat)                        // the newest status the client has taken note of

  function Init(): World {
    World(1, {}, map[], {}, {}, map[], map[], 0, 0, 0, Cache(0, None, 0, false, Record(0, false, 0, false, 0, 0)), 0)
  }

  datatype Action =
    | Change                          // the address's history changes
    | Connect                         // a new connection is live
    | Drop                            // the live connection is closed or lost
    | OtherTicket                     // a ticket for another address
    | SendList
    | AnswerList(ticket: nat)
    | CommitList(ticket: nat, now: nat)
    | RefuseList(ticket: nat)
    | FailList(ticket: nat, f: Failure)
    | SendSubscribe(id: nat)
    | AnswerSubscribe(id: nat)
    | CommitSub(id: nat, now: nat)
    | FailSubscribe(id: nat, f: Failure)
    | AnswerPing(gen: nat)
    | Read(gen: nat)                  // the reader takes the next message
    | ActOnPing(gen: nat, version: nat, now: nat)
    | TakeChanged                     // the refresher takes the pending mark

  predicate Enabled(w: World, a: Action) {
    match a
    case Change => true
    case Connect => true
    case Drop => true
    case OtherTicket => true
    case SendList => true
    case AnswerList(t) => t in w.lists && w.lists[t].answer.None? && w.lists[t].gen != 0
    case CommitList(t, now) => t in w.lists && w.lists[t].answer.Some? && now != 0
    case RefuseList(t) => t in w.lists
    case FailList(t, _) => t in w.lists
    case SendSubscribe(id) => id !in w.subs
    case AnswerSubscribe(id) => id in w.subs && w.subs[id].answer.None? && w.subs[id].gen in w.streams
    case CommitSub(id, now) => id in w.subs && w.subs[id].answer.Some? && now != 0
    case FailSubscribe(id, _) => id in w.subs
    case AnswerPing(gen) => gen in w.streams
    case Read(gen) => gen in w.streams && w.streams[gen] != []
    case ActOnPing(gen, version, now) => (gen, version) in w.pings && now != 0
    case TakeChanged => true
  }

  function Max(a: nat, b: nat): nat {
    if a < b then b else a
  }

  /** One notification on every connection that has subscribed. */
  function Announced(w: World): map<nat, seq<Message>> {
    map g | g in w.streams :: if g in w.notified then w.streams[g] + [Notify(w.version + 1)] else w.streams[g]
  }

  function Noted(w: World, gen: nat, version: nat): World {
    w.(cache := NoteChange(w.cache, w.live, gen, version),
       top := if gen == w.live then Max(w.top, version) else w.top,
       ignored := if gen == w.live then w.ignored else w.ignored + {(gen, version)})
  }

  function Apply(w: World, a: Action): World
    requires Enabled(w, a)
  {
    match a
    case Change => w.(version := w.version + 1, streams := Announced(w))
    case Connect => w.(gens := w.gens + 1, live := w.gens + 1, streams := w.streams[w.gens + 1 := []])
    case Drop => w.(live := 0)
    case OtherTicket => w.(tickets := w.tickets + 1)
    case SendList =>
      w.(tickets := w.tickets + 1, lists := w.lists[w.tickets + 1 := ListCall(w.live, w.cache.rec.noted, None)])
    case AnswerList(t) => w.(lists := w.lists[t := w.lists[t].(answer := Some(w.version))])
    case CommitList(t, now) =>
      var call := w.lists[t];
      w.(lists := w.lists - {t},
         cache := CommitRefresh(w.cache, w.live, call.gen, call.notedBefore, t, call.answer.value, now))
    case RefuseList(t) => w.(lists := w.lists - {t}, cache := RefuseReply(w.cache, w.live, w.lists[t].gen, t))
    case FailList(t, f) => w.(lists := w.lists - {t}, cache := NoReply(w.cache, t, f))
    case SendSubscribe(id) => w.(subs := w.subs[id := SubCall(w.live, None)])
    case AnswerSubscribe(id) =>
      w.(subs := w.subs[id := w.subs[id].(answer := Some(w.version))], notified := w.notified + {w.subs[id].gen})
    case CommitSub(id, now) =>
      var call := w.subs[id];
      w.(subs := w.subs - {id},
         cache := CommitSubscribe(w.cache, w.live, call.gen, call.answer.value, now),
         top := if call.gen == w.live then Max(w.top, call.answer.value) else w.top)
    case FailSubscribe(id, f) => w.(subs := w.subs - {id}, cache := SubscribeFailed(w.cache, f))
    case AnswerPing(gen) => w.(streams := w.streams[gen := w.streams[gen] + [Pong(w.version)]])
    case Read(gen) =>
      var w1 := w.(streams := w.streams[gen := w.streams[gen][1..]]);
      (match w.streams[gen][0]
       case Notify(version) => Noted(w1, gen, version)
       case Pong(version) => w1.(pings := w.pings + {(gen, version)}))
    case ActOnPing(gen, version, now) => w.(pings := w.pings - {(gen, version)}, cache := Touch(w.cache, gen, now))
    case TakeChanged => w.(cache := w.cache.(changed := false))
  }

  // ----- Runs -----

  ghost predicate Next(w: World, w': World) {
    exists a :: Enabled(w, a) && w' == Apply(w, a)
  }

  ghost predicate StepAt(worlds: seq<World>, k: nat) {
    k + 1 < |worlds| && Next(worlds[k], worlds[k + 1])
  }

  ghost predicate Run(worlds: seq<World>) {
    && worlds != [] && worlds[0] == Init()
    && forall k :: 0 <= k < |worlds| - 1 ==> StepAt(worlds, k)
  }

  ghost predicate Reachable(w: World) {
    exists worlds :: Run(worlds) && w in worlds
  }

  // ----- What every run keeps -----

  /** The change to `version` is on the way: its notification is unread. */
  predicate Unread(w: World, gen: nat, version: nat) {
    gen in w.streams && Notify(version) in w.streams[gen]
  }

  /** The client was told of this version on this connection and took note, or
      ignored it. */
  predicate Heard(w: World, gen: nat, version: nat) {
    version <= w.top || (gen, version) in w.ignored
  }

  /** It has heard of the server's version, or will on reading. */
  predicate Covered(w: World, gen: nat) {
    Heard(w, gen, w.version) || Unread(w, gen, w.version)
  }

  ghost predicate ServerInv(w: World) {
    && 0 < w.version && w.top <= w.version && w.cache.utxos <= w.version
    && w.live <= w.gens
    && (w.live != 0 ==> w.live in w.streams)
    && (forall g | g in w.streams :: 0 < g <= w.gens)
    && (forall g | g in w.notified :: g in w.streams)
    && (forall t | t in w.lists && w.lists[t].answer.Some? :: w.lists[t].answer.value <= w.version)
    && (forall g, k | g in w.streams && 0 <= k < |w.streams[g]| :: w.streams[g][k].version <= w.version)
    && (forall g, v | (g, v) in w.ignored :: 0 < g <= w.gens && g != w.live)
  }

  /** A call that no noted change overtook was answered no earlier than the
      newest status; later tickets have seen at least as many changes. */
  predicate ListInv(w: World) {
    && (forall t | t in w.lists :: t <= w.tickets && w.lists[t].notedBefore <= w.cache.rec.noted)
    && (forall t | t in w.lists && w.lists[t].notedBefore == w.cache.rec.noted && w.lists[t].answer.Some? ::
          w.top <= w.lists[t].answer.value)
    && (forall t, u | t in w.lists && u in w.lists && t <= u :: w.lists[t].notedBefore <= w.lists[u].notedBefore)
  }

  /** A clean record's set is no older than the newest status noted, and every
      call that can still commit was sent after the last noted change. */
  predicate CleanInv(w: World) {
    && (w.cache.status.Some? ==> w.cache.status.value <= w.top)
    && (Clean(w.cache.rec) ==>
          && w.top <= w.cache.utxos
          && (forall t | t in w.lists && w.cache.rec.commit <= t :: w.lists[t].notedBefore == w.cache.rec.noted))
  }

  /** On every connection: every change since a subscription was answered is
      heard of or unread. */
  predicate SubInv(w: World) {
    && (forall id | id in w.subs :: w.subs[id].gen <= w.gens)
    && (forall id | id in w.subs && w.subs[id].answer.Some? ::
          w.subs[id].gen in w.notified && w.subs[id].answer.value <= w.version)
    && (forall id | id in w.subs && w.subs[id].answer.Some? ::
          w.version <= w.subs[id].answer.value || Covered(w, w.subs[id].gen))
    && w.cache.subscribed <= w.gens
    && (w.cache.subscribed != 0 ==> w.cache.subscribed in w.notified)
    && (w.cache.subscribed != 0 ==> Covered(w, w.cache.subscribed))
  }

  ghost predicate Inv(w: World) {
    ServerInv(w) && ListInv(w) && CleanInv(w) && SubInv(w)
  }

  lemma ChangeKeeps(w: World)
    requires Inv(w)
    ensures Inv(Apply(w, Change))
  {
    var w' := Apply(w, Change);
    forall g | g in w.notified ensures Unread(w', g, w'.version) {
      assert w'.streams[g][|w.streams[g]|] == Notify(w'.version);
    }
  }

  lemma ConnectKeeps(w: World)
    requires Inv(w)
    ensures Inv(Apply(w, Connect))
  {
  }

  lemma DropKeeps(w: World, a: Action)
    requires Inv(w) && (a.Drop? || a.OtherTicket?)
    ensures Inv(Apply(w, a))
  {
  }

  lemma SendListKeeps(w: World)
    requires Inv(w)
    ensures Inv(Apply(w, SendList))
  {
  }

  lemma AnswerListKeeps(w: World, t: nat)
    requires Inv(w) && Enabled(w, AnswerList(t))
    ensures Inv(Apply(w, AnswerList(t)))
  {
  }

  lemma RefuseListKeeps(w: World, t: nat)
    requires Inv(w) && Enabled(w, RefuseList(t))
    ensures Inv(Apply(w, RefuseList(t)))
  {
  }

  lemma FailListKeeps(w: World, t: nat, f: Failure)
    requires Inv(w) && Enabled(w, FailList(t, f))
    ensures Inv(Apply(w, FailList(t, f)))
  {
  }

  lemma CommitListKeeps(w: World, t: nat, now: nat)
    requires Inv(w) && Enabled(w, CommitList(t, now))
    ensures Inv(Apply(w, CommitList(t, now)))
  {
  }

  lemma SendSubscribeKeeps(w: World, id: nat)
    requires Inv(w) && Enabled(w, SendSubscribe(id))
    ensures Inv(Apply(w, SendSubscribe(id)))
  {
  }

  lemma FailSubscribeKeeps(w: World, id: nat, f: Failure)
    requires Inv(w) && Enabled(w, FailSubscribe(id, f))
    ensures Inv(Apply(w, FailSubscribe(id, f)))
  {
  }

  lemma AnswerSubscribeKeeps(w: World, id: nat)
    requires Inv(w) && Enabled(w, AnswerSubscribe(id))
    ensures Inv(Apply(w, AnswerSubscribe(id)))
  {
  }

  lemma CommitSubKeeps(w: World, id: nat, now: nat)
    requires Inv(w) && Enabled(w, CommitSub(id, now))
    ensures Inv(Apply(w, CommitSub(id, now)))
  {
  }

  lemma PingsKeep(w: World, a: Action)
    requires Inv(w) && Enabled(w, a) && (a.ActOnPing? || a.TakeChanged?)
    ensures Inv(Apply(w, a))
  {
  }

  lemma AnswerPingKeeps(w: World, gen: nat)
    requires Inv(w) && Enabled(w, AnswerPing(gen))
    ensures Inv(Apply(w, AnswerPing(gen)))
  {
    forall g | Unread(w, g, w.version) ensures Unread(Apply(w, AnswerPing(gen)), g, w.version) {
    }
  }

  /** Reading one message loses no coverage of any connection. */
  lemma ReadCovers(w: World, gen: nat, g: nat)
    requires ServerInv(w) && Enabled(w, Read(gen)) && Covered(w, g)
    ensures Covered(Apply(w, Read(gen)), g)
  {
    var w' := Apply(w, Read(gen));
    if Unread(w, g, w.version) {
      var k :| 0 <= k < |w.streams[g]| && w.streams[g][k] == Notify(w.version);
      if gen == g && k > 0 {
        assert w'.streams[gen][k - 1] == Notify(w.version);
      }
    }
  }

  lemma ReadServer(w: World, gen: nat)
    requires ServerInv(w) && Enabled(w, Read(gen))
    ensures ServerInv(Apply(w, Read(gen)))
  {
    assert w.streams[gen][0].version <= w.version;
  }

  lemma ReadLists(w: World, gen: nat)
    requires ServerInv(w) && ListInv(w) && CleanInv(w) && Enabled(w, Read(gen))
    ensures ListInv(Apply(w, Read(gen)))
  {
  }

  lemma ReadCleans(w: World, gen: nat)
    requires ServerInv(w) && ListInv(w) && CleanInv(w) && Enabled(w, Read(gen))
    ensures CleanInv(Apply(w, Read(gen)))
  {
  }

  lemma ReadSubs(w: World, gen: nat)
    requires ServerInv(w) && SubInv(w) && Enabled(w, Read(gen))
    ensures SubInv(Apply(w, Read(gen)))
  {
    forall g | Covered(w, g) ensures Covered(Apply(w, Read(gen)), g) {
      ReadCovers(w, gen, g);
    }
  }

  lemma ReadKeeps(w: World, gen: nat)
    requires Inv(w) && Enabled(w, Read(gen))
    ensures Inv(Apply(w, Read(gen)))
  {
    ReadServer(w, gen);
    ReadLists(w, gen);
    ReadCleans(w, gen);
    ReadSubs(w, gen);
  }

  lemma ApplyKeeps(w: World, a: Action)
    requires Inv(w) && Enabled(w, a)
    ensures Inv(Apply(w, a))
  {
    match a
    case Change => ChangeKeeps(w);
    case Connect => ConnectKeeps(w);
    case Drop => DropKeeps(w, a);
    case OtherTicket => DropKeeps(w, a);
    case SendList => SendListKeeps(w);
    case AnswerList(t) => AnswerListKeeps(w, t);
    case RefuseList(t) => RefuseListKeeps(w, t);
    case FailList(t, f) => FailListKeeps(w, t, f);
    case CommitList(t, now) => CommitListKeeps(w, t, now);
    case SendSubscribe(id) => SendSubscribeKeeps(w, id);
    case AnswerSubscribe(id) => AnswerSubscribeKeeps(w, id);
    case FailSubscribe(id, f) => FailSubscribeKeeps(w, id, f);
    case CommitSub(id, now) => CommitSubKeeps(w, id, now);
    case AnswerPing(gen) => AnswerPingKeeps(w, gen);
    case ActOnPing(_, _, _) => PingsKeep(w, a);
    case TakeChanged => PingsKeep(w, a);
    case Read(gen) => ReadKeeps(w, gen);
  }

  lemma {:induction false} RunKeeps(worlds: seq<World>, k: nat)
    requires Run(worlds) && k < |worlds|
    ensures Inv(worlds[k])
  {
    if k > 0 {
      RunKeeps(worlds, k - 1);
      assert StepAt(worlds, k - 1);
      var a :| Enabled(worlds[k - 1], a) && worlds[k] == Apply(worlds[k - 1], a);
      ApplyKeeps(worlds[k - 1], a);
    }
  }

  lemma ReachableInv(w: World)
    requires Reachable(w)
    ensures Inv(w)
  {
    var worlds :| Run(worlds) && w in worlds;
    var k :| 0 <= k < |worlds| && worlds[k] == w;
    RunKeeps(worlds, k);
  }

  /** Freshness: whenever the record is clean and the address is subscribed on
      the live connection, the cached set is the server's current one, or the
      notification of the change to it is still unread on that connection. */
  lemma CleanIsFresh(w: World)
    requires Reachable(w) && Clean(w.cache.rec) && w.live != 0 && w.cache.subscribed == w.live
    ensures w.cache.utxos == w.version || Unread(w, w.live, w.version)
  {
    ReachableInv(w);
  }

  /** A clean record is never older than any change the client was told of. */
  lemma CleanCoversNoted(w: World)
    requires Reachable(w) && Clean(w.cache.rec)
    ensures w.top <= w.cache.utxos
    ensures w.cache.status.Some? ==> w.cache.status.value <= w.cache.utxos
  {
    ReachableInv(w);
  }

  // ----- The date a ping writes -----

  predicate NotifyBefore(s: seq<Message>, k: nat, version: nat) {
    exists j :: 0 <= j < k && j < |s| && s[j] == Notify(version)
  }

  predicate Answered(w: World, id: nat, gen: nat) {
    id in w.subs && w.subs[id].answer.Some? && w.subs[id].gen == gen
  }

  /** On a connection it is, or is about to be, subscribed on, the client has
      heard of `version`, or will have by the time something `before` it is
      read. */
  ghost predicate Told(w: World, gen: nat, before: bool, version: nat) {
    && (w.cache.subscribed == gen ==> before || Heard(w, gen, version))
    && (forall id | Answered(w, id, gen) :: before || Heard(w, gen, version) || version <= w.subs[id].answer.value)
  }

  ghost predicate PongTold(w: World, gen: nat, k: nat) {
    gen in w.streams && k < |w.streams[gen]| && w.streams[gen][k].Pong? ==>
      Told(w, gen, NotifyBefore(w.streams[gen], k, w.streams[gen][k].version), w.streams[gen][k].version)
  }

  /** Pings, of any connection: every change before one is heard of before it is
      acted on. */
  ghost predicate PongInv(w: World) {
    && (forall g, v | (g, v) in w.pings :: 0 < g <= w.gens && v <= w.version && Told(w, g, false, v))
    && (forall g: nat, k: nat :: PongTold(w, g, k))
  }

  /** Nothing here makes the client know less. */
  ghost predicate KnowsMore(w: World, w': World) {
    && w.top <= w'.top && w.ignored <= w'.ignored
    && (w'.cache.subscribed != w.cache.subscribed ==>
          exists id :: Answered(w, id, w'.cache.subscribed) && w.subs[id].answer.value <= w'.top)
    && (forall id | id in w'.subs && w'.subs[id].answer.Some? ::
          (id in w.subs && w'.subs[id] == w.subs[id]) || w.version <= w'.subs[id].answer.value)
  }

  lemma ToldKeeps(w: World, w': World, gen: nat, before: bool, version: nat)
    requires KnowsMore(w, w') && Told(w, gen, before, version) && version <= w.version
    ensures Told(w', gen, before, version)
  {
    forall id | Answered(w', id, gen) ensures before || Heard(w', gen, version) || version <= w'.subs[id].answer.value {
      assert id in w.subs && w'.subs[id] == w.subs[id] ==> Answered(w, id, gen);
    }
    if w'.cache.subscribed == gen && w.cache.subscribed != gen {
      var id :| Answered(w, id, gen) && w.subs[id].answer.value <= w'.top;
    }
  }

  /** What stands before a message stays when the stream grows at its end. */
  lemma GrownBefore(s: seq<Message>, tail: seq<Message>, k: nat, v: nat)
    requires NotifyBefore(s, k, v)
    ensures NotifyBefore(s + tail, k, v)
  {
    var j :| 0 <= j < k && j < |s| && s[j] == Notify(v);
    assert (s + tail)[j] == s[j];
  }

  lemma PingsTold(w: World, w': World)
    requires PongInv(w) && KnowsMore(w, w') && w'.pings <= w.pings && w.gens <= w'.gens && w.version <= w'.version
    ensures forall g, v | (g, v) in w'.pings :: 0 < g <= w'.gens && v <= w'.version && Told(w', g, false, v)
  {
    forall g, v | (g, v) in w'.pings ensures Told(w', g, false, v) {
      ToldKeeps(w, w', g, false, v);
    }
  }

  /** A ping already on a stream that at most grows. */
  lemma PongStays(w: World, w': World, gen: nat, tail: seq<Message>, k: nat)
    requires ServerInv(w) && PongTold(w, gen, k) && KnowsMore(w, w')
    requires gen in w.streams && gen in w'.streams && w'.streams[gen] == w.streams[gen] + tail && k < |w.streams[gen]|
    ensures PongTold(w', gen, k)
  {
    var s := w.streams[gen];
    if s[k].Pong? {
      ToldKeeps(w, w', gen, NotifyBefore(s, k, s[k].version), s[k].version);
      if NotifyBefore(s, k, s[k].version) {
        GrownBefore(s, tail, k, s[k].version);
      }
    }
  }

  /** A step that changes no stream. */
  lemma PongSame(w: World, w': World)
    requires ServerInv(w) && PongInv(w) && KnowsMore(w, w') && w'.streams == w.streams
    requires w'.pings <= w.pings && w.gens <= w'.gens && w.version <= w'.version
    ensures PongInv(w')
  {
    PingsTold(w, w');
    forall g: nat, k: nat ensures PongTold(w', g, k) {
      assert PongTold(w, g, k);
      if g in w.streams && k < |w.streams[g]| {
        assert w.streams[g] + [] == w.streams[g];
        PongStays(w, w', g, [], k);
      }
    }
  }

  lemma PongQuiet(w: World, a: Action)
    requires Inv(w) && PongInv(w) && Enabled(w, a)
    requires !a.Connect? && !a.AnswerPing? && !a.Read? && !a.Change?
    ensures PongInv(Apply(w, a))
  {
    var w' := Apply(w, a);
    assert KnowsMore(w, w') by {
      if a.CommitSub? && w.subs[a.id].gen == w.live {
        assert Answered(w, a.id, w.live) && w.subs[a.id].answer.value <= w'.top;
      }
    }
    PongSame(w, w');
  }

  /** A new connection has nothing on it. */
  lemma PongConnect(w: World)
    requires Inv(w) && PongInv(w)
    ensures PongInv(Apply(w, Connect))
  {
    var w' := Apply(w, Connect);
    PingsTold(w, w');
    forall g: nat, k: nat ensures PongTold(w', g, k) {
      assert PongTold(w, g, k);
      if g in w.streams && k < |w.streams[g]| && g != w.gens + 1 {
        assert w'.streams[g] == w.streams[g] + [];
        PongStays(w, w', g, [], k);
      }
    }
  }

  lemma PongChange(w: World)
    requires Inv(w) && PongInv(w)
    ensures PongInv(Apply(w, Change))
  {
    var w' := Apply(w, Change);
    PingsTold(w, w');
    forall g: nat, k: nat ensures PongTold(w', g, k) {
      assert PongTold(w, g, k);
      if g in w.streams && k < |w.streams[g]| {
        var tail := if g in w.notified then [Notify(w'.version)] else [];
        assert w'.streams[g] == w.streams[g] + tail;
        PongStays(w, w', g, tail, k);
      }
    }
  }

  /** The ping just answered stands behind the notification of every change the
      client has yet to hear of. */
  lemma PongFresh(w: World, gen: nat)
    requires Inv(w) && gen in w.streams
    ensures PongTold(Apply(w, AnswerPing(gen)), gen, |w.streams[gen]|)
  {
    var w' := Apply(w, AnswerPing(gen));
    var s := w.streams[gen];
    if Unread(w, gen, w.version) {
      var j :| 0 <= j < |s| && s[j] == Notify(w.version);
      assert NotifyBefore(s, |s|, w.version);
      GrownBefore(s, [Pong(w.version)], |s|, w.version);
    }
    forall id | Answered(w', id, gen)
      ensures NotifyBefore(w'.streams[gen], |s|, w.version) || Heard(w', gen, w.version) ||
              w.version <= w'.subs[id].answer.value
    {
      assert Answered(w, id, gen);
    }
    assert gen != 0;
  }

  lemma PongAnswered(w: World, gen: nat)
    requires Inv(w) && PongInv(w) && gen in w.streams
    ensures PongInv(Apply(w, AnswerPing(gen)))
  {
    var w' := Apply(w, AnswerPing(gen));
    PingsTold(w, w');
    forall g: nat, k: nat ensures PongTold(w', g, k) {
      assert PongTold(w, g, k);
      if g in w.streams && k < |w.streams[g]| {
        var tail := if g == gen then [Pong(w.version)] else [];
        assert w'.streams[g] == w.streams[g] + tail;
        PongStays(w, w', g, tail, k);
      } else if g == gen && k == |w.streams[g]| {
        PongFresh(w, gen);
      }
    }
  }

  /** What stood before a message still does, or was the message just read. */
  lemma ShiftedBefore(s: seq<Message>, k: nat, v: nat)
    requires s != [] && NotifyBefore(s, k + 1, v)
    ensures s[0] == Notify(v) || NotifyBefore(s[1..], k, v)
  {
    var j :| 0 <= j < k + 1 && j < |s| && s[j] == Notify(v);
    if j > 0 {
      assert s[1..][j - 1] == s[j];
    }
  }

  lemma PongRead(w: World, gen: nat)
    requires Inv(w) && PongInv(w) && Enabled(w, Read(gen))
    ensures PongInv(Apply(w, Read(gen)))
  {
    var w' := Apply(w, Read(gen));
    var s := w.streams[gen];
    assert s[0].version <= w.version;
    assert KnowsMore(w, w');
    forall g, v | (g, v) in w'.pings ensures 0 < g <= w'.gens && v <= w'.version && Told(w', g, false, v) {
      if (g, v) !in w.pings {
        assert PongTold(w, gen, 0) && !NotifyBefore(s, 0, v);
      }
      ToldKeeps(w, w', g, false, v);
    }
    forall g: nat, k: nat ensures PongTold(w', g, k) {
      PongReadAt(w, gen, g, k);
    }
  }

  lemma PongReadAt(w: World, gen: nat, g: nat, k: nat)
    requires Inv(w) && PongInv(w) && Enabled(w, Read(gen))
    requires KnowsMore(w, Apply(w, Read(gen)))
    ensures PongTold(Apply(w, Read(gen)), g, k)
  {
    if gen == g {
      PongShifts(w, gen, k);
    } else {
      assert PongTold(w, g, k);
      if g in w.streams && k < |w.streams[g]| {
        assert w.streams[g] + [] == w.streams[g];
        PongStays(w, Apply(w, Read(gen)), g, [], k);
      }
    }
  }

  lemma PongShifts(w: World, gen: nat, k: nat)
    requires ServerInv(w) && PongTold(w, gen, k + 1) && Enabled(w, Read(gen))
    requires KnowsMore(w, Apply(w, Read(gen)))
    ensures PongTold(Apply(w, Read(gen)), gen, k)
  {
    var w', s := Apply(w, Read(gen)), w.streams[gen];
    if k + 1 < |s| && s[k + 1].Pong? {
      var v := s[k + 1].version;
      assert s[1..][k] == s[k + 1];
      ToldKeeps(w, w', gen, NotifyBefore(s, k + 1, v), v);
      if NotifyBefore(s, k + 1, v) {
        ShiftedBefore(s, k, v);
      }
    }
  }

  lemma PongApply(w: World, a: Action)
    requires Inv(w) && PongInv(w) && Enabled(w, a)
    ensures PongInv(Apply(w, a))
  {
    match a
    case Connect => PongConnect(w);
    case Change => PongChange(w);
    case AnswerPing(gen) => PongAnswered(w, gen);
    case Read(gen) => PongRead(w, gen);
    case _ => PongQuiet(w, a);
  }

  lemma {:induction false} PongRun(worlds: seq<World>, k: nat)
    requires Run(worlds) && k < |worlds|
    ensures PongInv(worlds[k])
  {
    if k > 0 {
      PongRun(worlds, k - 1);
      RunKeeps(worlds, k - 1);
      assert StepAt(worlds, k - 1);
      var a :| Enabled(worlds[k - 1], a) && worlds[k] == Apply(worlds[k - 1], a);
      PongApply(worlds[k - 1], a);
    }
  }

  /** When a ping misdates, exactly: a ping answered on any connection that dates
      the cached set dates it too late, the server having held a newer one when
      it answered, if and only if a notification of a change between the two was
      read on that connection and ignored because it was no longer live. */
  lemma PingMisdatesExactly(w: World, gen: nat, version: nat, now: nat)
    requires Reachable(w) && (gen, version) in w.pings && Touch(w.cache, gen, now) != w.cache
    ensures w.cache.utxos < version <==> exists v :: (gen, v) in w.ignored && w.cache.utxos < v <= version
  {
    var worlds :| Run(worlds) && w in worlds;
    var k :| 0 <= k < |worlds| && worlds[k] == w;
    RunKeeps(worlds, k);
    PongRun(worlds, k);
    if w.cache.utxos < version {
      assert Told(w, gen, false, version);
      assert (gen, version) in w.ignored;
    }
  }

  /** So a ping of the live connection, where nothing is ignored, never dates a
      set that is older than what the server held when it answered the ping. */
  lemma PingDatesHonestly(w: World, version: nat, now: nat)
    requires Reachable(w) && w.live != 0 && (w.live, version) in w.pings
    requires Touch(w.cache, w.live, now) != w.cache
    ensures version <= w.cache.utxos
  {
    ReachableInv(w);
    PingMisdatesExactly(w, w.live, version, now);
  }

  lemma StepReaches(w: World, a: Action)
    requires Reachable(w) && Enabled(w, a)
    ensures Reachable(Apply(w, a))
  {
    var worlds :| Run(worlds) && w in worlds;
    var n :| 0 <= n < |worlds| && worlds[n] == w;
    var run := worlds[..n + 1] + [Apply(w, a)];
    forall k | 0 <= k < |run| - 1 ensures StepAt(run, k) {
      if k < n {
        assert StepAt(worlds, k);
      } else {
        assert Enabled(run[k], a);
      }
    }
    assert Apply(w, a) in run;
  }

  lemma InitReachable()
    ensures Reachable(Init())
  {
    assert Run([Init()]);
  }

  /** It does happen: a ping answered on a connection that has since been dropped
      dates a set the server had already reported changed, the notification
      ahead of it on the stream being ignored. */
  lemma DroppedPingMisdates() returns (w: World)
    ensures Reachable(w) && (1, 2) in w.pings && w.live != 1
    ensures Touch(w.cache, 1, 2) != w.cache && w.cache.utxos < 2
  {
    w := Subscribed();
    w := Refreshed(w);
    w := MissedChange(w);
  }

  lemma Subscribed() returns (w: World)
    ensures Reachable(w) && w.live == 1 && w.version == 1 && w.notified == {1} && w.streams == map[1 := []]
    ensures w.tickets == 0 && w.lists == map[] && w.cache == Cache(0, Some(1), 1, true, Record(0, false, 0, true, 1, 0))
  {
    InitReachable();
    w := Init();
    StepReaches(w, Connect);
    w := Apply(w, Connect);
    StepReaches(w, SendSubscribe(0));
    w := Apply(w, SendSubscribe(0));
    StepReaches(w, AnswerSubscribe(0));
    w := Apply(w, AnswerSubscribe(0));
    StepReaches(w, CommitSub(0, 1));
    w := Apply(w, CommitSub(0, 1));
  }

  lemma Refreshed(w: World) returns (w': World)
    requires Reachable(w) && w.live == 1 && w.version == 1 && w.notified == {1} && w.streams == map[1 := []]
    requires w.tickets == 0 && w.lists == map[] &&
             w.cache == Cache(0, Some(1), 1, true, Record(0, false, 0, true, 1, 0))
    ensures Reachable(w') && w'.live == 1 && w'.version == 1 && w'.notified == {1} && w'.streams == map[1 := []]
    ensures w'.cache == Cache(1, Some(1), 1, true, Record(1, false, 1, false, 1, 1))
  {
    StepReaches(w, SendList);
    w' := Apply(w, SendList);
    StepReaches(w', AnswerList(1));
    w' := Apply(w', AnswerList(1));
    StepReaches(w', CommitList(1, 1));
    w' := Apply(w', CommitList(1, 1));
  }

  lemma MissedChange(w: World) returns (w': World)
    requires Reachable(w) && w.live == 1 && w.version == 1 && w.notified == {1} && w.streams == map[1 := []]
    ensures Reachable(w') && (1, 2) in w'.pings && w'.live == 0 && w'.cache == w.cache
  {
    StepReaches(w, Change);
    w' := Apply(w, Change);
    assert w'.streams[1] == [Notify(2)];
    StepReaches(w', AnswerPing(1));
    w' := Apply(w', AnswerPing(1));
    StepReaches(w', Drop);
    w' := Apply(w', Drop);
    StepReaches(w', Read(1));
    w' := Apply(w', Read(1));
    assert w'.streams[1] == [Pong(2)];
    StepReaches(w', Read(1));
    w' := Apply(w', Read(1));
  }
}
