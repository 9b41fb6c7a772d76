/** What Recover does to the spent set it loaded, with every write durable and
    nothing sent: four passes, each over ids in any order, each operation at
    its own reading of the clock. */
module WithdrawalRecovery {
  import opened SpentSet
  import opened Withdrawal
  import opened WithdrawalRecords
  import opened WithdrawalInputs
  import opened WithdrawalOwnership

  predicate IsIn(s: Intents, id: string, states: set<State>) {
    id in s && s[id].state in states
  }

  predicate Abandoned(s: Intents, id: string) {
    IsIn(s, id, {Failed}) && s[id].abandonedAt != 0
  }

  predicate Known(ids: seq<string>, s: Intents) {
    forall k | 0 <= k < |ids| :: ids[k] in s
  }

  // ----- The passes -----

  /** Re-marks the inputs of Broadcast intents. */
  function MarkAll(m: Entries, s: Intents, ids: seq<string>, times: seq<nat>): Entries
    requires |ids| <= |times| && Known(ids, s)
  {
    if ids == [] then m
    else
      var k := |ids| - 1;
      AfterMark(MarkAll(m, s, ids[..k], times), s[ids[k]].inputs, s[ids[k]].txid, ids[k], times[k])
  }

  lemma {:induction false} MarkAllMore(m: Entries, s: Intents, ids: seq<string>, times: seq<nat>, now: nat)
    requires |ids| == |times| + 1 && Known(ids, s)
    ensures var k := |ids| - 1;
            MarkAll(m, s, ids, times + [now]) ==
            AfterMark(MarkAll(m, s, ids[..k], times), s[ids[k]].inputs, s[ids[k]].txid, ids[k], now)
  {
    MarkAllTimes(m, s, ids[..|ids| - 1], times, times + [now]);
  }

  lemma MarkAllNext(m: Entries, s: Intents, ids: seq<string>, times: seq<nat>, now: nat)
    requires |times| < |ids| && Known(ids, s)
    ensures var k := |times|;
            MarkAll(m, s, ids[..k + 1], times + [now]) ==
            AfterMark(MarkAll(m, s, ids[..k], times), s[ids[k]].inputs, s[ids[k]].txid, ids[k], now)
  {
    assert ids[..|times| + 1][..|times|] == ids[..|times|];
    MarkAllMore(m, s, ids[..|times| + 1], times, now);
  }

  /** Only the readings that belong to the ids matter. */
  lemma {:induction false} MarkAllTimes(m: Entries, s: Intents, ids: seq<string>, times: seq<nat>, more: seq<nat>)
    requires |ids| <= |times| && times <= more && Known(ids, s)
    ensures MarkAll(m, s, ids, times) == MarkAll(m, s, ids, more)
  {
    if ids != [] {
      MarkAllTimes(m, s, ids[..|ids| - 1], times, more);
    }
  }

  /** Drops what abandoned intents own. */
  function DropAll(m: Entries, s: Intents, ids: seq<string>): Entries {
    if ids == [] then m
    else
      var k := |ids| - 1;
      var m1 := DropAll(m, s, ids[..k]);
      if Abandoned(s, ids[k]) then AfterForget(m1, ids[k]) else m1
  }

  /** Releases the reservations of intents with nothing built. */
  function ReleaseAll(m: Entries, s: Intents, ids: seq<string>): Entries {
    if ids == [] then m
    else
      var k := |ids| - 1;
      var m1 := ReleaseAll(m, s, ids[..k]);
      if IsIn(s, ids[k], {Created, Failed}) then AfterRelease(m1, ids[k]) else m1
  }

  /** One Built intent: a held one is marked, any other is reserved again when
      nothing stands in the way. */
  function Redriven(m: Entries, r: Intent, id: string, now: nat, ttl: nat): Entries {
    if Held(r) then AfterMark(m, r.inputs, HoldTxid(r), id, now)
    else if CanReserve(m, r.inputs, id, now) then AfterReserve(m, r.inputs, id, now, ttl)
    else m
  }

  function RedriveAll(m: Entries, s: Intents, ids: seq<string>, times: seq<nat>, ttl: nat): Entries
    requires |ids| <= |times| && Known(ids, s)
  {
    if ids == [] then m
    else
      var k := |ids| - 1;
      Redriven(RedriveAll(m, s, ids[..k], times, ttl), s[ids[k]], ids[k], times[k], ttl)
  }

  lemma {:induction false} RedriveAllMore(m: Entries, s: Intents, ids: seq<string>, times: seq<nat>, now: nat, ttl: nat)
    requires |ids| == |times| + 1 && Known(ids, s)
    ensures var k := |ids| - 1;
            RedriveAll(m, s, ids, times + [now], ttl) ==
            Redriven(RedriveAll(m, s, ids[..k], times, ttl), s[ids[k]], ids[k], now, ttl)
  {
    RedriveAllTimes(m, s, ids[..|ids| - 1], times, times + [now], ttl);
  }

  lemma RedriveAllNext(m: Entries, s: Intents, ids: seq<string>, times: seq<nat>, now: nat, ttl: nat)
    requires |times| < |ids| && Known(ids, s)
    ensures var k := |times|;
            RedriveAll(m, s, ids[..k + 1], times + [now], ttl) ==
            Redriven(RedriveAll(m, s, ids[..k], times, ttl), s[ids[k]], ids[k], now, ttl)
  {
    assert ids[..|times| + 1][..|times|] == ids[..|times|];
    RedriveAllMore(m, s, ids[..|times| + 1], times, now, ttl);
  }

  lemma {:induction false} RedriveAllTimes(m: Entries, s: Intents, ids: seq<string>, times: seq<nat>, more: seq<nat>,
                                           ttl: nat)
    requires |ids| <= |times| && times <= more && Known(ids, s)
    ensures RedriveAll(m, s, ids, times, ttl) == RedriveAll(m, s, ids, more, ttl)
  {
    if ids != [] {
      RedriveAllTimes(m, s, ids[..|ids| - 1], times, more, ttl);
    }
  }

  // ----- The orders the passes may take -----

  predicate Once(ids: seq<string>) {
    forall i, j :: 0 <= i < j < |ids| ==> ids[i] != ids[j]
  }

  ghost predicate Lists(ids: seq<string>, s: Intents, state: State) {
    Once(ids) && (forall k | 0 <= k < |ids| :: IsIn(s, ids[k], {state})) &&
        forall id | IsIn(s, id, {state}) :: id in ids
  }

  predicate Sender(m: Entries, id: string) {
    exists p :: p in m && m[p].kind.Sent? && !m[p].confirmed && m[p].intent == id
  }

  predicate Reserver(m: Entries, id: string) {
    exists p :: p in m && m[p].kind.Reserved? && m[p].intent == id
  }

  datatype Orders = Orders(broadcast: seq<string>, sent: seq<string>, reserved: seq<string>, built: seq<string>,
                           marks: seq<nat>, redrives: seq<nat>)

  function AfterMarks(m: Entries, s: Intents, ord: Orders): Entries
    requires |ord.broadcast| <= |ord.marks| && Known(ord.broadcast, s)
  {
    MarkAll(m, s, ord.broadcast, ord.marks)
  }

  function AfterDrops(m: Entries, s: Intents, ord: Orders): Entries
    requires |ord.broadcast| <= |ord.marks| && Known(ord.broadcast, s)
  {
    ReleaseAll(DropAll(AfterMarks(m, s, ord), s, ord.sent), s, ord.reserved)
  }

  /** The ids are the ones each pass finds when it starts. */
  ghost predicate Proper(m: Entries, s: Intents, ord: Orders) {
    ProperDrops(m, s, ord) && Lists(ord.built, s, Built) && |ord.built| == |ord.redrives|
  }

  ghost predicate ProperDrops(m: Entries, s: Intents, ord: Orders) {
    && Lists(ord.broadcast, s, Broadcast) && |ord.broadcast| == |ord.marks|
    && (forall id :: id in ord.sent <==> id != "" && Sender(AfterMarks(m, s, ord), id))
    && (forall id :: id in ord.reserved <==> Reserver(DropAll(AfterMarks(m, s, ord), s, ord.sent), id))
  }

  ghost function Repaired(m: Entries, s: Intents, ord: Orders, ttl: nat): Entries
    requires Proper(m, s, ord)
  {
    RedriveAll(AfterDrops(m, s, ord), s, ord.built, ord.redrives, ttl)
  }

  // ----- What each pass does to one outpoint -----

  /** No other Broadcast intent shares an input with this one, and no intent
      held under its very txid does. */
  ghost predicate SentApart(s: Intents, i: string)
    requires i in s
  {
    && (forall j | IsIn(s, j, {Broadcast}) && j != i :: Disjoint(s[i].inputs, s[j].inputs))
    && (forall j | IsIn(s, j, {Built}) && Held(s[j]) && HoldTxid(s[j]) == s[i].txid ::
        Disjoint(s[i].inputs, s[j].inputs))
  }

  lemma {:induction false} MarkAllElsewhere(m: Entries, s: Intents, ids: seq<string>, times: seq<nat>, p: Outpoint)
    requires |ids| <= |times| && forall k | 0 <= k < |ids| :: ids[k] in s && p !in s[ids[k]].inputs
    ensures SameAt(m, MarkAll(m, s, ids, times), p)
  {
    if ids != [] {
      MarkAllElsewhere(m, s, ids[..|ids| - 1], times, p);
      assert ids[|ids| - 1] in ids;
    }
  }

  lemma CanMarkSame(m: Entries, m': Entries, inputs: seq<Outpoint>, txid: string, id: string)
    requires forall p | p in inputs :: SameAt(m, m', p)
    ensures CanMark(m, inputs, txid, id) == CanMark(m', inputs, txid, id)
  {
  }

  lemma CanReserveSame(m: Entries, m': Entries, inputs: seq<Outpoint>, id: string, now: nat)
    requires forall p | p in inputs :: SameAt(m, m', p)
    ensures CanReserve(m, inputs, id, now) == CanReserve(m', inputs, id, now)
  {
  }

  /** An unconfirmed record of a send. */
  predicate MarkedAs(m: Entries, p: Outpoint, txid: string, id: string) {
    SentBy(m, p, id) && m[p].kind.txid == txid && !m[p].confirmed
  }

  /** A mark takes effect when nothing stood in its way at the start, and
      otherwise leaves the inputs alone. */
  lemma {:induction false} MarkAllMarks(m: Entries, s: Intents, ids: seq<string>, times: seq<nat>, i: string)
    requires |ids| <= |times| && Once(ids) && i in ids && Known(ids, s) && i in s
    requires forall k | 0 <= k < |ids| && ids[k] != i :: Disjoint(s[i].inputs, s[ids[k]].inputs)
    ensures CanMark(m, s[i].inputs, s[i].txid, i) ==>
              forall p | p in s[i].inputs :: MarkedAs(MarkAll(m, s, ids, times), p, s[i].txid, i)
    ensures !CanMark(m, s[i].inputs, s[i].txid, i) ==>
              forall p | p in s[i].inputs :: SameAt(m, MarkAll(m, s, ids, times), p)
  {
    var k := |ids| - 1;
    var before := MarkAll(m, s, ids[..k], times);
    assert ids[k] in ids;
    if ids[k] == i {
      forall p | p in s[i].inputs ensures SameAt(m, before, p) {
        MarkAllElsewhere(m, s, ids[..k], times, p);
      }
      CanMarkSame(m, before, s[i].inputs, s[i].txid, i);
    } else {
      assert i in ids[..k];
      MarkAllMarks(m, s, ids[..k], times, i);
    }
  }

  lemma {:induction false} DropAllAt(m: Entries, s: Intents, ids: seq<string>, p: Outpoint)
    ensures p in DropAll(m, s, ids) <==> p in m && !(m[p].intent in ids && Abandoned(s, m[p].intent))
    ensures p in DropAll(m, s, ids) ==> DropAll(m, s, ids)[p] == m[p]
  {
    if ids != [] {
      DropAllAt(m, s, ids[..|ids| - 1], p);
      assert ids == ids[..|ids| - 1] + [ids[|ids| - 1]];
    }
  }

  lemma {:induction false} ReleaseAllAt(m: Entries, s: Intents, ids: seq<string>, p: Outpoint)
    ensures p in ReleaseAll(m, s, ids) <==>
              p in m && !(m[p].kind.Reserved? && m[p].intent in ids && IsIn(s, m[p].intent, {Created, Failed}))
    ensures p in ReleaseAll(m, s, ids) ==> ReleaseAll(m, s, ids)[p] == m[p]
  {
    if ids != [] {
      ReleaseAllAt(m, s, ids[..|ids| - 1], p);
      assert ids == ids[..|ids| - 1] + [ids[|ids| - 1]];
    }
  }

  lemma {:induction false} RedriveAllElsewhere(m: Entries, s: Intents, ids: seq<string>, times: seq<nat>, ttl: nat,
                                               p: Outpoint)
    requires |ids| <= |times| && forall k | 0 <= k < |ids| :: ids[k] in s && p !in s[ids[k]].inputs
    ensures SameAt(m, RedriveAll(m, s, ids, times, ttl), p)
  {
    if ids != [] {
      RedriveAllElsewhere(m, s, ids[..|ids| - 1], times, ttl, p);
      assert ids[|ids| - 1] in ids;
    }
  }

  lemma RedrivenElsewhere(m: Entries, r: Intent, id: string, now: nat, ttl: nat, p: Outpoint)
    requires p !in r.inputs
    ensures SameAt(m, Redriven(m, r, id, now, ttl), p)
  {
  }

  /** A Built intent's inputs end as if it alone had been redriven. */
  lemma {:induction false} RedriveAllAt(m: Entries, s: Intents, ids: seq<string>, times: seq<nat>, ttl: nat, n: nat,
                                        p: Outpoint)
    requires |ids| <= |times| && Once(ids) && NoShare(s) && n < |ids| && Known(ids, s)
    requires forall k | 0 <= k < |ids| :: HasBytes(s, ids[k])
    requires p in s[ids[n]].inputs
    ensures SameAt(Redriven(m, s[ids[n]], ids[n], times[n], ttl), RedriveAll(m, s, ids, times, ttl), p)
  {
    var k := |ids| - 1;
    var i := ids[n];
    var before := RedriveAll(m, s, ids[..k], times, ttl);
    if n == k {
      forall q | q in s[i].inputs ensures SameAt(m, before, q) {
        RedriveAllElsewhere(m, s, ids[..k], times, ttl, q);
      }
      RedrivenSame(m, before, s[i], i, times[n], ttl);
    } else {
      RedriveAllAt(m, s, ids[..k], times, ttl, n, p);
      RedrivenElsewhere(before, s[ids[k]], ids[k], times[k], ttl, p);
    }
  }

  lemma RedrivenSame(m: Entries, m': Entries, r: Intent, id: string, now: nat, ttl: nat)
    requires forall p | p in r.inputs :: SameAt(m, m', p)
    ensures forall p | p in r.inputs :: SameAt(Redriven(m, r, id, now, ttl), Redriven(m', r, id, now, ttl), p)
  {
    CanMarkSame(m, m', r.inputs, HoldTxid(r), id);
    CanReserveSame(m, m', r.inputs, id, now);
  }

  // ----- What Recover restores, from any pair of files -----

  /** The reservations and sends that are left for a Built intent's pass: what
      an abandoned sender or an intent with nothing built owned is gone. */
  lemma DropsAt(m: Entries, s: Intents, ord: Orders, p: Outpoint)
    requires ProperDrops(m, s, ord)
    ensures var m1 := AfterMarks(m, s, ord);
            var m3 := AfterDrops(m, s, ord);
            && (p in m3 ==> p in m1 && m3[p] == m1[p] &&
                            !(m1[p].kind.Reserved? && IsIn(s, m1[p].intent, {Created, Failed})))
            && (p in m1 && !Abandoned(s, m1[p].intent) && !IsIn(s, m1[p].intent, {Created, Failed}) ==> p in m3)
  {
    var m1 := AfterMarks(m, s, ord);
    var m2 := DropAll(m1, s, ord.sent);
    DropAllAt(m1, s, ord.sent, p);
    ReleaseAllAt(m2, s, ord.reserved, p);
    if p in m2 && m2[p].kind.Reserved? {
      assert Reserver(m2, m2[p].intent);
    }
  }

  /** The last pass takes nothing from a recorded send. */
  lemma {:induction false} RedriveKeepsSent(m: Entries, s: Intents, ids: seq<string>, times: seq<nat>, ttl: nat,
                                            i: string, p: Outpoint)
    requires |ids| <= |times| && Known(ids, s) && i in s && p in s[i].inputs
    requires forall k | 0 <= k < |ids| :: ids[k] != i && ids[k] != "" && IsIn(s, ids[k], {Built})
    requires SentApart(s, i) && MarkedAs(m, p, s[i].txid, i)
    ensures MarkedAs(RedriveAll(m, s, ids, times, ttl), p, s[i].txid, i)
  {
    if ids != [] {
      var k := |ids| - 1;
      RedriveKeepsSent(m, s, ids[..k], times, ttl, i, p);
      RedrivenKeepsSent(RedriveAll(m, s, ids[..k], times, ttl), s[ids[k]], ids[k], times[k], ttl, s[i].txid, i, p);
    }
  }

  lemma RedrivenKeepsSent(m: Entries, r: Intent, id: string, now: nat, ttl: nat, txid: string, i: string, p: Outpoint)
    requires MarkedAs(m, p, txid, i) && id != i && id != ""
    requires p in r.inputs && Held(r) ==> HoldTxid(r) != txid
    ensures MarkedAs(Redriven(m, r, id, now, ttl), p, txid, i)
  {
  }

  /** ... and gives nobody a record who is not Built. */
  lemma {:induction false} RedriveOwners(m: Entries, s: Intents, ids: seq<string>, times: seq<nat>, ttl: nat,
                                         p: Outpoint)
    requires |ids| <= |times| && Known(ids, s) && forall k | 0 <= k < |ids| :: IsIn(s, ids[k], {Built})
    ensures var m' := RedriveAll(m, s, ids, times, ttl);
            p in m' ==> SameAt(m, m', p) || IsIn(s, m'[p].intent, {Built})
  {
    if ids != [] {
      RedriveOwners(m, s, ids[..|ids| - 1], times, ttl, p);
      assert ids[|ids| - 1] in ids;
    }
  }

  /** A Broadcast intent ends owning permanent entries on all its inputs, and
      fails to exactly when another withdrawal's unconfirmed send of another
      transaction stands on one of them in the file. */
  lemma BroadcastRestored(m: Entries, s: Intents, ord: Orders, ttl: nat, i: string)
    requires Proper(m, s, ord) && "" !in s && IsIn(s, i, {Broadcast}) && SentApart(s, i)
    ensures (forall p | p in s[i].inputs :: SentBy(Repaired(m, s, ord, ttl), p, i)) <==>
              CanMark(m, s[i].inputs, s[i].txid, i)
  {
    var m1 := AfterMarks(m, s, ord);
    MarkAllMarks(m, s, ord.broadcast, ord.marks, i);
    if CanMark(m, s[i].inputs, s[i].txid, i) {
      forall p | p in s[i].inputs ensures SentBy(Repaired(m, s, ord, ttl), p, i) {
        DropsAt(m, s, ord, p);
        RedriveKeepsSent(AfterDrops(m, s, ord), s, ord.built, ord.redrives, ttl, i, p);
      }
    } else {
      var p :| p in s[i].inputs && p in m && SentByAnother(m[p], s[i].txid, i);
      assert SameAt(m, m1, p);
      DropsAt(m, s, ord, p);
      RedriveOwners(AfterDrops(m, s, ord), s, ord.built, ord.redrives, ttl, p);
    }
  }

  lemma NoShareApart(s: Intents, i: string)
    requires NoShare(s) && IsIn(s, i, {Broadcast})
    ensures SentApart(s, i)
  {
    assert HasBytes(s, i);
    forall j | IsIn(s, j, {Broadcast, Built}) && j != i ensures Disjoint(s[i].inputs, s[j].inputs) {
      assert HasBytes(s, j);
    }
  }

  lemma BuiltAt(m: Entries, s: Intents, ord: Orders, ttl: nat, n: nat)
    requires Proper(m, s, ord) && NoShare(s) && n < |ord.built|
    ensures IsIn(s, ord.built[n], {Built})
    ensures var i := ord.built[n];
            forall p | p in s[i].inputs ::
              SameAt(Redriven(AfterDrops(m, s, ord), s[i], i, ord.redrives[n], ttl), Repaired(m, s, ord, ttl), p)
  {
    assert ord.built[n] in ord.built;
    forall p | p in s[ord.built[n]].inputs
      ensures SameAt(Redriven(AfterDrops(m, s, ord), s[ord.built[n]], ord.built[n], ord.redrives[n], ttl),
                     Repaired(m, s, ord, ttl), p)
    {
      RedriveAllAt(AfterDrops(m, s, ord), s, ord.built, ord.redrives, ttl, n, p);
    }
  }

  /** A held intent likewise; what may stand in its way is what is left after
      the drops. */
  lemma HeldRestored(m: Entries, s: Intents, ord: Orders, ttl: nat, n: nat)
    requires Proper(m, s, ord) && NoShare(s) && n < |ord.built| && ord.built[n] != ""
    requires ord.built[n] in s && Held(s[ord.built[n]])
    ensures var i := ord.built[n];
            (forall p | p in s[i].inputs :: SentBy(Repaired(m, s, ord, ttl), p, i)) <==>
              CanMark(AfterDrops(m, s, ord), s[i].inputs, HoldTxid(s[i]), i)
  {
    BuiltAt(m, s, ord, ttl, n);
    var i := ord.built[n];
    var m3 := AfterDrops(m, s, ord);
    if !CanMark(m3, s[i].inputs, HoldTxid(s[i]), i) {
      var p :| p in s[i].inputs && p in m3 && SentByAnother(m3[p], HoldTxid(s[i]), i);
      assert SameAt(Redriven(m3, s[i], i, ord.redrives[n], ttl), Repaired(m, s, ord, ttl), p);
    }
  }

  /** Any other Built intent ends owning an entry that has not run out on every
      input exactly when none of them is someone else's after the drops. */
  lemma BuiltRestored(m: Entries, s: Intents, ord: Orders, ttl: nat, n: nat)
    requires Proper(m, s, ord) && NoShare(s) && n < |ord.built| && ord.built[n] != ""
    requires ord.built[n] in s && !Held(s[ord.built[n]])
    ensures var i := ord.built[n];
            (forall p | p in s[i].inputs ::
               OwnedBy(Repaired(m, s, ord, ttl), p, i) && !Expired(Repaired(m, s, ord, ttl)[p], ord.redrives[n])) <==>
              CanReserve(AfterDrops(m, s, ord), s[i].inputs, i, ord.redrives[n])
  {
    BuiltAt(m, s, ord, ttl, n);
    var i := ord.built[n];
    var m3 := AfterDrops(m, s, ord);
    var now := ord.redrives[n];
    if CanReserve(m3, s[i].inputs, i, now) {
      ReservedIsOwned(m3, s[i].inputs, i, now, ttl);
    } else {
      var p :| p in s[i].inputs && p in m3 && !Expired(m3[p], now) && m3[p].intent != i;
      assert SameAt(Redriven(m3, s[i], i, now, ttl), Repaired(m, s, ord, ttl), p);
    }
  }

  /** No intent with nothing built keeps a reservation. */
  lemma OrphansReleased(m: Entries, s: Intents, ord: Orders, ttl: nat, p: Outpoint)
    requires Proper(m, s, ord) && p in Repaired(m, s, ord, ttl) && Repaired(m, s, ord, ttl)[p].kind.Reserved?
    ensures !IsIn(s, Repaired(m, s, ord, ttl)[p].intent, {Created, Failed})
  {
    RedriveOwners(AfterDrops(m, s, ord), s, ord.built, ord.redrives, ttl, p);
    DropsAt(m, s, ord, p);
  }

  // ----- When Recover restores everything -----

  /** What the second and third pass drop: what an abandoned sender owns, and
      the reservations of intents with nothing built. */
  predicate Goes(m: Entries, s: Intents, e: Entry) {
    || (e.intent != "" && Abandoned(s, e.intent) && Sender(m, e.intent))
    || (e.kind.Reserved? && IsIn(s, e.intent, {Created, Failed}))
  }

  lemma DropsExactly(m: Entries, s: Intents, ord: Orders, p: Outpoint)
    requires ProperDrops(m, s, ord)
    ensures var m1, m3 := AfterMarks(m, s, ord), AfterDrops(m, s, ord);
            && (p in m3 <==> p in m1 && !Goes(m1, s, m1[p]))
            && (p in m3 ==> m3[p] == m1[p])
  {
    var m1 := AfterMarks(m, s, ord);
    var m2 := DropAll(m1, s, ord.sent);
    DropAllAt(m1, s, ord.sent, p);
    ReleaseAllAt(m2, s, ord.reserved, p);
    if p in m2 && m2[p].kind.Reserved? {
      assert Reserver(m2, m2[p].intent);
    }
  }

  /** A Built intent's input is someone else's, and Recover will not free it: for
      a held intent an unconfirmed send of another transaction, for any other an
      entry that has not run out. */
  predicate InTheWay(m: Entries, s: Intents, ord: Orders, i: string, now: nat, p: Outpoint)
    requires |ord.broadcast| <= |ord.marks| && Known(ord.broadcast, s) && i in s
  {
    && p in m && !Goes(AfterMarks(m, s, ord), s, m[p])
    && if Held(s[i]) then SentByAnother(m[p], HoldTxid(s[i]), i) else m[p].intent != i && !Expired(m[p], now)
  }

  lemma MarksElsewhere(m: Entries, s: Intents, ord: Orders, i: string, p: Outpoint)
    requires ProperDrops(m, s, ord) && NoShare(s) && IsIn(s, i, {Built}) && p in s[i].inputs
    ensures SameAt(m, AfterMarks(m, s, ord), p)
  {
    assert HasBytes(s, i);
    forall k | 0 <= k < |ord.broadcast| ensures p !in s[ord.broadcast[k]].inputs {
      assert HasBytes(s, ord.broadcast[k]) && ord.broadcast[k] != i;
    }
    MarkAllElsewhere(m, s, ord.broadcast, ord.marks, p);
  }

  lemma BuiltExactly(m: Entries, s: Intents, ord: Orders, ttl: nat, n: nat)
    requires Proper(m, s, ord) && NoShare(s) && "" !in s && n < |ord.built| && ord.built[n] in s
    ensures var i := ord.built[n];
            Restored(Repaired(m, s, ord, ttl), s[i], i, ord.redrives[n]) <==>
              !exists p :: p in s[i].inputs && InTheWay(m, s, ord, i, ord.redrives[n], p)
  {
    var i := ord.built[n];
    assert i in ord.built;
    forall p | p in s[i].inputs
      ensures p in AfterDrops(m, s, ord) <==> p in m && !Goes(AfterMarks(m, s, ord), s, m[p])
      ensures p in AfterDrops(m, s, ord) ==> AfterDrops(m, s, ord)[p] == m[p]
    {
      MarksElsewhere(m, s, ord, i, p);
      DropsExactly(m, s, ord, p);
    }
    if Held(s[i]) {
      HeldRestored(m, s, ord, ttl, n);
    } else {
      BuiltRestored(m, s, ord, ttl, n);
    }
  }

  /** An intent owns what its state asks for: permanent entries for one whose
      bytes may be out, entries that have not run out for one that waits. */
  predicate Restored(m: Entries, r: Intent, id: string, now: nat) {
    forall p | p in r.inputs ::
      if r.state == Broadcast || Held(r) then SentBy(m, p, id) else OwnedBy(m, p, id) && !Expired(m[p], now)
  }

  ghost predicate AllRestored(m: Entries, s: Intents, ord: Orders) {
    && (forall i | IsIn(s, i, {Broadcast}) :: Restored(m, s[i], i, 0))
    && (forall n | 0 <= n < |ord.built| && n < |ord.redrives| && ord.built[n] in s ::
          Restored(m, s[ord.built[n]], ord.built[n], ord.redrives[n]))
  }

  /** Recovery, exactly: from any pair of files in which no two intents with
      signed bytes share an input, Recover restores every one of them if and
      only if, in the set it loaded, no Broadcast intent's input carries another
      withdrawal's unconfirmed send of another transaction and nothing is in the
      way of a Built one. */
  lemma RecoversExactly(m: Entries, s: Intents, ord: Orders, ttl: nat)
    requires Proper(m, s, ord) && NoShare(s) && "" !in s
    ensures AllRestored(Repaired(m, s, ord, ttl), s, ord) <==>
              && (forall i | IsIn(s, i, {Broadcast}) :: CanMark(m, s[i].inputs, s[i].txid, i))
              && !exists n, p :: 0 <= n < |ord.built| && ord.built[n] in s && p in s[ord.built[n]].inputs &&
                                 InTheWay(m, s, ord, ord.built[n], ord.redrives[n], p)
  {
    var m' := Repaired(m, s, ord, ttl);
    forall i | IsIn(s, i, {Broadcast}) ensures Restored(m', s[i], i, 0) <==> CanMark(m, s[i].inputs, s[i].txid, i) {
      NoShareApart(s, i);
      BroadcastRestored(m, s, ord, ttl, i);
    }
    forall n | 0 <= n < |ord.built| && ord.built[n] in s
      ensures Restored(m', s[ord.built[n]], ord.built[n], ord.redrives[n]) <==>
                !exists p :: p in s[ord.built[n]].inputs && InTheWay(m, s, ord, ord.built[n], ord.redrives[n], p)
    {
      BuiltExactly(m, s, ord, ttl, n);
    }
  }

  // ----- From every crash point of every run -----

  lemma CrashPointIds(w: World, f: Intents)
    requires Reachable(w) && f in w.storeCrash
    ensures "" !in f
  {
    ReachableInv(w);
    assert "" in f ==> RecordOk(w, "", f[""]);
  }

  /** From whatever a power loss may leave of the two files, nothing stands in
      the way of a Broadcast intent unless an outpoint was reused. */
  lemma CrashPointMarks(w: World, f: Intents, c: Entries, now: nat, i: string)
    requires Reachable(w) && Orderly(w) && f in w.storeCrash && c in w.spentCrash && IsIn(f, i, {Broadcast})
    ensures CanMark(AfterLoad(c, now), f[i].inputs, f[i].txid, i)
  {
    OutUnsent(w, f, c, i);
    LoadedCanMark(c, now, f[i].inputs, f[i].txid, i);
  }

  lemma OutUnsent(w: World, f: Intents, c: Entries, i: string)
    requires Reachable(w) && Orderly(w) && f in w.storeCrash && c in w.spentCrash && IsIn(f, i, {Broadcast})
    ensures i != "" && forall p :: p in f[i].inputs ==> Unsent(c, p, i)
  {
    ReachableInv(w);
    assert RecordOk(w, i, f[i]);
    assert Out(w, i) && OutOk(w, i);
  }

  lemma LoadedCanMark(c: Entries, now: nat, inputs: seq<Outpoint>, txid: string, i: string)
    requires i != "" && forall p :: p in inputs ==> Unsent(c, p, i)
    ensures CanMark(AfterLoad(c, now), inputs, txid, i)
  {
  }

  /** The Broadcast half of recovery needs nothing of reservations or restarts:
      from every crash point of every run in which no outpoint was reused, every
      Broadcast intent ends with permanent entries of its own on all its inputs,
      unless an intent held under the same txid shares one of them. */
  lemma BroadcastRecovers(w: World, f: Intents, c: Entries, now: nat, ord: Orders, ttl: nat, i: string)
    requires Reachable(w) && Orderly(w) && f in w.storeCrash && c in w.spentCrash && IsIn(f, i, {Broadcast})
    requires Proper(AfterLoad(c, now), f, ord)
    requires forall j | IsIn(f, j, {Built}) && Held(f[j]) && HoldTxid(f[j]) == f[i].txid ::
               Disjoint(f[i].inputs, f[j].inputs)
    ensures forall p | p in f[i].inputs :: SentBy(Repaired(AfterLoad(c, now), f, ord, ttl), p, i)
  {
    CrashPointIds(w, f);
    CrashPointMarks(w, f, c, now, i);
    forall j | IsIn(f, j, {Broadcast}) && j != i ensures Disjoint(f[i].inputs, f[j].inputs) {
      BroadcastDisjoint(w, f, i, j);
    }
    BroadcastRestored(AfterLoad(c, now), f, ord, ttl, i);
  }

  lemma CrashPointOwned(w: World, f: Intents, c: Entries, now: nat, i: string, p: Outpoint)
    requires Reachable(w) && AllLive(w) && f in w.storeCrash && c in w.spentCrash
    requires IsIn(f, i, {Built}) && p in f[i].inputs && p !in w.confirmed
    ensures OwnedBy(AfterLoad(c, now), p, i)
  {
    BuiltOnDisk(w, f, c, i, p);
    assert OwnedBy(c, p, i) && !c[p].confirmed;
  }

  lemma BuiltOnDisk(w: World, f: Intents, c: Entries, i: string, p: Outpoint)
    requires Reachable(w) && AllLive(w) && f in w.storeCrash && c in w.spentCrash
    requires IsIn(f, i, {Built}) && p in f[i].inputs && p !in w.confirmed
    ensures OwnedBy(c, p, i) && !c[p].confirmed
  {
    ReachableInv(w);
    assert RecordOk(w, i, f[i]);
    OwnedOnDisk(w, c, i, p) by {
      assert MaybeIn(w, i, Built);
    }
  }

  lemma OwnedOnDisk(w: World, c: Entries, i: string, p: Outpoint)
    requires EntriesInv(w) && BuiltOwned(w) && MaybeIn(w, i, Built) && c in w.spentCrash
    requires i in w.store && p in w.store[i].inputs && p !in w.confirmed
    ensures OwnedBy(c, p, i) && !c[p].confirmed
  {
    assert AllOwned(w, i, w.store[i].inputs) && FlagsOk(w, c);
  }

  lemma CrashPointNoShare(w: World, f: Intents)
    requires Reachable(w) && AllLive(w) && f in w.storeCrash
    ensures NoShare(f)
  {
    forall i, j | HasBytes(f, i) && HasBytes(f, j) && i != j ensures Disjoint(f[i].inputs, f[j].inputs) {
      LiveDisjoint(w, f, i, j);
    }
  }

  /** Recovery: from every crash point of every run, whatever each of the two
      files holds and however late the process starts again, Recover restores
      every intent with signed bytes and leaves no reservation to an intent with
      nothing built. Up to the crash the run must not have reused an outpoint,
      taken an input over, let a Built intent's reservation run out or freed an
      input of one that a power loss may still leave Built, and no confirmation
      may have been recorded for the input of an intent that was never
      broadcast. */
  lemma RecoveryRestores(w: World, f: Intents, c: Entries, now: nat, ord: Orders, ttl: nat)
    requires Reachable(w) && AllLive(w) && f in w.storeCrash && c in w.spentCrash
    requires Proper(AfterLoad(c, now), f, ord)
    requires forall i, p | IsIn(f, i, {Built}) && p in f[i].inputs :: p !in w.confirmed
    ensures var m' := Repaired(AfterLoad(c, now), f, ord, ttl);
            && AllRestored(m', f, ord)
            && (forall p | p in m' && m'[p].kind.Reserved? :: !IsIn(f, m'[p].intent, {Created, Failed}))
  {
    var m := AfterLoad(c, now);
    CrashPointNoShare(w, f);
    CrashPointIds(w, f);
    forall i | IsIn(f, i, {Broadcast}) ensures CanMark(m, f[i].inputs, f[i].txid, i) {
      CrashPointMarks(w, f, c, now, i);
    }
    forall n, p | 0 <= n < |ord.built| && ord.built[n] in f && p in f[ord.built[n]].inputs
      ensures !InTheWay(m, f, ord, ord.built[n], ord.redrives[n], p)
    {
      assert ord.built[n] in ord.built;
      CrashPointOwned(w, f, c, now, ord.built[n], p);
    }
    RecoversExactly(m, f, ord, ttl);
    forall p | p in Repaired(m, f, ord, ttl) && Repaired(m, f, ord, ttl)[p].kind.Reserved?
      ensures !IsIn(f, Repaired(m, f, ord, ttl)[p].intent, {Created, Failed})
    {
      OrphansReleased(m, f, ord, ttl, p);
    }
  }
}
