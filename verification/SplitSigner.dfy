/** The split signer's reconcile: it makes the signer's own spent set agree with
    a store that the broadcaster keeps changing. The store is read three times:
    the Built intents are listed, then the sent ones, then each holder of a
    reservation is looked up. */
module SplitSigner {
  import opened AtomicFile
  import opened SpentSet
  import SpentStore
  import opened Withdrawal
  import opened WithdrawalInputs
  import opened WithdrawalRecovery

  // ----- What the broadcaster may do between two readings -----

  predicate Moved(a: State, b: State) {
    match a
    case Created => b == Created
    case Built => b == Built || b == Broadcast || b == Confirmed || b == Failed
    case Broadcast => b == Broadcast || b == Confirmed || b == Failed
    case Confirmed => b == Confirmed
    case Failed => b == Failed
  }

  /** No record disappears or changes its inputs; only the signer builds, and new
      records are Created. */
  ghost predicate Moves(s: Intents, s': Intents) {
    && (forall id | id in s :: id in s' && s'[id].inputs == s[id].inputs && Moved(s[id].state, s'[id].state))
    && (forall id | id in s' && id !in s :: s'[id].state == Created)
  }

  // ----- The passes -----

  datatype Outcome = Stopped | Done(entries: Entries)

  predicate AllSpent(m: Entries, inputs: seq<Outpoint>, now: nat) {
    inputs != [] && forall p | p in inputs :: p in m && !Expired(m[p], now)
  }

  /** Nothing is marked for an intent that holds no reservation and whose inputs
      are all in the set already. */
  predicate Skips(m: Entries, r: Intent, id: string, now: nat) {
    !Reserver(m, id) && AllSpent(m, r.inputs, now)
  }

  function RecordSpend(m: Entries, r: Intent, id: string, now: nat): Outcome {
    if Skips(m, r, id, now) then Done(m)
    else if CanMark(m, r.inputs, HoldTxid(r), id) then Done(AfterMark(m, r.inputs, HoldTxid(r), id, now))
    else Stopped
  }

  function BuiltOne(m: Entries, r: Intent, id: string, now: nat, ttl: nat): Outcome {
    if Held(r) then RecordSpend(m, r, id, now)
    else if CanReserve(m, r.inputs, id, now) then Done(AfterReserve(m, r.inputs, id, now, ttl))
    else Stopped
  }

  function SentOne(m: Entries, r: Intent, id: string, now: nat): Outcome {
    if r.state == Confirmed then Done(AfterConfirm(m, r.inputs)) else RecordSpend(m, r, id, now)
  }

  function BuiltAll(m: Entries, s: Intents, ids: seq<string>, times: seq<nat>, ttl: nat): Outcome
    requires |ids| <= |times| && Known(ids, s)
  {
    if ids == [] then Done(m)
    else
      var k := |ids| - 1;
      match BuiltAll(m, s, ids[..k], times, ttl)
      case Stopped => Stopped
      case Done(m1) => BuiltOne(m1, s[ids[k]], ids[k], times[k], ttl)
  }

  function SentAll(m: Entries, s: Intents, ids: seq<string>, times: seq<nat>): Outcome
    requires |ids| <= |times| && Known(ids, s)
  {
    if ids == [] then Done(m)
    else
      var k := |ids| - 1;
      match SentAll(m, s, ids[..k], times)
      case Stopped => Stopped
      case Done(m1) => SentOne(m1, s[ids[k]], ids[k], times[k])
  }

  /** `get` is the store when an id is looked up. */
  function LetGo(m: Entries, get: string -> Intents, ids: seq<string>): Entries {
    if ids == [] then m
    else
      var k := |ids| - 1;
      var m1 := LetGo(m, get, ids[..k]);
      if IsIn(get(ids[k]), ids[k], {Created, Failed}) then AfterRelease(m1, ids[k]) else m1
  }

  datatype Readings = Readings(first: Intents, second: Intents, get: string -> Intents,
                               built: seq<string>, sent: seq<string>, holders: seq<string>,
                               times: seq<nat>, sentTimes: seq<nat>)

  ghost predicate Listed(r: Readings) {
    && Lists(r.built, r.first, Built) && |r.built| <= |r.times|
    && Known(r.sent, r.second) && |r.sent| <= |r.sentTimes|
    && (forall k | 0 <= k < |r.sent| :: IsIn(r.second, r.sent[k], {Broadcast, Confirmed}))
    && (forall id | IsIn(r.second, id, {Broadcast, Confirmed}) :: id in r.sent)
  }

  /** After the two listings, before the holders are looked up. */
  ghost function Marked(m: Entries, r: Readings, ttl: nat): Outcome
    requires Listed(r)
  {
    match BuiltAll(m, r.first, r.built, r.times, ttl)
    case Stopped => Stopped
    case Done(m1) => SentAll(m1, r.second, r.sent, r.sentTimes)
  }

  /** Every holder of a reservation is looked up. */
  ghost predicate LooksUp(m: Entries, r: Readings, ttl: nat)
    requires Listed(r)
  {
    Marked(m, r, ttl).Done? ==> forall id :: id in r.holders <==> Reserver(Marked(m, r, ttl).entries, id)
  }

  ghost function Reconciled(m: Entries, r: Readings, ttl: nat): Outcome
    requires Listed(r)
  {
    match Marked(m, r, ttl)
    case Stopped => Stopped
    case Done(m2) => Done(LetGo(m2, r.get, r.holders))
  }

  /** There is nothing to record: the intent holds no reservation, and every one
      of its inputs has an entry that has not run out. */
  ghost predicate IsSettled(m: Entries, inputs: seq<Outpoint>, id: string, now: nat) {
    && inputs != [] && (forall p :: p in m && m[p].intent == id ==> m[p].kind.Sent?)
    && forall p | p in inputs :: p in m && (m[p].kind.Reserved? ==> now <= m[p].kind.expiresAt)
  }

  /** What one look at an intent does, entry by entry: it is passed over, or its
      inputs are recorded under its own id and txid, or it stops. */
  lemma SpendExactly(m: Entries, r: Intent, id: string, now: nat)
    ensures var txid := if r.nodeTxid != "" then r.nodeTxid else r.txid;
            match RecordSpend(m, r, id, now)
            case Stopped => exists p :: p in r.inputs && p in m && AnothersSend(m[p], txid, id)
            case Done(m') =>
              if IsSettled(m, r.inputs, id, now) then m' == m else BecomeSent(m, m', r.inputs, id, txid, now)
  {
  }

  /** A Built intent's inputs are recorded when it is held, and else reserved. */
  lemma BuiltExactly(m: Entries, r: Intent, id: string, now: nat, ttl: nat)
    ensures r.nodeTxid != "" || r.hold ==> BuiltOne(m, r, id, now, ttl) == RecordSpend(m, r, id, now)
    ensures r.nodeTxid == "" && !r.hold ==>
              match BuiltOne(m, r, id, now, ttl)
              case Stopped => exists p :: p in r.inputs && p in m && Claimed(m[p], id, now)
              case Done(m') => BecomeReserved(m, m', r.inputs, id, now + ttl, now)
  {
  }

  /** A sent intent's are recorded, and flagged once it is Confirmed. */
  lemma SentExactly(m: Entries, r: Intent, id: string, now: nat)
    ensures r.state != Confirmed ==> SentOne(m, r, id, now) == RecordSpend(m, r, id, now)
    ensures r.state == Confirmed ==>
              var m' := SentOne(m, r, id, now);
              && m'.Done? && m'.entries.Keys == m.Keys
              && forall p | p in m :: m'.entries[p] == m[p].(confirmed := m[p].confirmed || p in r.inputs)
  {
  }

  // ----- No gap -----

  /** No input of an intent with signed bytes is under the reservation of
      another. */
  ghost predicate Clear(m: Entries, s: Intents) {
    forall i, p | HasBytes(s, i) && p in s[i].inputs && p in m && m[p].kind.Reserved? :: m[p].intent == i
  }

  predicate Recorded(m: Entries, r: Intent) {
    forall p | p in r.inputs :: p in m
  }

  lemma SpendRecords(m: Entries, r: Intent, id: string, now: nat)
    requires RecordSpend(m, r, id, now).Done?
    ensures var m' := RecordSpend(m, r, id, now).entries;
            Recorded(m', r) && m.Keys <= m'.Keys && (forall p | p !in r.inputs :: SameAt(m, m', p)) &&
            (forall p | p in m' && m'[p].kind.Reserved? :: p in m && m[p] == m'[p])
  {
  }

  lemma BuiltRecords(m: Entries, r: Intent, id: string, now: nat, ttl: nat)
    requires BuiltOne(m, r, id, now, ttl).Done?
    ensures var m' := BuiltOne(m, r, id, now, ttl).entries;
            Recorded(m', r) && m.Keys <= m'.Keys && (forall p | p !in r.inputs :: SameAt(m, m', p)) &&
            (forall p | p in m' && m'[p].kind.Reserved? :: (p in m && m[p] == m'[p]) || m'[p].intent == id)
  {
    if Held(r) {
      SpendRecords(m, r, id, now);
    }
  }

  lemma SentRecords(m: Entries, r: Intent, id: string, now: nat)
    requires SentOne(m, r, id, now).Done?
    ensures var m' := SentOne(m, r, id, now).entries;
            (r.state != Confirmed ==> Recorded(m', r)) && m.Keys <= m'.Keys &&
            (forall p | p in m' && m'[p].kind.Reserved? :: p in m && m[p].kind.Reserved? && m[p].intent == m'[p].intent)
  {
    if r.state != Confirmed {
      SpendRecords(m, r, id, now);
    }
  }

  /** After the first pass every Built intent's inputs are in the set. */
  lemma {:induction false} BuiltPass(m: Entries, s: Intents, ids: seq<string>, times: seq<nat>, ttl: nat)
    requires |ids| <= |times| && Known(ids, s) && BuiltAll(m, s, ids, times, ttl).Done?
    requires NoShare(s) && Clear(m, s) && forall k | 0 <= k < |ids| :: HasBytes(s, ids[k])
    ensures var m' := BuiltAll(m, s, ids, times, ttl).entries;
            m.Keys <= m'.Keys && Clear(m', s) && forall k | 0 <= k < |ids| :: Recorded(m', s[ids[k]])
  {
    if ids != [] {
      var k := |ids| - 1;
      BuiltPass(m, s, ids[..k], times, ttl);
      var m1 := BuiltAll(m, s, ids[..k], times, ttl).entries;
      BuiltRecords(m1, s[ids[k]], ids[k], times[k], ttl);
      BuiltClear(m1, BuiltOne(m1, s[ids[k]], ids[k], times[k], ttl).entries, s, ids[k]);
      forall j | 0 <= j < |ids| ensures Recorded(BuiltAll(m, s, ids, times, ttl).entries, s[ids[j]]) {
        if j < k {
          assert ids[..k][j] == ids[j] && Recorded(m1, s[ids[..k][j]]);
        }
      }
    }
  }

  lemma BuiltClear(m: Entries, m': Entries, s: Intents, id: string)
    requires NoShare(s) && Clear(m, s) && HasBytes(s, id)
    requires forall p | p !in s[id].inputs :: SameAt(m, m', p)
    requires forall p | p in m' && m'[p].kind.Reserved? :: (p in m && m[p] == m'[p]) || m'[p].intent == id
    ensures Clear(m', s)
  {
    forall i, p | HasBytes(s, i) && p in s[i].inputs && p in m' && m'[p].kind.Reserved? ensures m'[p].intent == i {
      if i != id {
        assert p !in s[id].inputs;
        assert SameAt(m, m', p);
      }
    }
  }

  /** After the second every sent intent's are too. */
  lemma {:induction false} SentPass(m: Entries, s: Intents, s1: Intents, ids: seq<string>, times: seq<nat>)
    requires |ids| <= |times| && Known(ids, s) && SentAll(m, s, ids, times).Done? && Clear(m, s1)
    ensures var m' := SentAll(m, s, ids, times).entries;
            m.Keys <= m'.Keys && Clear(m', s1) &&
            forall k | 0 <= k < |ids| && s[ids[k]].state != Confirmed :: Recorded(m', s[ids[k]])
  {
    if ids != [] {
      var k := |ids| - 1;
      SentPass(m, s, s1, ids[..k], times);
      var m1 := SentAll(m, s, ids[..k], times).entries;
      SentRecords(m1, s[ids[k]], ids[k], times[k]);
      forall j | 0 <= j < |ids| && s[ids[j]].state != Confirmed
        ensures Recorded(SentAll(m, s, ids, times).entries, s[ids[j]])
      {
        if j < k {
          assert ids[..k][j] == ids[j] && Recorded(m1, s[ids[..k][j]]);
        }
      }
    }
  }

  /** Letting go drops exactly the reservations of those found with nothing
      built. */
  lemma {:induction false} LetGoAt(m: Entries, get: string -> Intents, ids: seq<string>, p: Outpoint)
    ensures p in LetGo(m, get, ids) <==>
              p in m && !(m[p].kind.Reserved? && m[p].intent in ids &&
                          IsIn(get(m[p].intent), m[p].intent, {Created, Failed}))
    ensures p in LetGo(m, get, ids) ==> LetGo(m, get, ids)[p] == m[p]
  {
    if ids != [] {
      LetGoAt(m, get, ids[..|ids| - 1], p);
      assert ids == ids[..|ids| - 1] + [ids[|ids| - 1]];
    }
  }

  /** Signed bytes at the end were there at the first reading, and one of the
      two listings has the intent. */
  lemma ListedOnce(r: Readings, end: Intents, i: string)
    requires Listed(r) && Moves(r.first, r.second) && Moves(r.second, end) && HasBytes(end, i)
    ensures HasBytes(r.first, i) && r.first[i].inputs == end[i].inputs
    ensures HasBytes(r.second, i) && r.second[i].inputs == end[i].inputs
    ensures i in r.built || (i in r.sent && r.second[i].state != Confirmed)
  {
    assert i in r.second && Moved(r.second[i].state, end[i].state);
    assert i in r.first && Moved(r.first[i].state, r.second[i].state);
    assert r.first[i].state == Built ==> IsIn(r.first, i, {Built});
    assert r.first[i].state != Built ==> IsIn(r.second, i, {Broadcast, Confirmed});
  }

  /** What an intent has in the set when the holders are looked up, it keeps. */
  lemma NotLetGo(m: Entries, get: string -> Intents, ids: seq<string>, end: Intents, i: string, p: Outpoint)
    requires HasBytes(end, i) && Moves(get(i), end) && p in m && (m[p].kind.Reserved? ==> m[p].intent == i)
    ensures p in LetGo(m, get, ids)
  {
    LetGoAt(m, get, ids, p);
  }

  /** No gap: however the broadcaster's transitions fall between the readings,
      when reconcile succeeds every intent that is Built or Broadcast at that
      moment has all its inputs in the signer's set, provided no two intents
      with signed bytes share an input and none of their inputs was under the
      reservation of another intent. */
  lemma NoGap(m: Entries, r: Readings, ttl: nat, end: Intents, i: string)
    requires Listed(r) && Reconciled(m, r, ttl).Done?
    requires Moves(r.first, r.second) && Moves(r.second, end) && Moves(r.get(i), end)
    requires NoShare(r.first) && Clear(m, r.first)
    requires HasBytes(end, i)
    ensures Recorded(Reconciled(m, r, ttl).entries, end[i])
  {
    var m2 := BeforeLetGo(m, r, ttl);
    ListedOnce(r, end, i);
    forall p | p in end[i].inputs ensures p in LetGo(m2, r.get, r.holders) {
      assert p in m2;
      NotLetGo(m2, r.get, r.holders, end, i, p);
    }
  }

  lemma BeforeLetGo(m: Entries, r: Readings, ttl: nat) returns (m2: Entries)
    requires Listed(r) && Reconciled(m, r, ttl).Done? && NoShare(r.first) && Clear(m, r.first)
    ensures Reconciled(m, r, ttl).entries == LetGo(m2, r.get, r.holders) && Clear(m2, r.first)
    ensures forall i | i in r.built :: i in r.first && Recorded(m2, r.first[i])
    ensures forall i | i in r.sent :: i in r.second && (r.second[i].state != Confirmed ==> Recorded(m2, r.second[i]))
  {
    var m1 := BuiltAll(m, r.first, r.built, r.times, ttl).entries;
    BuiltPass(m, r.first, r.built, r.times, ttl);
    m2 := SentAll(m1, r.second, r.sent, r.sentTimes).entries;
    SentPass(m1, r.second, r.first, r.sent, r.sentTimes);
  }

  // ----- When there is a gap -----

  /** Without the last condition the claim is false. A sent intent's only input
      is under the reservation of another intent: it counts as already spent, so
      nothing is marked, and then the reservation is let go because its holder
      has nothing built. */
  lemma GapExists() returns (m: Entries, r: Readings, i: string)
    ensures Listed(r) && NoShare(r.first) && r.second == r.first && (forall id :: r.get(id) == r.first)
    ensures IsIn(r.first, i, {Broadcast}) && Reconciled(m, r, 1).Done? &&
            !Recorded(Reconciled(m, r, 1).entries, r.first[i])
  {
    var p := Outpoint("", 0);
    var sent := NewIntent("", 1, 1, 1).(state := Broadcast, inputs := [p]);
    var s: Intents := map["a" := sent, "b" := NewIntent("", 1, 1, 1)];
    i := "a";
    m := map[p := Entry(Reserved(9), 1, false, "b")];
    r := Readings(s, s, (_: string) => s, [], ["a"], ["b"], [], [1]);
    assert Skips(m, sent, "a", 1);
    assert r.sent[..0] == [];
    assert SentAll(m, s, ["a"], [1]) == Done(m);
    LetGoAt(m, r.get, ["b"], p);
  }

  /** Presence, kind and owner, which is all that reconcile acts on here. */
  predicate SameHold(m: Entries, m': Entries, p: Outpoint) {
    (p in m <==> p in m') && (p in m ==> m'[p].kind == m[p].kind && m'[p].intent == m[p].intent)
  }

  /** The reservations of an intent with signed bytes are on its own inputs. */
  ghost predicate Placed(m: Entries, s: Intents) {
    forall p | p in m && m[p].kind.Reserved? && HasBytes(s, m[p].intent) :: p in s[m[p].intent].inputs
  }

  /** Nothing an outpoint of this intent depends on has changed. */
  ghost predicate Untouched(m: Entries, m': Entries, s: Intents, i: string)
    requires i in s
  {
    forall p | p in s[i].inputs :: SameHold(m, m', p)
  }

  lemma SkipsSame(m: Entries, m': Entries, s: Intents, i: string, now: nat)
    requires HasBytes(s, i) && Placed(m, s) && Placed(m', s) && Untouched(m, m', s, i)
    ensures Skips(m, s[i], i, now) == Skips(m', s[i], i, now)
  {
    if Reserver(m, i) {
      var p :| p in m && m[p].kind.Reserved? && m[p].intent == i;
      assert SameHold(m, m', p);
    }
    if Reserver(m', i) {
      var p :| p in m' && m'[p].kind.Reserved? && m'[p].intent == i;
      assert SameHold(m, m', p);
    }
  }

  lemma BuiltPlaces(m: Entries, s: Intents, id: string, now: nat, ttl: nat)
    requires HasBytes(s, id) && Placed(m, s) && BuiltOne(m, s[id], id, now, ttl).Done?
    ensures Placed(BuiltOne(m, s[id], id, now, ttl).entries, s)
  {
    if Held(s[id]) {
      SpendRecords(m, s[id], id, now);
    }
  }

  lemma SentPlaces(m: Entries, s: Intents, id: string, now: nat)
    requires id in s && Placed(m, s) && SentOne(m, s[id], id, now).Done?
    ensures Placed(SentOne(m, s[id], id, now).entries, s)
  {
    SentRecords(m, s[id], id, now);
  }

  lemma BuiltElsewhere(m: Entries, s: Intents, id: string, now: nat, ttl: nat, i: string)
    requires HasBytes(s, id) && HasBytes(s, i) && NoShare(s) && i != id && BuiltOne(m, s[id], id, now, ttl).Done?
    ensures Untouched(m, BuiltOne(m, s[id], id, now, ttl).entries, s, i)
  {
    BuiltRecords(m, s[id], id, now, ttl);
    assert Disjoint(s[i].inputs, s[id].inputs);
  }

  lemma SentElsewhere(m: Entries, s: Intents, id: string, now: nat, i: string)
    requires IsIn(s, id, {Broadcast, Confirmed}) && HasBytes(s, i) && NoShare(s) && i != id &&
             SentOne(m, s[id], id, now).Done?
    ensures Untouched(m, SentOne(m, s[id], id, now).entries, s, i)
  {
    if s[id].state == Broadcast {
      SpendRecords(m, s[id], id, now);
      assert Disjoint(s[i].inputs, s[id].inputs);
    }
  }

  /** What a pass leaves of an intent it records: its entries untouched, or all
      of them sends. */
  ghost predicate Left(m: Entries, m': Entries, s: Intents, i: string, skipped: bool)
    requires i in s
  {
    if skipped then Untouched(m, m', s, i) else forall p | p in s[i].inputs :: p in m' && m'[p].kind.Sent?
  }

  lemma SpendLeaves(m: Entries, m1: Entries, s: Intents, i: string, now: nat)
    requires HasBytes(s, i) && Placed(m, s) && Placed(m1, s) && Untouched(m, m1, s, i) &&
             RecordSpend(m1, s[i], i, now).Done?
    ensures Left(m, RecordSpend(m1, s[i], i, now).entries, s, i, Skips(m, s[i], i, now))
  {
    SkipsSame(m, m1, s, i, now);
  }

  lemma LeftStays(m: Entries, m1: Entries, m2: Entries, s: Intents, i: string, skipped: bool)
    requires i in s && Left(m, m1, s, i, skipped) && Untouched(m1, m2, s, i)
    ensures Left(m, m2, s, i, skipped)
  {
    forall p | p in s[i].inputs ensures SameHold(m1, m2, p) {
    }
  }

  /** Every input is in the set, and none under another's reservation. */
  predicate Secured(m: Entries, inputs: seq<Outpoint>, i: string) {
    forall p | p in inputs :: p in m && (m[p].kind.Reserved? ==> m[p].intent == i)
  }

  lemma ReserveSecures(m: Entries, r: Intent, id: string, now: nat, ttl: nat)
    requires !Held(r) && BuiltOne(m, r, id, now, ttl).Done?
    ensures Secured(BuiltOne(m, r, id, now, ttl).entries, r.inputs, id)
  {
  }

  /** The first pass: it keeps reservations in place, leaves alone the inputs of
      intents it does not list, secures those of one it reserves for, and of a
      held one leaves what was said. */
  lemma {:induction false} BuiltLeaves(m: Entries, s: Intents, ids: seq<string>, times: seq<nat>, ttl: nat, i: string)
    requires |ids| <= |times| && Known(ids, s) && Once(ids) && BuiltAll(m, s, ids, times, ttl).Done?
    requires NoShare(s) && Placed(m, s) && HasBytes(s, i) && forall k | 0 <= k < |ids| :: IsIn(s, ids[k], {Built})
    ensures var m' := BuiltAll(m, s, ids, times, ttl).entries;
            && Placed(m', s) && (i !in ids ==> Untouched(m, m', s, i))
            && (forall k | 0 <= k < |ids| && ids[k] == i && Held(s[i]) ::
                Left(m, m', s, i, Skips(m, s[i], i, times[k])))
            && (i in ids && !Held(s[i]) ==> Secured(m', s[i].inputs, i))
  {
    if ids != [] {
      var k := |ids| - 1;
      BuiltLeaves(m, s, ids[..k], times, ttl, i);
      var m1 := BuiltAll(m, s, ids[..k], times, ttl).entries;
      BuiltPlaces(m1, s, ids[k], times[k], ttl);
      var m' := BuiltOne(m1, s[ids[k]], ids[k], times[k], ttl).entries;
      if ids[k] == i {
        assert i !in ids[..k];
        if Held(s[i]) {
          SpendLeaves(m, m1, s, i, times[k]);
        } else {
          ReserveSecures(m1, s[i], i, times[k], ttl);
        }
      } else {
        BuiltElsewhere(m1, s, ids[k], times[k], ttl, i);
        assert i in ids ==> i in ids[..k];
        forall j | 0 <= j < |ids| && ids[j] == i && Held(s[i]) ensures Left(m, m', s, i, Skips(m, s[i], i, times[j])) {
          assert ids[..k][j] == i;
          LeftStays(m, m1, m', s, i, Skips(m, s[i], i, times[j]));
        }
      }
    }
  }

  lemma {:induction false} SentLeaves(m: Entries, s: Intents, ids: seq<string>, times: seq<nat>, i: string)
    requires |ids| <= |times| && Known(ids, s) && Once(ids) && SentAll(m, s, ids, times).Done?
    requires NoShare(s) && Placed(m, s) && HasBytes(s, i) &&
             forall k | 0 <= k < |ids| :: IsIn(s, ids[k], {Broadcast, Confirmed})
    ensures var m' := SentAll(m, s, ids, times).entries;
            && Placed(m', s) && (i !in ids ==> Untouched(m, m', s, i))
            && forall k | 0 <= k < |ids| && ids[k] == i :: Left(m, m', s, i, Skips(m, s[i], i, times[k]))
  {
    if ids != [] {
      var k := |ids| - 1;
      SentLeaves(m, s, ids[..k], times, i);
      var m1 := SentAll(m, s, ids[..k], times).entries;
      SentPlaces(m1, s, ids[k], times[k]);
      var m' := SentOne(m1, s[ids[k]], ids[k], times[k]).entries;
      if ids[k] == i {
        assert i !in ids[..k];
        SpendLeaves(m, m1, s, i, times[k]);
      } else {
        SentElsewhere(m1, s, ids[k], times[k], i);
        forall j | 0 <= j < |ids| && ids[j] == i ensures Left(m, m', s, i, Skips(m, s[i], i, times[j])) {
          assert ids[..k][j] == i;
          LeftStays(m, m1, m', s, i, Skips(m, s[i], i, times[j]));
        }
      }
    }
  }

  /** An input under a reservation whose holder, when it is looked up, has
      nothing built. */
  predicate OnOrphan(m: Entries, get: string -> Intents, inputs: seq<Outpoint>) {
    exists p | p in inputs :: p in m && m[p].kind.Reserved? && IsIn(get(m[p].intent), m[p].intent, {Created, Failed})
  }

  lemma LetGoLeaves(m: Entries, m2: Entries, s: Intents, get: string -> Intents, ids: seq<string>, i: string,
                    skipped: bool)
    requires i in s && Left(m, m2, s, i, skipped) && (skipped ==> Recorded(m, s[i]))
    requires forall id | Reserver(m2, id) :: id in ids
    ensures Recorded(LetGo(m2, get, ids), s[i]) <==> !(skipped && OnOrphan(m, get, s[i].inputs))
  {
    forall p | p in s[i].inputs
      ensures p in m2
      ensures p in LetGo(m2, get, ids) <==>
                !(m2[p].kind.Reserved? && IsIn(get(m2[p].intent), m2[p].intent, {Created, Failed}))
      ensures skipped ==> m2[p].kind == m[p].kind && m2[p].intent == m[p].intent
    {
      assert skipped ==> SameHold(m, m2, p);
      LetGoAt(m2, get, ids, p);
      if m2[p].kind.Reserved? {
        assert Reserver(m2, m2[p].intent);
      }
    }
  }

  /** What the broadcaster does meanwhile spoils neither condition. */
  lemma MovesKeep(m: Entries, s: Intents, s': Intents)
    requires Moves(s, s') && NoShare(s) && Placed(m, s)
    ensures NoShare(s') && Placed(m, s')
  {
    forall i | HasBytes(s', i) ensures HasBytes(s, i) && s[i].inputs == s'[i].inputs {
    }
  }

  /** Every time reconcile looked at the intent it passed it over: it is not one
      to reserve for, it held no reservation, and its inputs were all there. */
  predicate PassedOver(m: Entries, r: Readings, i: string)
    requires |r.built| <= |r.times| && |r.sent| <= |r.sentTimes| && i in r.first && i in r.second
  {
    && (i in r.built ==> Held(r.first[i]))
    && (forall k | 0 <= k < |r.built| && r.built[k] == i :: Skips(m, r.first[i], i, r.times[k]))
    && (forall k | 0 <= k < |r.sent| && r.sent[k] == i :: Skips(m, r.second[i], i, r.sentTimes[k]))
  }

  /** An intent reconcile reserved for: what it has is its own, and is kept. */
  lemma ReservedHasNoGap(m1: Entries, r: Readings, end: Intents, i: string, m2: Entries)
    requires HasBytes(end, i) && Moves(r.get(i), end)
    requires HasBytes(r.second, i) && r.second[i].inputs == end[i].inputs && Secured(m1, r.second[i].inputs, i)
    requires Untouched(m1, m2, r.second, i) || forall p | p in r.second[i].inputs :: p in m2 && m2[p].kind.Sent?
    ensures Recorded(LetGo(m2, r.get, r.holders), end[i])
  {
    forall p | p in end[i].inputs ensures p in LetGo(m2, r.get, r.holders) {
      assert Untouched(m1, m2, r.second, i) ==> SameHold(m1, m2, p);
      NotLetGo(m2, r.get, r.holders, end, i, p);
    }
  }

  /** The second pass, over what the first one left of an intent it does not
      reserve for. */
  lemma SecondLook(m: Entries, m1: Entries, m2: Entries, r: Readings, i: string)
    requires Listed(r) && Once(r.sent) && NoShare(r.second) && HasBytes(r.second, i)
    requires Placed(m, r.second) && Placed(m1, r.second)
    requires SentAll(m1, r.second, r.sent, r.sentTimes) == Done(m2)
    requires i in r.first && r.first[i].inputs == r.second[i].inputs && (i in r.built ==> Held(r.first[i]))
    requires forall k | 0 <= k < |r.built| && r.built[k] == i ::
               Left(m, m1, r.first, i, Skips(m, r.first[i], i, r.times[k]))
    requires i !in r.built ==> Untouched(m, m1, r.first, i)
    ensures i in r.built || i in r.sent ==> Left(m, m2, r.second, i, PassedOver(m, r, i))
  {
    SentLeaves(m1, r.second, r.sent, r.sentTimes, i);
    if Untouched(m, m1, r.second, i) {
      forall k | 0 <= k < |r.sent| && r.sent[k] == i
        ensures Skips(m, r.second[i], i, r.sentTimes[k]) == Skips(m1, r.second[i], i, r.sentTimes[k])
      {
        SkipsSame(m, m1, r.second, i, r.sentTimes[k]);
      }
    }
    if i in r.sent {
      var k :| 0 <= k < |r.sent| && r.sent[k] == i;
      SecondLookAt(m, m1, m2, r, i, k);
    } else if i in r.built {
      var k :| 0 <= k < |r.built| && r.built[k] == i;
      FirstLookStays(m, m1, m2, r, i, k);
    }
  }

  lemma FirstLookStays(m: Entries, m1: Entries, m2: Entries, r: Readings, i: string, k: nat)
    requires Listed(r) && i in r.second && i in r.first && r.first[i].inputs == r.second[i].inputs && i !in r.sent
    requires k < |r.built| && r.built[k] == i && Held(r.first[i])
    requires Left(m, m1, r.first, i, Skips(m, r.first[i], i, r.times[k])) && Untouched(m1, m2, r.second, i)
    ensures Left(m, m2, r.second, i, PassedOver(m, r, i))
  {
    assert forall j | 0 <= j < |r.built| && r.built[j] == i :: j == k;
    LeftStays(m, m1, m2, r.first, i, Skips(m, r.first[i], i, r.times[k]));
    assert PassedOver(m, r, i) == Skips(m, r.first[i], i, r.times[k]);
  }

  lemma SecondLookAt(m: Entries, m1: Entries, m2: Entries, r: Readings, i: string, k: nat)
    requires Listed(r) && Once(r.sent) && i in r.second && i in r.first && r.first[i].inputs == r.second[i].inputs
    requires k < |r.sent| && r.sent[k] == i && (i in r.built ==> Held(r.first[i]))
    requires forall j | 0 <= j < |r.built| && r.built[j] == i ::
               Left(m, m1, r.first, i, Skips(m, r.first[i], i, r.times[j]))
    requires i !in r.built ==> Untouched(m, m1, r.first, i)
    requires Untouched(m, m1, r.second, i) ==>
               Skips(m, r.second[i], i, r.sentTimes[k]) == Skips(m1, r.second[i], i, r.sentTimes[k])
    requires Left(m1, m2, r.second, i, Skips(m1, r.second[i], i, r.sentTimes[k]))
    ensures Left(m, m2, r.second, i, PassedOver(m, r, i))
  {
    assert forall j | 0 <= j < |r.sent| && r.sent[j] == i :: j == k;
    if i in r.built {
      var j :| 0 <= j < |r.built| && r.built[j] == i;
      assert forall n | 0 <= n < |r.built| && r.built[n] == i :: n == j;
      if !Skips(m, r.first[i], i, r.times[j]) {
        assert !PassedOver(m, r, i);
        forall p | p in r.second[i].inputs ensures p in m2 && m2[p].kind.Sent? {
          assert Skips(m1, r.second[i], i, r.sentTimes[k]) ==> SameHold(m1, m2, p);
        }
      } else {
        assert PassedOver(m, r, i) == Skips(m, r.second[i], i, r.sentTimes[k]);
        LooksAgree(m, m1, m2, r, i, k);
      }
    } else {
      assert PassedOver(m, r, i) == Skips(m, r.second[i], i, r.sentTimes[k]);
      LooksAgree(m, m1, m2, r, i, k);
    }
  }

  lemma LooksAgree(m: Entries, m1: Entries, m2: Entries, r: Readings, i: string, k: nat)
    requires i in r.second && i in r.first && r.first[i].inputs == r.second[i].inputs && k < |r.sentTimes|
    requires Untouched(m, m1, r.first, i)
    requires Skips(m, r.second[i], i, r.sentTimes[k]) == Skips(m1, r.second[i], i, r.sentTimes[k])
    requires Left(m1, m2, r.second, i, Skips(m1, r.second[i], i, r.sentTimes[k]))
    ensures Left(m, m2, r.second, i, Skips(m, r.second[i], i, r.sentTimes[k]))
  {
    if Skips(m, r.second[i], i, r.sentTimes[k]) {
      forall p | p in r.second[i].inputs ensures SameHold(m, m2, p) {
        assert SameHold(m, m1, p) && SameHold(m1, m2, p);
      }
    }
  }

  /** The gap, exactly. However the broadcaster's transitions fall between the
      readings, an intent that is Built or Broadcast when reconcile succeeds is
      left without an input if and only if it was passed over every time it was
      looked at and one of its inputs was then only under a reservation whose
      holder is found with nothing built. In particular one that was reserved
      for never is. */
  lemma GapExactly(m: Entries, r: Readings, ttl: nat, end: Intents, i: string)
    requires Listed(r) && Once(r.sent) && Reconciled(m, r, ttl).Done? && LooksUp(m, r, ttl)
    requires Moves(r.first, r.second) && Moves(r.second, end) && Moves(r.get(i), end)
    requires NoShare(r.first) && Placed(m, r.first) && HasBytes(end, i)
    ensures i in r.first && i in r.second
    ensures Recorded(Reconciled(m, r, ttl).entries, end[i]) <==>
              !(PassedOver(m, r, i) && OnOrphan(m, r.get, end[i].inputs))
  {
    ListedOnce(r, end, i);
    var m1 := BuiltAll(m, r.first, r.built, r.times, ttl).entries;
    var m2 := SentAll(m1, r.second, r.sent, r.sentTimes).entries;
    BuiltLeaves(m, r.first, r.built, r.times, ttl, i);
    MovesKeep(m, r.first, r.second);
    MovesKeep(m1, r.first, r.second);
    if i in r.built && !Held(r.first[i]) {
      SentLeaves(m1, r.second, r.sent, r.sentTimes, i);
      assert i in r.sent ==> exists k :: 0 <= k < |r.sent| && r.sent[k] == i;
      ReservedHasNoGap(m1, r, end, i, m2);
    } else {
      SecondLook(m, m1, m2, r, i);
      PassedOverRecorded(m, r, i);
      LetGoLeaves(m, m2, r.second, r.get, r.holders, i, PassedOver(m, r, i));
    }
  }

  lemma PassedOverRecorded(m: Entries, r: Readings, i: string)
    requires Listed(r) && i in r.first && i in r.second && r.first[i].inputs == r.second[i].inputs
    requires i in r.built || i in r.sent
    ensures PassedOver(m, r, i) ==> Recorded(m, r.second[i])
  {
    if i in r.built {
      var k :| 0 <= k < |r.built| && r.built[k] == i;
      assert PassedOver(m, r, i) ==> Skips(m, r.first[i], i, r.times[k]);
    } else {
      var k :| 0 <= k < |r.sent| && r.sent[k] == i;
      assert PassedOver(m, r, i) ==> Skips(m, r.second[i], i, r.sentTimes[k]);
    }
  }

  /** With a quiet broadcaster all readings are one, and the holder is one with
      nothing built in it. */
  lemma QuietGapExactly(m: Entries, r: Readings, ttl: nat, i: string)
    requires Listed(r) && Once(r.sent) && Reconciled(m, r, ttl).Done? && LooksUp(m, r, ttl)
    requires r.second == r.first && (forall id :: r.get(id) == r.first)
    requires NoShare(r.first) && Placed(m, r.first) && HasBytes(r.first, i)
    ensures Recorded(Reconciled(m, r, ttl).entries, r.first[i]) <==>
              !(PassedOver(m, r, i) &&
                exists p | p in r.first[i].inputs ::
                  p in m && m[p].kind.Reserved? && IsIn(r.first, m[p].intent, {Created, Failed}))
  {
    GapExactly(m, r, ttl, r.first, i);
  }

  // ----- The loops -----

  lemma MarkDropped(m: Entries, p: Outpoint, inputs: seq<Outpoint>, txid: string, id: string, now: nat)
    requires p in inputs && p in m && m[p].kind.Reserved?
    ensures CanMark(m - {p}, inputs, txid, id) == CanMark(m, inputs, txid, id)
    ensures CanMark(m, inputs, txid, id) ==>
              AfterMark(m - {p}, inputs, txid, id, now) == AfterMark(m, inputs, txid, id, now)
  {
  }

  /** Looking for an input that is not in the set drops the first that has run
      out. */
  method AllInSet(spent: SpentStore.Store, inputs: seq<Outpoint>, now: nat) returns (all: bool)
    modifies spent`entries
    ensures all == AllSpent(old(spent.entries), inputs, now)
    ensures spent.entries == old(spent.entries) ||
            (!all && exists p :: p in inputs && p in old(spent.entries) && old(spent.entries)[p].kind.Reserved? &&
                                 spent.entries == old(spent.entries) - {p})
  {
    for k := 0 to |inputs|
      invariant spent.entries == old(spent.entries)
      invariant forall p | p in inputs[..k] :: p in spent.entries && !Expired(spent.entries[p], now)
    {
      var p := inputs[k];
      assert inputs[..k + 1] == inputs[..k] + [p];
      var there := spent.IsSpent(p, now);
      if !there {
        assert p in inputs;
        return false;
      }
    }
    assert inputs[..|inputs|] == inputs;
    return |inputs| > 0;
  }

  method Holds(spent: SpentStore.Store, id: string) returns (b: bool)
    ensures b == Reserver(spent.entries, id)
  {
    var ids := spent.Owners((e: Entry) => e.kind.Reserved?);
    b := id in ids;
  }

  method Record(spent: SpentStore.Store, r: Intent, id: string, now: nat, steps: nat) returns (ok: bool)
    requires spent.Valid()
    modifies spent`entries, spent.file
    ensures spent.Valid()
    ensures ok ==> RecordSpend(old(spent.entries), r, id, now) == Done(spent.entries)
  {
    var holds := Holds(spent, id);
    if !holds {
      var all := AllInSet(spent, r.inputs, now);
      if all {
        return true;
      }
      if spent.entries != old(spent.entries) {
        ghost var p :| p in r.inputs && p in old(spent.entries) && old(spent.entries)[p].kind.Reserved? &&
                       spent.entries == old(spent.entries) - {p};
        MarkDropped(old(spent.entries), p, r.inputs, HoldTxid(r), id, now);
      }
    }
    var can, o := spent.MarkBroadcastFor(r.inputs, HoldTxid(r), id, now, steps);
    return can && o.Durable?;
  }

  method Tick() returns (now: nat, steps: nat)
  {
    now, steps := *, *;
  }

  method ReconcileBuilt(spent: SpentStore.Store, s: Intents, ids: seq<string>, ttl: nat)
    returns (ok: bool, ghost times: seq<nat>)
    requires spent.Valid() && Known(ids, s)
    modifies spent`entries, spent.file
    ensures spent.Valid() && (ok ==> |times| == |ids|)
    ensures ok ==> BuiltAll(old(spent.entries), s, ids, times, ttl) == Done(spent.entries)
  {
    times := [];
    for k := 0 to |ids|
      invariant spent.Valid() && |times| == k
      invariant BuiltAll(old(spent.entries), s, ids[..k], times, ttl) == Done(spent.entries)
    {
      var id, r := ids[k], s[ids[k]];
      var now, steps := Tick();
      BuiltMore(old(spent.entries), s, ids[..k + 1], times, now, ttl);
      assert ids[..k + 1][..k] == ids[..k];
      if Held(r) {
        var recorded := Record(spent, r, id, now, steps);
        if !recorded {
          return false, times;
        }
      } else {
        var got := spent.Reserve(r.inputs, id, now, ttl, steps);
        if !got.Got? {
          return false, times;
        }
      }
      times := times + [now];
    }
    assert ids[..|ids|] == ids;
    return true, times;
  }

  method ReconcileSent(spent: SpentStore.Store, s: Intents, ids: seq<string>) returns (ok: bool, ghost times: seq<nat>)
    requires spent.Valid() && Known(ids, s)
    modifies spent`entries, spent.file
    ensures spent.Valid() && (ok ==> |times| == |ids|)
    ensures ok ==> SentAll(old(spent.entries), s, ids, times) == Done(spent.entries)
  {
    times := [];
    for k := 0 to |ids|
      invariant spent.Valid() && |times| == k
      invariant SentAll(old(spent.entries), s, ids[..k], times) == Done(spent.entries)
    {
      var id, r := ids[k], s[ids[k]];
      var now, steps := Tick();
      SentMore(old(spent.entries), s, ids[..k + 1], times, now);
      assert ids[..k + 1][..k] == ids[..k];
      if r.state == Confirmed {
        var o := spent.ConfirmSpentAll(r.inputs, steps);
        if !o.Durable? {
          return false, times;
        }
      } else {
        var recorded := Record(spent, r, id, now, steps);
        if !recorded {
          return false, times;
        }
      }
      times := times + [now];
    }
    assert ids[..|ids|] == ids;
    return true, times;
  }

  /** The holders of reservations, each looked up when its turn comes. */
  method ReleaseUnbuilt(spent: SpentStore.Store, get: string -> Intents) returns (ok: bool, ids: seq<string>)
    requires spent.Valid()
    modifies spent`entries, spent.file
    ensures spent.Valid() && forall id :: id in ids <==> Reserver(old(spent.entries), id)
    ensures ok ==> spent.entries == LetGo(old(spent.entries), get, ids)
  {
    ids := spent.Owners((e: Entry) => e.kind.Reserved?);
    for k := 0 to |ids|
      invariant spent.Valid()
      invariant spent.entries == LetGo(old(spent.entries), get, ids[..k])
    {
      assert ids[..k + 1][..k] == ids[..k];
      var s := get(ids[k]);
      if ids[k] in s && (s[ids[k]].state == Created || s[ids[k]].state == Failed) {
        var now, steps := Tick();
        var o := spent.Release(ids[k], steps);
        if !o.Durable? {
          return false, ids;
        }
      }
    }
    assert ids[..|ids|] == ids;
    return true, ids;
  }

  /** reconcile. What the two listings and the lookups find is given; `built`
      and `sent` are the ids in the order they are listed. */
  method Reconcile(spent: SpentStore.Store, r: Readings, ttl: nat) returns (ok: bool, ghost readings: Readings)
    requires spent.Valid() && Listed(r.(times := seq(|r.built|, _ => 0), sentTimes := seq(|r.sent|, _ => 0)))
    modifies spent`entries, spent.file
    ensures spent.Valid()
    ensures readings == r.(times := readings.times, sentTimes := readings.sentTimes, holders := readings.holders)
    ensures ok ==> Listed(readings) && LooksUp(old(spent.entries), readings, ttl) &&
                   Reconciled(old(spent.entries), readings, ttl) == Done(spent.entries)
  {
    readings := r;
    ghost var times, sentTimes;
    var holders;
    ok, times := ReconcileBuilt(spent, r.first, r.built, ttl);
    if !ok {
      return;
    }
    ok, sentTimes := ReconcileSent(spent, r.second, r.sent);
    if !ok {
      return;
    }
    ok, holders := ReleaseUnbuilt(spent, r.get);
    readings := r.(times := times, sentTimes := sentTimes, holders := holders);
  }

  lemma {:induction false} BuiltMore(m: Entries, s: Intents, ids: seq<string>, times: seq<nat>, now: nat, ttl: nat)
    requires |ids| == |times| + 1 && Known(ids, s)
    ensures var k := |ids| - 1;
            BuiltAll(m, s, ids, times + [now], ttl) ==
            match BuiltAll(m, s, ids[..k], times, ttl)
            case Stopped => Stopped
            case Done(m1) => BuiltOne(m1, s[ids[k]], ids[k], now, ttl)
  {
    BuiltTimes(m, s, ids[..|ids| - 1], times, times + [now], ttl);
  }

  lemma {:induction false} BuiltTimes(m: Entries, s: Intents, ids: seq<string>, times: seq<nat>, more: seq<nat>,
                                      ttl: nat)
    requires |ids| <= |times| && times <= more && Known(ids, s)
    ensures BuiltAll(m, s, ids, times, ttl) == BuiltAll(m, s, ids, more, ttl)
  {
    if ids != [] {
      BuiltTimes(m, s, ids[..|ids| - 1], times, more, ttl);
    }
  }

  lemma {:induction false} SentMore(m: Entries, s: Intents, ids: seq<string>, times: seq<nat>, now: nat)
    requires |ids| == |times| + 1 && Known(ids, s)
    ensures var k := |ids| - 1;
            SentAll(m, s, ids, times + [now]) ==
            match SentAll(m, s, ids[..k], times)
            case Stopped => Stopped
            case Done(m1) => SentOne(m1, s[ids[k]], ids[k], now)
  {
    SentTimes(m, s, ids[..|ids| - 1], times, times + [now]);
  }

  lemma {:induction false} SentTimes(m: Entries, s: Intents, ids: seq<string>, times: seq<nat>, more: seq<nat>)
    requires |ids| <= |times| && times <= more && Known(ids, s)
    ensures SentAll(m, s, ids, times) == SentAll(m, s, ids, more)
  {
    if ids != [] {
      SentTimes(m, s, ids[..|ids| - 1], times, more);
    }
  }
}
