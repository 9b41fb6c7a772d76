/** Recover's last pass when it also sends: every Built intent in turn has its
    inputs marked or reserved again, and may then be sent, with any outcome. */
module WithdrawalRedrive {
  import opened SpentSet
  import opened Withdrawal
  import opened WithdrawalRecords
  import opened WithdrawalInputs
  import opened WithdrawalOwnership
  import opened WithdrawalRecovery

  /** The records of all other intents are as they were. */
  ghost predicate SameElsewhere(s: Intents, s': Intents, id: string) {
    forall j | j != id :: (j in s <==> j in s') && (j in s ==> s[j] == s'[j])
  }

  /** Other outpoints keep their entries, but for the withdrawal's own. */
  ghost predicate Elsewhere(m: Entries, m': Entries, inputs: seq<Outpoint>, id: string) {
    forall p :: p !in inputs && !OwnedBy(m, p, id) ==> SameAt(m, m', p)
  }

  lemma ElsewhereOn(m: Entries, m1: Entries, m': Entries, inputs: seq<Outpoint>, id: string)
    requires Elsewhere(m, m1, inputs, id) && Elsewhere(m1, m', inputs, id)
    ensures Elsewhere(m, m', inputs, id)
  {
    forall p | p !in inputs && !OwnedBy(m, p, id) ensures SameAt(m, m', p) {
      assert SameAt(m, m1, p);
    }
  }

  /** Nothing stands in the way of the mark or the reservation a turn begins with. */
  predicate Admits(m: Entries, r: Intent, id: string, now: nat) {
    if Held(r) then CanMark(m, r.inputs, HoldTxid(r), id) else CanReserve(m, r.inputs, id, now)
  }

  /** An intent that still has bytes to stand for owns what its state asks for. */
  predicate Stands(m: Entries, r: Intent, id: string, now: nat) {
    r.state == Failed || Restored(m, r, id, now)
  }

  /** Whenever it owned what its state asked for it still does. */
  ghost predicate StillStands(m: Entries, m': Entries, r: Intent, r': Intent, id: string) {
    r'.inputs == r.inputs && r'.state in {Built, Broadcast, Failed} &&
    forall now: nat :: Stands(m, r, id, now) ==> Stands(m', r', id, now)
  }

  /** One intent's turn, its first look at the set at `look` and its last
      reservation at `keep`: it ends owning what its new state asks for, or,
      where something stood in the way, nothing has changed. */
  ghost predicate Turned(m: Entries, m': Entries, r: Intent, r': Intent, id: string, look: nat, keep: nat) {
    && r'.inputs == r.inputs && r'.state in {Built, Broadcast, Failed}
    && Elsewhere(m, m', r.inputs, id)
    && if Admits(m, r, id, look) then Stands(m', r', id, keep) else m' == m && r' == r
  }

  /** The turns one after the other. */
  ghost predicate Turns(m: Entries, s: Intents, m': Entries, s': Intents, ids: seq<string>, looks: seq<nat>,
                        keeps: seq<nat>)
    requires |ids| == |looks| == |keeps|
    decreases |ids|, 1
  {
    if ids == [] then m' == m && s' == s
    else exists m1, s1 :: TurnLast(m, s, m1, s1, m', s', ids, looks, keeps)
  }

  ghost predicate TurnLast(m: Entries, s: Intents, m1: Entries, s1: Intents, m': Entries, s': Intents,
                           ids: seq<string>, looks: seq<nat>, keeps: seq<nat>)
    requires 0 < |ids| == |looks| == |keeps|
    decreases |ids|, 0
  {
    var k := |ids| - 1;
    && Turns(m, s, m1, s1, ids[..k], looks[..k], keeps[..k])
    && ids[k] in s1 && ids[k] in s' && SameElsewhere(s1, s', ids[k])
    && Turned(m1, m', s1[ids[k]], s'[ids[k]], ids[k], looks[k], keeps[k])
  }

  lemma TurnsNext(m: Entries, s: Intents, m1: Entries, s1: Intents, m': Entries, s': Intents,
                  ids: seq<string>, looks: seq<nat>, keeps: seq<nat>, look: nat, keep: nat)
    requires |looks| == |keeps| < |ids| && Turns(m, s, m1, s1, ids[..|looks|], looks, keeps)
    requires ids[|looks|] in s1 && ids[|looks|] in s' && SameElsewhere(s1, s', ids[|looks|])
    requires Turned(m1, m', s1[ids[|looks|]], s'[ids[|looks|]], ids[|looks|], look, keep)
    ensures Turns(m, s, m', s', ids[..|looks| + 1], looks + [look], keeps + [keep])
  {
    var k := |looks|;
    assert (looks + [look])[..k] == looks && (keeps + [keep])[..k] == keeps && ids[..k + 1][..k] == ids[..k];
    assert TurnLast(m, s, m1, s1, m', s', ids[..k + 1], looks + [look], keeps + [keep]);
  }

  // ----- What the turns keep -----

  /** Nobody else has an entry on the intent's inputs. */
  predicate Clear(m: Entries, r: Intent, id: string) {
    forall p :: p in r.inputs ==> Mine(m, p, id)
  }

  ghost predicate AllBuilt(ids: seq<string>, s: Intents) {
    Once(ids) && forall k | 0 <= k < |ids| :: ids[k] != "" && IsIn(s, ids[k], {Built})
  }

  /** An outpoint that is nobody's input among these and has no entry of theirs. */
  ghost predicate Apart(m: Entries, s: Intents, ids: seq<string>, p: Outpoint)
    requires Known(ids, s)
  {
    (forall k | 0 <= k < |ids| :: p !in s[ids[k]].inputs) && (p in m ==> m[p].intent !in ids)
  }

  lemma {:induction false} TurnsRecords(m: Entries, s: Intents, m': Entries, s': Intents,
                                        ids: seq<string>, looks: seq<nat>, keeps: seq<nat>)
    requires |ids| == |looks| == |keeps| && Turns(m, s, m', s', ids, looks, keeps) && AllBuilt(ids, s)
    ensures forall i | i !in ids :: (i in s <==> i in s') && (i in s ==> s'[i] == s[i])
    ensures forall i | i in ids :: IsIn(s', i, {Built, Broadcast, Failed}) && s'[i].inputs == s[i].inputs
    decreases |ids|
  {
    if ids != [] {
      var k := |ids| - 1;
      var m1: Entries, s1: Intents :| TurnLast(m, s, m1, s1, m', s', ids, looks, keeps);
      TurnsRecords(m, s, m1, s1, ids[..k], looks[..k], keeps[..k]);
      assert ids == ids[..k] + [ids[k]];
      assert ids[k] !in ids[..k];
    }
  }

  lemma {:induction false} TurnsApart(m: Entries, s: Intents, m': Entries, s': Intents,
                                      ids: seq<string>, looks: seq<nat>, keeps: seq<nat>, p: Outpoint)
    requires |ids| == |looks| == |keeps| && Turns(m, s, m', s', ids, looks, keeps) && AllBuilt(ids, s)
    requires Known(ids, s) && Apart(m, s, ids, p)
    ensures SameAt(m, m', p)
    decreases |ids|
  {
    if ids != [] {
      var k := |ids| - 1;
      var m1: Entries, s1: Intents :| TurnLast(m, s, m1, s1, m', s', ids, looks, keeps);
      TurnsApart(m, s, m1, s1, ids[..k], looks[..k], keeps[..k], p);
      TurnsRecords(m, s, m1, s1, ids[..k], looks[..k], keeps[..k]);
      assert ids[k] in ids && ids[k] !in ids[..k];
      assert SameAt(m1, m', p);
    }
  }

  /** An intent on whose inputs nobody else has an entry ends as it should. */
  lemma {:induction false} TurnsStand(m: Entries, s: Intents, m': Entries, s': Intents,
                                      ids: seq<string>, looks: seq<nat>, keeps: seq<nat>, n: nat)
    requires |ids| == |looks| == |keeps| && Turns(m, s, m', s', ids, looks, keeps) && AllBuilt(ids, s) && NoShare(s)
    requires n < |ids| && ids[n] in s && Clear(m, s[ids[n]], ids[n])
    ensures ids[n] in s' && Stands(m', s'[ids[n]], ids[n], keeps[n])
    decreases |ids|
  {
    var k := |ids| - 1;
    var m1: Entries, s1: Intents :| TurnLast(m, s, m1, s1, m', s', ids, looks, keeps);
    TurnsRecords(m, s, m1, s1, ids[..k], looks[..k], keeps[..k]);
    assert ids[k] !in ids[..k];
    if n == k {
      StillClear(m, s, m1, s1, ids, looks, keeps);
      ClearAdmits(m1, s1[ids[k]], ids[k], looks[k]);
    } else {
      assert ids[n] in ids[..k];
      TurnsStand(m, s, m1, s1, ids[..k], looks[..k], keeps[..k], n);
      TurnElsewhere(m1, m', s1[ids[n]], ids[n], keeps[n], s1[ids[k]].inputs, ids[k]) by {
        assert HasBytes(s, ids[n]) && HasBytes(s, ids[k]);
      }
    }
  }

  /** The turns before leave an intent's inputs to it. */
  lemma StillClear(m: Entries, s: Intents, m1: Entries, s1: Intents, ids: seq<string>, looks: seq<nat>, keeps: seq<nat>)
    requires 0 < |ids| == |looks| == |keeps| && AllBuilt(ids, s) && NoShare(s)
    requires var k := |ids| - 1;
             Turns(m, s, m1, s1, ids[..k], looks[..k], keeps[..k]) && ids[k] in s && Clear(m, s[ids[k]], ids[k])
    ensures Clear(m1, s[ids[|ids| - 1]], ids[|ids| - 1])
  {
    var k := |ids| - 1;
    forall p | p in s[ids[k]].inputs ensures Mine(m1, p, ids[k]) {
      OthersApart(m, s, ids, k, p);
      TurnsApart(m, s, m1, s1, ids[..k], looks[..k], keeps[..k], p);
    }
  }

  lemma OthersApart(m: Entries, s: Intents, ids: seq<string>, k: nat, p: Outpoint)
    requires AllBuilt(ids, s) && NoShare(s) && k < |ids| && ids[k] in s && p in s[ids[k]].inputs && Mine(m, p, ids[k])
    ensures Known(ids[..k], s) && Apart(m, s, ids[..k], p)
  {
    assert HasBytes(s, ids[k]);
    forall j | 0 <= j < k ensures ids[j] in s && p !in s[ids[j]].inputs {
      assert HasBytes(s, ids[j]) && ids[j] != ids[k];
    }
  }

  lemma ClearAdmits(m: Entries, r: Intent, id: string, now: nat)
    requires Clear(m, r, id) && id != ""
    ensures Admits(m, r, id, now)
  {
  }

  /** Another's turn takes nothing from an intent that owns its inputs. */
  lemma TurnElsewhere(m: Entries, m': Entries, r: Intent, i: string, now: nat, inputs: seq<Outpoint>, id: string)
    requires Stands(m, r, i, now) && Elsewhere(m, m', inputs, id) && i != id && Disjoint(r.inputs, inputs)
    ensures Stands(m', r, i, now)
  {
    if r.state != Failed {
      forall p | p in r.inputs ensures SameAt(m, m', p) {
      }
    }
  }

  // ----- From every crash point of every run -----

  /** What the earlier passes leave on a Built intent's inputs. */
  lemma DropsClear(m: Entries, s: Intents, ord: Orders, i: string)
    requires ProperDrops(m, s, ord) && NoShare(s) && IsIn(s, i, {Built}) && Clear(m, s[i], i)
    ensures Clear(AfterDrops(m, s, ord), s[i], i)
  {
    forall p | p in s[i].inputs ensures Mine(AfterDrops(m, s, ord), p, i) {
      MarksElsewhere(m, s, ord, i, p);
      DropsExactly(m, s, ord, p);
    }
  }

  /** ... and on a Broadcast one's. */
  lemma DropsMarked(m: Entries, s: Intents, ord: Orders, i: string, p: Outpoint)
    requires ProperDrops(m, s, ord) && NoShare(s) && IsIn(s, i, {Broadcast}) && p in s[i].inputs
    requires CanMark(m, s[i].inputs, s[i].txid, i)
    ensures SentBy(AfterDrops(m, s, ord), p, i)
  {
    NoShareApart(s, i);
    MarkAllMarks(m, s, ord.broadcast, ord.marks, i);
    DropsAt(m, s, ord, p);
  }

  lemma SentStays(m: Entries, s: Intents, m': Entries, s': Intents, ids: seq<string>, looks: seq<nat>, keeps: seq<nat>,
                  i: string, p: Outpoint)
    requires |ids| == |looks| == |keeps| && Turns(m, s, m', s', ids, looks, keeps) && AllBuilt(ids, s) && NoShare(s)
    requires IsIn(s, i, {Broadcast}) && p in s[i].inputs && SentBy(m, p, i)
    ensures SentBy(m', p, i)
  {
    assert HasBytes(s, i);
    forall k | 0 <= k < |ids| ensures ids[k] in s && p !in s[ids[k]].inputs {
      assert HasBytes(s, ids[k]) && ids[k] != i;
    }
    TurnsApart(m, s, m', s', ids, looks, keeps, p);
  }

  /** Every intent that is Broadcast or held owns sends on all its inputs, and
      every other Built one, listed, entries that had not run out when taken. */
  ghost predicate LiveRestored(m: Entries, s: Intents, ids: seq<string>, keeps: seq<nat>)
    requires |ids| == |keeps|
  {
    && (forall i, p | i in s && (s[i].state == Broadcast || (s[i].state == Built && Held(s[i]))) && p in s[i].inputs ::
          SentBy(m, p, i))
    && (forall n, p | 0 <= n < |ids| && IsIn(s, ids[n], {Built}) && p in s[ids[n]].inputs ::
          OwnedBy(m, p, ids[n]) && !Expired(m[p], keeps[n]))
    && (forall i | IsIn(s, i, {Built}) :: i in ids)
  }

  /** The turns restore everything from a set in which nobody else has an entry on
      a Built intent's inputs and every Broadcast one owns its own. */
  lemma TurnsRestoreAll(m: Entries, s: Intents, m': Entries, s': Intents, ids: seq<string>, looks: seq<nat>,
                        keeps: seq<nat>)
    requires Lists(ids, s, Built) && |ids| == |looks| == |keeps| && Turns(m, s, m', s', ids, looks, keeps)
    requires NoShare(s) && "" !in s
    requires forall i | IsIn(s, i, {Built}) :: Clear(m, s[i], i)
    requires forall i, p | IsIn(s, i, {Broadcast}) && p in s[i].inputs :: SentBy(m, p, i)
    ensures LiveRestored(m', s', ids, keeps)
  {
    assert AllBuilt(ids, s);
    TurnsRecords(m, s, m', s', ids, looks, keeps);
    forall n | 0 <= n < |ids| ensures ids[n] in s' && Stands(m', s'[ids[n]], ids[n], keeps[n]) {
      TurnsStand(m, s, m', s', ids, looks, keeps, n);
    }
    forall i, p | IsIn(s, i, {Broadcast}) && p in s[i].inputs ensures SentBy(m', p, i) {
      SentStays(m, s, m', s', ids, looks, keeps, i, p);
    }
    Gather(s, m', s', ids, keeps);
  }

  lemma Gather(s: Intents, m': Entries, s': Intents, ids: seq<string>, keeps: seq<nat>)
    requires Lists(ids, s, Built) && |ids| == |keeps|
    requires forall i | i !in ids :: (i in s <==> i in s') && (i in s ==> s'[i] == s[i])
    requires forall n | 0 <= n < |ids| :: ids[n] in s' && Stands(m', s'[ids[n]], ids[n], keeps[n])
    requires forall i, p | IsIn(s, i, {Broadcast}) && p in s[i].inputs :: SentBy(m', p, i)
    ensures LiveRestored(m', s', ids, keeps)
  {
    forall i, p | i in s' && (s'[i].state == Broadcast || (s'[i].state == Built && Held(s'[i]))) && p in s'[i].inputs
      ensures SentBy(m', p, i)
    {
      if i in ids {
        var n :| 0 <= n < |ids| && ids[n] == i;
        assert Stands(m', s'[i], i, keeps[n]);
      }
    }
    forall n, p | 0 <= n < |ids| && IsIn(s', ids[n], {Built}) && p in s'[ids[n]].inputs
      ensures OwnedBy(m', p, ids[n]) && !Expired(m'[p], keeps[n])
    {
      assert Stands(m', s'[ids[n]], ids[n], keeps[n]);
    }
    forall i | IsIn(s', i, {Built}) ensures i in ids {
      assert i !in ids ==> IsIn(s, i, {Built});
    }
  }

  /** No two intents with signed bytes share an input, nobody else has an entry on
      a Built one's and nothing is in the way of a Broadcast one. */
  ghost predicate Unblocked(m: Entries, s: Intents) {
    && NoShare(s) && "" !in s
    && (forall i | IsIn(s, i, {Built}) :: Clear(m, s[i], i))
    && (forall i | IsIn(s, i, {Broadcast}) :: CanMark(m, s[i].inputs, s[i].txid, i))
  }

  /** From any such pair of files. */
  lemma TurnsRestore(m: Entries, s: Intents, ord: Orders, m': Entries, s': Intents, looks: seq<nat>, keeps: seq<nat>)
    requires ProperDrops(m, s, ord) && Lists(ord.built, s, Built) && |ord.built| == |looks| == |keeps|
    requires Turns(AfterDrops(m, s, ord), s, m', s', ord.built, looks, keeps) && Unblocked(m, s)
    ensures LiveRestored(m', s', ord.built, keeps)
  {
    var m1 := AfterDrops(m, s, ord);
    forall i | IsIn(s, i, {Built}) ensures Clear(m1, s[i], i) {
      DropsClear(m, s, ord, i);
    }
    forall i, p | IsIn(s, i, {Broadcast}) && p in s[i].inputs ensures SentBy(m1, p, i) {
      DropsMarked(m, s, ord, i, p);
    }
    TurnsRestoreAll(m1, s, m', s', ord.built, looks, keeps);
  }

  /** At every crash point of every run nothing is in the way of Recover's passes,
      whatever each file holds and however late the process starts again. The
      conditions on the run are those of RecoveryRestores. */
  lemma CrashPointUnblocked(w: World, f: Intents, c: Entries, now: nat)
    requires Reachable(w) && AllLive(w) && f in w.storeCrash && c in w.spentCrash
    requires forall i, p | IsIn(f, i, {Built}) && p in f[i].inputs :: p !in w.confirmed
    ensures Unblocked(AfterLoad(c, now), f)
  {
    CrashPointNoShare(w, f);
    CrashPointIds(w, f);
    forall i | IsIn(f, i, {Built}) ensures Clear(AfterLoad(c, now), f[i], i) {
      forall p | p in f[i].inputs ensures Mine(AfterLoad(c, now), p, i) {
        CrashPointOwned(w, f, c, now, i, p);
      }
    }
    forall i | IsIn(f, i, {Broadcast}) ensures CanMark(AfterLoad(c, now), f[i].inputs, f[i].txid, i) {
      CrashPointMarks(w, f, c, now, i);
    }
  }

  /** Recovery under a context that has not ended: from every crash point, whatever
      comes of each send, once Recover is through every intent that is then
      Broadcast or held owns sends on all its inputs, and every other one that is
      then Built entries that had not run out when they were taken. */
  lemma LiveRecoveryRestores(w: World, f: Intents, c: Entries, now: nat, ord: Orders, m': Entries, s': Intents,
                             looks: seq<nat>, keeps: seq<nat>)
    requires Reachable(w) && AllLive(w) && f in w.storeCrash && c in w.spentCrash
    requires forall i, p | IsIn(f, i, {Built}) && p in f[i].inputs :: p !in w.confirmed
    requires ProperDrops(AfterLoad(c, now), f, ord) && Lists(ord.built, f, Built)
    requires |ord.built| == |looks| == |keeps|
    requires Turns(AfterDrops(AfterLoad(c, now), f, ord), f, m', s', ord.built, looks, keeps)
    ensures LiveRestored(m', s', ord.built, keeps)
  {
    CrashPointUnblocked(w, f, c, now);
    TurnsRestore(AfterLoad(c, now), f, ord, m', s', looks, keeps);
  }
}
