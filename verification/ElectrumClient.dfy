/** The client's cache over a fixed set of tracked addresses: the maps its
    methods update under one lock, and the merge of a listunspent reply. */
module ElectrumClient {
  import opened CacheRecord

  /** An output; the asset type is the client's own stamp, which the server does
      not send. */
  datatype Utxo = Utxo(txid: string, vout: nat, value: int, height: int, assetType: nat, address: string)

  datatype Key = Key(txid: string, vout: nat)

  function KeyOf(u: Utxo): Key {
    Key(u.txid, u.vout)
  }

  /** What the server says of an output. */
  datatype Seen = Seen(key: Key, value: int, height: int)

  function SeenOf(u: Utxo): Seen {
    Seen(KeyOf(u), u.value, u.height)
  }

  function View(us: seq<Utxo>): set<Seen> {
    set u | u in us :: SeenOf(u)
  }

  predicate Distinct(us: seq<Utxo>) {
    forall i, j :: 0 <= i < j < |us| ==> KeyOf(us[i]) != KeyOf(us[j])
  }

  predicate Has(us: seq<Utxo>, k: Key) {
    exists u :: u in us && KeyOf(u) == k
  }

  // ----- The merge -----

  /** The reply by outpoint. */
  ghost predicate Indexes(reply: seq<Utxo>, addr: string, listed: map<Key, Utxo>) {
    && (forall k :: k in listed ==> exists u :: u in reply && KeyOf(u) == k && listed[k] == u.(address := addr))
    && (forall u :: u in reply ==> KeyOf(u) in listed)
  }

  /** One output of the merged set: a cached one with its stamp kept and the
      server's value and height taken, or a new one as it came. */
  ghost predicate MergedFrom(existing: seq<Utxo>, listed: map<Key, Utxo>, u: Utxo) {
    && KeyOf(u) in listed
    && (if Has(existing, KeyOf(u))
        then exists e :: e in existing && KeyOf(e) == KeyOf(u) &&
                         u == e.(value := listed[KeyOf(u)].value, height := listed[KeyOf(u)].height)
        else u == listed[KeyOf(u)])
  }

  ghost predicate IsMerge(existing: seq<Utxo>, listed: map<Key, Utxo>, merged: seq<Utxo>) {
    && (forall u :: u in merged ==> MergedFrom(existing, listed, u))
    && (forall k :: k in listed ==> Has(merged, k))
  }

  /** Whatever was cached, a merge shows exactly what the server sent. */
  lemma MergeShowsReply(existing: seq<Utxo>, reply: seq<Utxo>, addr: string, listed: map<Key, Utxo>, merged: seq<Utxo>)
    requires Distinct(reply) && Indexes(reply, addr, listed) && IsMerge(existing, listed, merged)
    ensures View(merged) == View(reply)
  {
    forall u | u in merged ensures SeenOf(u) in View(reply) {
      assert MergedFrom(existing, listed, u);
      var v :| v in reply && KeyOf(v) == KeyOf(u) && listed[KeyOf(u)] == v.(address := addr);
      assert SeenOf(u) == SeenOf(v);
    }
    forall v | v in reply ensures SeenOf(v) in View(merged) {
      assert KeyOf(v) in listed && Has(merged, KeyOf(v));
      var u :| u in merged && KeyOf(u) == KeyOf(v);
      assert MergedFrom(existing, listed, u);
      var v' :| v' in reply && KeyOf(v') == KeyOf(v) && listed[KeyOf(v)] == v'.(address := addr);
      var i :| 0 <= i < |reply| && reply[i] == v;
      var j :| 0 <= j < |reply| && reply[j] == v';
      assert i == j;
      assert SeenOf(u) == SeenOf(v);
    }
  }

  /** A stamp is kept on every output that is still there. */
  lemma MergeKeepsStamps(existing: seq<Utxo>, listed: map<Key, Utxo>, merged: seq<Utxo>, u: Utxo, stamp: nat)
    requires IsMerge(existing, listed, merged) && u in merged && Has(existing, KeyOf(u))
    requires forall e :: e in existing && KeyOf(e) == KeyOf(u) ==> e.assetType == stamp
    ensures u.assetType == stamp
  {
    assert MergedFrom(existing, listed, u);
  }

  method Index(reply: seq<Utxo>, addr: string) returns (listed: map<Key, Utxo>)
    ensures Indexes(reply, addr, listed)
  {
    listed := map[];
    for k := 0 to |reply|
      invariant Indexes(reply[..k], addr, listed)
    {
      var u := reply[k];
      assert reply[..k + 1] == reply[..k] + [u];
      ghost var before := listed;
      listed := listed[KeyOf(u) := u.(address := addr)];
      forall key | key in listed
        ensures exists v :: v in reply[..k + 1] && KeyOf(v) == key && listed[key] == v.(address := addr)
      {
        if key != KeyOf(u) {
          var v :| v in reply[..k] && KeyOf(v) == key && before[key] == v.(address := addr);
          assert v in reply[..k + 1];
        } else {
          assert u in reply[..k + 1];
        }
      }
    }
    assert reply[..|reply|] == reply;
  }

  /** The cached outputs the reply still lists. */
  method Keep(existing: seq<Utxo>, listed: map<Key, Utxo>) returns (merged: seq<Utxo>, kept: set<Key>)
    ensures forall u :: u in merged ==> MergedFrom(existing, listed, u) && KeyOf(u) in kept
    ensures forall k :: k in kept <==> k in listed && Has(existing, k)
    ensures forall k :: k in kept ==> Has(merged, k)
  {
    merged, kept := [], {};
    for i := 0 to |existing|
      invariant forall u :: u in merged ==> MergedFrom(existing, listed, u) && KeyOf(u) in kept
      invariant forall k :: k in kept <==> k in listed && Has(existing[..i], k)
      invariant forall k :: k in kept ==> Has(merged, k)
    {
      var e := existing[i];
      assert existing[..i + 1] == existing[..i] + [e];
      ghost var before, keptBefore := merged, kept;
      if KeyOf(e) in listed {
        var u := e.(height := listed[KeyOf(e)].height, value := listed[KeyOf(e)].value);
        assert e in existing && Has(existing, KeyOf(u)) && MergedFrom(existing, listed, u);
        merged := merged + [u];
        kept := kept + {KeyOf(e)};
        assert u in merged;
      }
      forall k ensures k in kept <==> k in listed && Has(existing[..i + 1], k) {
        assert Has(existing[..i + 1], k) <==> Has(existing[..i], k) || k == KeyOf(e) by {
          assert forall v :: v in existing[..i + 1] <==> v in existing[..i] || v == e;
          if Has(existing[..i], k) {
            var v :| v in existing[..i] && KeyOf(v) == k;
            assert v in existing[..i + 1];
          }
          if k == KeyOf(e) {
            assert e in existing[..i + 1];
          }
        }
      }
      forall k | k in kept ensures Has(merged, k) {
        if k in keptBefore {
          var v :| v in before && KeyOf(v) == k;
          assert v in merged;
        }
      }
    }
    assert existing[..|existing|] == existing;
  }

  /** The cached outputs still listed, then the new ones. */
  method Merge(existing: seq<Utxo>, listed: map<Key, Utxo>) returns (merged: seq<Utxo>)
    requires forall k :: k in listed ==> KeyOf(listed[k]) == k
    ensures IsMerge(existing, listed, merged)
  {
    var kept;
    merged, kept := Keep(existing, listed);
    var left := listed.Keys - kept;
    while left != {}
      invariant left <= listed.Keys - kept
      invariant forall u :: u in merged ==> MergedFrom(existing, listed, u)
      invariant forall k :: k in listed && k !in left ==> Has(merged, k)
      decreases |left|
    {
      var k :| k in left;
      ghost var before := merged;
      merged := merged + [listed[k]];
      left := left - {k};
      assert MergedFrom(existing, listed, listed[k]);
      assert listed[k] in merged;
      forall j | j in listed && j !in left ensures Has(merged, j) {
        if j != k {
          var v :| v in before && KeyOf(v) == j;
          assert v in merged;
        }
      }
    }
  }

  // ----- The cache -----

  class Client {
    /** The tracked addresses, which do not change. */
    const addresses: seq<string>
    var utxos: map<string, seq<Utxo>>
    var status: map<string, string>
    var subscribed: map<string, nat>
    var changed: set<string>
    var refreshed: map<string, Record>
    var liveGen: nat
    var tickets: nat
    /** A wake is queued for the refresher; one is enough. */
    var kicked: bool

    function Rec(addr: string): Record
      reads this
    {
      if addr in refreshed then refreshed[addr] else Record(0, false, 0, false, 0, 0)
    }

    /** Everything kept for one address. */
    function Of(addr: string): Cache<seq<Utxo>, string>
      reads this
    {
      Cache(if addr in utxos then utxos[addr] else [],
            if addr in status then Some(status[addr]) else None,
            if addr in subscribed then subscribed[addr] else 0,
            addr in changed, Rec(addr))
    }

    twostate predicate Others(addr: string)
      reads this
    {
      && (forall a | a != addr :: Of(a) == old(Of(a)))
      && liveGen == old(liveGen) && tickets == old(tickets) && (old(kicked) ==> kicked)
    }

    constructor (addresses: seq<string>)
      ensures this.addresses == addresses && changed == {} && !kicked && tickets == 0
      ensures forall a :: Of(a) == Cache([], None, 0, false, Record(0, false, 0, false, 0, 0))
    {
      this.addresses := addresses;
      utxos, status, subscribed, changed, refreshed := map[], map[], map[], {}, map[];
      liveGen, tickets, kicked := 0, 0, false;
    }

    method Kick()
      modifies this`kicked
      ensures kicked
    {
      kicked := true;
    }

    method NoteChange(gen: nat, addr: string, st: string)
      modifies this
      ensures Others(addr)
      ensures Of(addr) == if addr in addresses then CacheRecord.NoteChange(old(Of(addr)), liveGen, gen, st) else
              old(Of(addr))
      ensures if addr !in addresses || gen != liveGen || old(Of(addr)).status == Some(st) then Of(addr) == old(Of(addr))
              else
                && Of(addr).status == Some(st) && Of(addr).changed && Of(addr).utxos == old(Of(addr)).utxos
                && Rec(addr) == old(Rec(addr)).(dirty := true, noted := old(Rec(addr)).noted + 1)
      ensures Of(addr) != old(Of(addr)) ==> kicked
    {
      if addr !in addresses || gen != liveGen {
        return;
      }
      if addr in status && status[addr] == st {
        return;
      }
      status := status[addr := st];
      changed := changed + {addr};
      var rec := Rec(addr);
      refreshed := refreshed[addr := rec.(dirty := true, noted := rec.noted + 1)];
      Kick();
    }

    method RecordRefresh(addr: string, gen: nat, notedBefore: nat, ticket: nat, f: Option<Failure>, now: nat)
      modifies this`refreshed
      ensures Others(addr)
      ensures Of(addr) == if addr !in addresses then old(Of(addr))
                          else if f.Some? then NoReply(old(Of(addr)), ticket, f.value)
                          else old(Of(addr)).(rec := RecordSuccess(old(Rec(addr)), gen, notedBefore, ticket, now))
      ensures addr in addresses && f.Some? && ticket >= old(Rec(addr)).commit ==>
                Rec(addr) == old(Rec(addr)).(commit := ticket, err := old(Rec(addr)).err || f.value.Failed?)
    {
      if addr !in addresses {
        return;
      }
      var rec := Rec(addr);
      if ticket < rec.commit {
        return;
      }
      rec := rec.(commit := ticket);
      if f.None? || f.value.Failed? {
        rec := rec.(err := f.Some?);
      }
      if f.None? && rec.noted == notedBefore {
        rec := rec.(at := now, gen := gen, dirty := false);
      }
      refreshed := refreshed[addr := rec];
    }

    method RecordStale(addr: string, gen: nat, notedBefore: nat, ticket: nat)
      requires addr in addresses
      modifies this
      ensures Others(addr) && kicked
      ensures Of(addr) == CacheRecord.RecordStale(old(Of(addr)), ticket)
    {
      RecordRefresh(addr, gen, notedBefore, ticket, Some(Failed), 0);
      changed := changed + {addr};
      Kick();
    }

    /** A parsed listunspent reply; `ok` is false for one from a replaced
        connection. What is cached then shows exactly what the reply listed. */
    method CommitRefresh(addr: string, gen: nat, notedBefore: nat, ticket: nat, reply: seq<Utxo>, now: nat)
      returns (ok: bool, ghost merged: seq<Utxo>)
      requires addr in addresses
      modifies this
      ensures Others(addr)
      ensures Of(addr) == CacheRecord.CommitRefresh(old(Of(addr)), liveGen, gen, notedBefore, ticket, merged, now)
      ensures if ticket < old(Rec(addr)).commit then Of(addr) == old(Of(addr))
              else if liveGen != 0 && gen != liveGen then
                Of(addr) == old(Of(addr)).(changed := true, rec := old(Rec(addr)).(commit := ticket, err := true))
              else
                && Of(addr).utxos == merged && Of(addr).changed == old(Of(addr)).changed
                && Rec(addr) == old(Rec(addr)).(
                     commit := ticket, err := false,
                     at := if old(Rec(addr)).noted == notedBefore then now else old(Rec(addr)).at,
                     gen := if old(Rec(addr)).noted == notedBefore then gen else old(Rec(addr)).gen,
                     dirty := old(Rec(addr)).noted != notedBefore && old(Rec(addr)).dirty)
      ensures Distinct(reply) ==> View(merged) == View(reply)
      ensures ok == (ticket < old(Rec(addr)).commit || !StaleReply(liveGen, gen))
      ensures !ok ==> kicked
    {
      var listed := Index(reply, addr);
      var existing := if addr in utxos then utxos[addr] else [];
      var m := Merge(existing, listed);
      merged := m;
      if Distinct(reply) {
        MergeShowsReply(existing, reply, addr, listed, m);
      }
      if ticket < Rec(addr).commit {
        return true, merged;
      }
      if StaleReply(liveGen, gen) {
        RecordStale(addr, gen, notedBefore, ticket);
        return false, merged;
      }
      utxos := utxos[addr := m];
      RecordRefresh(addr, gen, notedBefore, ticket, None, now);
      return true, merged;
    }

    /** A reply that could not be used; `ok` when a later refresh stands in for
        it. */
    method RecordRefreshFailure(addr: string, gen: nat, notedBefore: nat, ticket: nat) returns (ok: bool)
      requires addr in addresses
      modifies this
      ensures Others(addr)
      ensures Of(addr) == RefuseReply(old(Of(addr)), liveGen, gen, ticket)
      ensures ok == (ticket < old(Rec(addr)).commit)
      ensures addr in changed && addr !in old(changed) ==> kicked
    {
      if ticket < Rec(addr).commit {
        return true;
      }
      if StaleReply(liveGen, gen) {
        RecordStale(addr, gen, notedBefore, ticket);
        return false;
      }
      RecordRefresh(addr, gen, notedBefore, ticket, Some(Failed), 0);
      return false;
    }

    method CommitSubscribe(addr: string, gen: nat, st: string, now: nat)
      modifies this
      ensures Others(addr)
      ensures Of(addr) == if addr in addresses then CacheRecord.CommitSubscribe(old(Of(addr)), liveGen, gen, st, now)
                          else old(Of(addr))
      ensures if addr !in addresses || gen != liveGen then Of(addr) == old(Of(addr))
              else
                var was := old(Rec(addr));
                Of(addr).subscribed == gen && Of(addr).status == Some(st) && Of(addr).utxos == old(Of(addr)).utxos &&
                if old(Of(addr)).status == Some(st) && was.at != 0 && !was.dirty && !was.err then
                  Rec(addr) == was.(at := now, gen := gen) && Of(addr).changed == old(Of(addr)).changed
                else
                  Rec(addr) == was.(dirty := true, noted := was.noted + 1) && Of(addr).changed
    {
      if addr !in addresses || gen != liveGen {
        return;
      }
      var rec := Rec(addr);
      subscribed := subscribed[addr := gen];
      var same := addr in status && status[addr] == st;
      status := status[addr := st];
      if same && rec.at != 0 && !rec.err && !rec.dirty {
        rec := rec.(at := now, gen := gen);
      } else {
        changed := changed + {addr};
        rec := rec.(dirty := true, noted := rec.noted + 1);
      }
      refreshed := refreshed[addr := rec];
    }

    method FailSubscribe(addr: string, f: Failure)
      modifies this`refreshed
      ensures Others(addr)
      ensures Of(addr) == if addr in addresses then SubscribeFailed(old(Of(addr)), f) else old(Of(addr))
      ensures addr in addresses && f.Failed? ==> Rec(addr) == old(Rec(addr)).(err := true)
    {
      if addr !in addresses {
        return;
      }
      if f.Failed? {
        refreshed := refreshed[addr := Rec(addr).(err := true)];
      }
    }

    /** Every address at once; each is dated by itself. */
    method Touch(gen: nat, now: nat)
      requires gen != 0
      modifies this`refreshed
      ensures forall a :: Of(a) == CacheRecord.Touch(old(Of(a)), gen, now)
      ensures forall a ::
                Of(a) == old(Of(a)) ||
                (Of(a) == old(Of(a)).(rec := old(Rec(a)).(at := now)) && old(Of(a)).subscribed == gen &&
                 !old(Rec(a)).dirty && !old(Rec(a)).err && old(Rec(a)).at != 0 && old(Rec(a)).gen == gen)
    {
      var left := subscribed.Keys;
      while left != {}
        invariant left <= subscribed.Keys
        invariant forall a :: Of(a) == if a in left then old(Of(a)) else CacheRecord.Touch(old(Of(a)), gen, now)
        decreases |left|
      {
        var addr :| addr in left;
        left := left - {addr};
        TouchOne(addr, gen, now);
      }
    }

    method TouchOne(addr: string, gen: nat, now: nat)
      requires addr in subscribed
      modifies this`refreshed
      ensures Of(addr) == CacheRecord.Touch(old(Of(addr)), gen, now) && forall a | a != addr :: Of(a) == old(Of(a))
    {
      if subscribed[addr] != gen {
        return;
      }
      var rec := Rec(addr);
      if rec.dirty || rec.err || rec.at == 0 || rec.gen != gen {
        return;
      }
      refreshed := refreshed[addr := rec.(at := now)];
    }
  }
}
