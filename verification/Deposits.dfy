/** Deposit crediting: one pass of the monitor over the indexer's outputs, the
    exchange's ledger and its node, and the set of outpoints it no longer asks
    about. Times are seconds, 0 for never. */
module Deposits {
  import opened SpentSet

  datatype Utxo = Utxo(out: Outpoint, value: int, height: int)

  datatype Deposit = Deposit(out: Outpoint, address: string, value: int, height: int, confirmations: int)

  /** The node's output, with its depth. */
  datatype TxOut = TxOut(value: int, script: string, confirmations: int, coinbase: bool)

  /** What gettxout comes to: no answer, a refusal, or an output or its absence. */
  datatype Answer = Silent | Refused | Absent | Present(txout: TxOut)

  /** The final set, keyed by outpoint and holding the address. */
  type Final = map<Outpoint, string>

  const MAX_REORG_DEPTH := 288

  /** What a pass finds outside. `scripts` holds the valid deposit addresses
      only; `refreshed` the last moment an address's outputs were known current
      and whether the last attempt failed; the three `fails` sets the outpoints
      for which a call of the ledger fails. */
  datatype Outside = Outside(
    now: nat, maxAge: nat, tip: int, maturity: int, required: int -> int,
    addresses: seq<string>, refreshed: string -> (nat, bool), scripts: map<string, string>, utxos: string -> seq<Utxo>,
    node: Outpoint -> Answer, pending: seq<Deposit>,
    askFails: set<Outpoint>, creditFails: set<Outpoint>, finalFails: set<Outpoint>)

  /** Where a pass stands; `over` once a call did not complete. */
  datatype Pass = Pass(
    final: Final, first: map<string, nat>, ledger: set<Outpoint>, credited: seq<Deposit>,
    scanned: set<string>, seen: set<Outpoint>, stale: nat, over: bool)

  // ----- One outpoint -----

  predicate Deep(o: Outside, p: Outpoint) {
    o.node(p).Present? && o.node(p).txout.confirmations > MAX_REORG_DEPTH
  }

  /** The node agrees on value, script, depth and maturity. */
  predicate Agrees(o: Outside, addr: string, u: Utxo) {
    && addr in o.scripts && o.node(u.out).Present?
    && var t := o.node(u.out).txout;
       t.value == u.value && t.script == o.scripts[addr] && t.confirmations >= o.required(u.value) &&
       !(t.coinbase && t.confirmations < o.maturity)
  }

  /** An output the ledger has: it enters the final set on the node's word. */
  function Known(o: Outside, pending: set<Outpoint>, s: Pass, addr: string, u: Utxo): Pass {
    if u.out in pending then s
    else
      match o.node(u.out)
      case Silent => s.(over := true)
      case Refused => s
      case Absent => s
      case Present(t) =>
        if t.confirmations < o.required(u.value) then s
        else if t.confirmations > MAX_REORG_DEPTH then s.(final := s.final[u.out := addr])
        else s
  }

  /** An output the ledger does not have: it is credited when the node agrees. */
  function New(o: Outside, s: Pass, addr: string, u: Utxo): Pass {
    if o.node(u.out).Silent? then s.(over := true)
    else if !Agrees(o, addr, u) then s
    else if u.out in o.creditFails then s.(over := true)
    else
      var t := o.node(u.out).txout;
      s.(ledger := s.ledger + {u.out},
         credited := s.credited + [Deposit(u.out, addr, u.value, o.tip - t.confirmations + 1, t.confirmations)])
  }

  predicate Ripe(o: Outside, u: Utxo) {
    u.height > 0 && o.tip - u.height + 1 >= o.required(u.value)
  }

  function OneOutput(o: Outside, pending: set<Outpoint>, s: Pass, addr: string, u: Utxo): Pass {
    if s.over then s
    else
      var s1 := s.(seen := s.seen + {u.out});
      if !Ripe(o, u) || u.out in s.final then s1
      else if u.out in o.askFails then s1.(over := true)
      else if u.out in s.ledger then Known(o, pending, s1, addr, u)
      else New(o, s1, addr, u)
  }

  function Outputs(o: Outside, pending: set<Outpoint>, s: Pass, addr: string, us: seq<Utxo>): Pass {
    if us == [] then s
    else OneOutput(o, pending, Outputs(o, pending, s, addr, us[..|us| - 1]), addr, us[|us| - 1])
  }

  // ----- One address -----

  /** The moment an address was first found without an answer. */
  function FirstListed(s: Pass, addr: string, now: nat): nat {
    if addr in s.first then s.first[addr] else now
  }

  function OneAddress(o: Outside, pending: set<Outpoint>, s: Pass, addr: string): Pass {
    if s.over then s
    else
      var (at, failed) := o.refreshed(addr);
      var listed := FirstListed(s, addr, o.now);
      var unanswered := at == 0 && !failed;
      var s1 := s.(first := if unanswered then s.first[addr := listed] else s.first - {addr});
      if unanswered && o.now - listed <= o.maxAge then s1
      else if at == 0 || o.now - at > o.maxAge then s1.(stale := s.stale + 1)
      else if addr !in o.scripts then s1
      else Outputs(o, pending, s1.(scanned := s.scanned + {addr}), addr, o.utxos(addr))
  }

  function Addresses(o: Outside, pending: set<Outpoint>, s: Pass, addrs: seq<string>): Pass {
    if addrs == [] then s
    else OneAddress(o, pending, Addresses(o, pending, s, addrs[..|addrs| - 1]), addrs[|addrs| - 1])
  }

  // ----- The pass -----

  /** A credited deposit the ledger still watches. */
  function OnePending(o: Outside, s: Pass, d: Deposit): Pass {
    if s.over then s
    else
      match o.node(d.out)
      case Silent => s.(over := true)
      case Refused => s
      case Absent => s
      case Present(t) =>
        if t.confirmations < o.required(d.value) || t.confirmations <= MAX_REORG_DEPTH then s
        else if d.out in o.finalFails then s.(over := true)
        else s.(final := s.final[d.out := d.address])
  }

  function Recheck(o: Outside, s: Pass, ds: seq<Deposit>): Pass {
    if ds == [] then s else OnePending(o, Recheck(o, s, ds[..|ds| - 1]), ds[|ds| - 1])
  }

  function PendingSet(o: Outside): set<Outpoint> {
    set d | d in o.pending :: d.out
  }

  function Begin(final: Final, first: map<string, nat>, ledger: set<Outpoint>): Pass {
    Pass(final, first, ledger, [], {}, {}, 0, false)
  }

  /** Only a pass that came to its end knows which outpoints are gone. */
  function Pruned(s: Pass): Final {
    map p | p in s.final && !(s.final[p] in s.scanned && p !in s.seen) :: s.final[p]
  }

  function AllStale(o: Outside, s: Pass): bool {
    s.stale > 0 && s.stale == |o.addresses|
  }

  function Scanned(o: Outside, final: Final, first: map<string, nat>, ledger: set<Outpoint>): Pass {
    var s := Addresses(o, PendingSet(o), Recheck(o, Begin(final, first, ledger), o.pending), o.addresses);
    if s.over || AllStale(o, s) then s else s.(final := Pruned(s))
  }

  // ----- The monitor -----

  /** The monitor, with the ledger's credits and what one pass accumulates. */
  class Monitor {
    var final: Final
    var firstListed: map<string, nat>
    var ledger: set<Outpoint>
    var credited: seq<Deposit>
    var scanned: set<string>
    var seen: set<Outpoint>
    var stale: nat
    var over: bool

    function State(): Pass
      reads this
    {
      Pass(final, firstListed, ledger, credited, scanned, seen, stale, over)
    }

    constructor (ledger: set<Outpoint>)
      ensures State() == Begin(map[], map[], ledger)
    {
      final, firstListed, this.ledger := map[], map[], ledger;
      credited, scanned, seen, stale, over := [], {}, {}, 0, false;
    }

    method RecheckOne(o: Outside, d: Deposit)
      requires !over
      modifies this
      ensures State() == OnePending(o, old(State()), d)
    {
      var a := o.node(d.out);
      if a.Silent? {
        over := true;
        return;
      }
      if a.Present? && a.txout.confirmations >= o.required(d.value) && a.txout.confirmations > MAX_REORG_DEPTH {
        if d.out in o.finalFails {
          over := true;
          return;
        }
        final := final[d.out := d.address];
      }
    }

    method RecheckPending(o: Outside)
      requires !over
      modifies this
      ensures State() == Recheck(o, old(State()), o.pending)
    {
      for k := 0 to |o.pending|
        invariant State() == Recheck(o, old(State()), o.pending[..k])
      {
        assert o.pending[..k + 1][..k] == o.pending[..k];
        if !over {
          RecheckOne(o, o.pending[k]);
        }
      }
      assert o.pending[..|o.pending|] == o.pending;
    }

    /** The node confirms an output the ledger does not have. */
    method VerifyAndCredit(o: Outside, addr: string, u: Utxo)
      requires !over
      modifies this
      ensures State() == New(o, old(State()), addr, u)
      ensures credited == old(credited) || credited == old(credited) +
              [Deposit(u.out, addr, u.value, o.tip - o.node(u.out).txout.confirmations + 1,
                       o.node(u.out).txout.confirmations)]
    {
      var a := o.node(u.out);
      if a.Silent? {
        over := true;
        return;
      }
      if a.Refused? || a.Absent? || addr !in o.scripts {
        return;
      }
      var t := a.txout;
      if t.value != u.value || t.script != o.scripts[addr] || t.confirmations < o.required(u.value) {
        return; // the indexer and the node disagree
      }
      if t.coinbase && t.confirmations < o.maturity {
        return; // real, but not spendable yet
      }
      if u.out in o.creditFails {
        over := true;
        return;
      }
      ledger := ledger + {u.out};
      credited := credited + [Deposit(u.out, addr, u.value, o.tip - t.confirmations + 1, t.confirmations)];
    }

    method CheckKnown(o: Outside, pending: set<Outpoint>, addr: string, u: Utxo)
      requires !over
      modifies this
      ensures State() == Known(o, pending, old(State()), addr, u)
    {
      if u.out in pending {
        return;
      }
      var a := o.node(u.out);
      if a.Silent? {
        over := true;
        return;
      }
      if a.Present? && a.txout.confirmations >= o.required(u.value) && a.txout.confirmations > MAX_REORG_DEPTH {
        final := final[u.out := addr];
      }
    }

    method ScanOutput(o: Outside, pending: set<Outpoint>, addr: string, u: Utxo)
      modifies this
      ensures State() == OneOutput(o, pending, old(State()), addr, u)
    {
      if over {
        return;
      }
      seen := seen + {u.out};
      if u.height <= 0 || o.tip - u.height + 1 < o.required(u.value) {
        return;
      }
      if u.out in final {
        return; // credited by the ledger's word, final by the node's
      }
      if u.out in o.askFails {
        over := true;
        return;
      }
      if u.out in ledger {
        CheckKnown(o, pending, addr, u);
      } else {
        VerifyAndCredit(o, addr, u);
      }
    }

    method ScanOutputs(o: Outside, pending: set<Outpoint>, addr: string, us: seq<Utxo>)
      modifies this
      ensures State() == Outputs(o, pending, old(State()), addr, us)
    {
      for k := 0 to |us|
        invariant State() == Outputs(o, pending, old(State()), addr, us[..k])
      {
        assert us[..k + 1][..k] == us[..k];
        ScanOutput(o, pending, addr, us[k]);
      }
      assert us[..|us|] == us;
    }

    method ScanAddress(o: Outside, pending: set<Outpoint>, addr: string)
      modifies this
      ensures State() == OneAddress(o, pending, old(State()), addr)
    {
      if over {
        return;
      }
      var (at, failed) := o.refreshed(addr);
      if at == 0 && !failed {
        if addr !in firstListed {
          firstListed := firstListed[addr := o.now];
        }
        assert firstListed == old(firstListed)[addr := FirstListed(old(State()), addr, o.now)];
        if o.now - firstListed[addr] <= o.maxAge {
          return; // its deposits wait, quietly
        }
      } else {
        firstListed := firstListed - {addr};
      }
      if at == 0 || o.now - at > o.maxAge {
        stale := stale + 1;
        return;
      }
      if addr !in o.scripts {
        return;
      }
      scanned := scanned + {addr};
      ScanOutputs(o, pending, addr, o.utxos(addr));
    }

    method ScanAddresses(o: Outside, pending: set<Outpoint>)
      modifies this
      ensures State() == Addresses(o, pending, old(State()), o.addresses)
    {
      for k := 0 to |o.addresses|
        invariant State() == Addresses(o, pending, old(State()), o.addresses[..k])
      {
        assert o.addresses[..k + 1][..k] == o.addresses[..k];
        ScanAddress(o, pending, o.addresses[k]);
      }
      assert o.addresses[..|o.addresses|] == o.addresses;
    }

    /** Drops the entries of scanned addresses that the cache no longer lists. */
    method PruneFinal()
      modifies this`final
      ensures final == Pruned(old(State()))
      ensures forall p :: p in final <==> p in old(final) && (old(final)[p] in scanned ==> p in seen)
      ensures forall p | p in final :: final[p] == old(final)[p]
    {
      var left := final.Keys;
      while left != {}
        invariant left <= old(final).Keys
        invariant final == map p | p in old(final) &&
                  (p in left || !(old(final)[p] in scanned && p !in seen)) :: old(final)[p]
        decreases |left|
      {
        var p :| p in left;
        left := left - {p};
        if final[p] in scanned && p !in seen {
          final := final - {p};
        }
      }
    }

    /** One pass. */
    method Scan(o: Outside)
      modifies this
      ensures State() == Scanned(o, old(final), old(firstListed), old(ledger))
    {
      credited, scanned, seen, stale, over := [], {}, {}, 0, false;
      assert State() == Begin(old(final), old(firstListed), old(ledger));
      RecheckPending(o);
      ScanAddresses(o, PendingSet(o));
      if over || (stale > 0 && stale == |o.addresses|) {
        return;
      }
      PruneFinal();
    }
  }

  // ----- The final set is only a cache -----

  /** Two passes that differ in their final sets alone, each within what the
      ledger has. */
  predicate Twins(s: Pass, t: Pass) {
    && s.first == t.first && s.ledger == t.ledger && s.credited == t.credited && s.scanned == t.scanned &&
         s.seen == t.seen
    && s.stale == t.stale && !s.over && !t.over && s.final.Keys <= s.ledger && t.final.Keys <= t.ledger
  }

  /** Node and ledger answer every call. */
  ghost predicate Answers(o: Outside) {
    o.askFails == {} && o.creditFails == {} && o.finalFails == {} && forall p :: !o.node(p).Silent?
  }

  /** The ledger lists as pending only what it has credited. */
  ghost predicate HonestPending(o: Outside, ledger: set<Outpoint>) {
    forall k | 0 <= k < |o.pending| :: o.pending[k].out in ledger
  }

  /** Asking about an output the ledger has changes nothing but the set. */
  lemma KnownKeeps(o: Outside, pending: set<Outpoint>, s: Pass, addr: string, u: Utxo)
    requires Answers(o) && u.out in s.ledger && s.final.Keys <= s.ledger
    ensures var s' := Known(o, pending, s, addr, u); s' == s.(final := s'.final) && s'.final.Keys <= s.ledger
  {
  }

  lemma NewTwins(o: Outside, s: Pass, t: Pass, addr: string, u: Utxo)
    requires Answers(o) && Twins(s, t)
    ensures Twins(New(o, s, addr, u), New(o, t, addr, u))
  {
  }

  lemma TwinOutput(o: Outside, pending: set<Outpoint>, s: Pass, t: Pass, addr: string, u: Utxo)
    requires Answers(o) && Twins(s, t)
    ensures Twins(OneOutput(o, pending, s, addr, u), OneOutput(o, pending, t, addr, u))
  {
    var s1, t1 := s.(seen := s.seen + {u.out}), t.(seen := t.seen + {u.out});
    if u.out in s.ledger {
      KnownKeeps(o, pending, s1, addr, u);
      KnownKeeps(o, pending, t1, addr, u);
    } else {
      NewTwins(o, s1, t1, addr, u);
    }
  }

  lemma {:induction false} TwinOutputs(o: Outside, pending: set<Outpoint>, s: Pass, t: Pass, addr: string,
                                       us: seq<Utxo>)
    requires Answers(o) && Twins(s, t)
    ensures Twins(Outputs(o, pending, s, addr, us), Outputs(o, pending, t, addr, us))
  {
    if us != [] {
      var n := |us| - 1;
      TwinOutputs(o, pending, s, t, addr, us[..n]);
      TwinOutput(o, pending, Outputs(o, pending, s, addr, us[..n]), Outputs(o, pending, t, addr, us[..n]), addr, us[n]);
    }
  }

  lemma TwinAddress(o: Outside, pending: set<Outpoint>, s: Pass, t: Pass, addr: string)
    requires Answers(o) && Twins(s, t)
    ensures Twins(OneAddress(o, pending, s, addr), OneAddress(o, pending, t, addr))
  {
    var (at, failed) := o.refreshed(addr);
    var first := if at == 0 && !failed then s.first[addr := FirstListed(s, addr, o.now)] else s.first - {addr};
    var s1 := s.(first := first, scanned := s.scanned + {addr});
    var t1 := t.(first := first, scanned := t.scanned + {addr});
    TwinOutputs(o, pending, s1, t1, addr, o.utxos(addr));
  }

  lemma {:induction false} TwinAddresses(o: Outside, pending: set<Outpoint>, s: Pass, t: Pass, addrs: seq<string>)
    requires Answers(o) && Twins(s, t)
    ensures Twins(Addresses(o, pending, s, addrs), Addresses(o, pending, t, addrs))
  {
    if addrs != [] {
      var n := |addrs| - 1;
      TwinAddresses(o, pending, s, t, addrs[..n]);
      TwinAddress(o, pending, Addresses(o, pending, s, addrs[..n]), Addresses(o, pending, t, addrs[..n]), addrs[n]);
    }
  }

  lemma {:induction false} TwinRecheck(o: Outside, s: Pass, t: Pass, ds: seq<Deposit>)
    requires Answers(o) && Twins(s, t) && forall k | 0 <= k < |ds| :: ds[k].out in s.ledger
    ensures Twins(Recheck(o, s, ds), Recheck(o, t, ds)) && Recheck(o, s, ds).ledger == s.ledger
  {
    if ds != [] {
      TwinRecheck(o, s, t, ds[..|ds| - 1]);
    }
  }

  /** A pass that is answered throughout credits exactly what it would with an
      empty set. */
  lemma FinalIsACache(o: Outside, final: Final, first: map<string, nat>, ledger: set<Outpoint>)
    requires Answers(o) && HonestPending(o, ledger) && final.Keys <= ledger
    ensures Scanned(o, final, first, ledger).credited == Scanned(o, map[], first, ledger).credited
    ensures Scanned(o, final, first, ledger).ledger == Scanned(o, map[], first, ledger).ledger
  {
    var s, t := Begin(final, first, ledger), Begin(map[], first, ledger);
    TwinRecheck(o, s, t, o.pending);
    TwinAddresses(o, PendingSet(o), Recheck(o, s, o.pending), Recheck(o, t, o.pending), o.addresses);
  }

  // ----- What puts an entry in, and what keeps it -----

  /** Since `s0`, every new entry has the ledger's word and the node's. */
  predicate Earned(o: Outside, s0: Pass, s: Pass) {
    && s0.ledger <= s.ledger
    && forall p | p in s.final :: p in s0.final || (Deep(o, p) && p in s.ledger)
  }

  lemma {:induction false} EarnedOutputs(o: Outside, pending: set<Outpoint>, s0: Pass, s: Pass, addr: string,
                                         us: seq<Utxo>)
    requires Earned(o, s0, s)
    ensures Earned(o, s0, Outputs(o, pending, s, addr, us))
  {
    if us != [] {
      EarnedOutputs(o, pending, s0, s, addr, us[..|us| - 1]);
    }
  }

  lemma {:induction false} EarnedAddresses(o: Outside, pending: set<Outpoint>, s0: Pass, s: Pass, addrs: seq<string>)
    requires Earned(o, s0, s)
    ensures Earned(o, s0, Addresses(o, pending, s, addrs))
  {
    if addrs != [] {
      var n := |addrs| - 1;
      EarnedAddresses(o, pending, s0, s, addrs[..n]);
      EarnedAddress(o, pending, s0, Addresses(o, pending, s, addrs[..n]), addrs[n]);
    }
  }

  lemma EarnedAddress(o: Outside, pending: set<Outpoint>, s0: Pass, s: Pass, addr: string)
    requires Earned(o, s0, s)
    ensures Earned(o, s0, OneAddress(o, pending, s, addr))
  {
    var (at, failed) := o.refreshed(addr);
    var first := if at == 0 && !failed then s.first[addr := FirstListed(s, addr, o.now)] else s.first - {addr};
    EarnedOutputs(o, pending, s0, s.(first := first, scanned := s.scanned + {addr}), addr, o.utxos(addr));
  }

  lemma {:induction false} EarnedRecheck(o: Outside, s: Pass, ds: seq<Deposit>)
    requires forall k | 0 <= k < |ds| :: ds[k].out in s.ledger
    ensures Earned(o, s, Recheck(o, s, ds)) && Recheck(o, s, ds).ledger == s.ledger
  {
    if ds != [] {
      EarnedRecheck(o, s, ds[..|ds| - 1]);
    }
  }

  /** Whatever a pass meets, cut short or not, an outpoint enters the set only
      when the ledger has it and the node puts it past the horizon, and the
      ledger loses nothing. */
  lemma EntriesAreEarned(o: Outside, final: Final, first: map<string, nat>, ledger: set<Outpoint>)
    requires HonestPending(o, ledger)
    ensures Earned(o, Begin(final, first, ledger), Scanned(o, final, first, ledger))
  {
    var s := Begin(final, first, ledger);
    EarnedRecheck(o, s, o.pending);
    EarnedAddresses(o, PendingSet(o), s, Recheck(o, s, o.pending), o.addresses);
  }

  /** An entry is not touched by the outputs of any address. */
  lemma {:induction false} OutputsKeep(o: Outside, pending: set<Outpoint>, s: Pass, addr: string, us: seq<Utxo>,
                                       p: Outpoint)
    requires p in s.final
    ensures var s' := Outputs(o, pending, s, addr, us);
            p in s'.final && s'.final[p] == s.final[p] && s'.scanned == s.scanned
  {
    if us != [] {
      OutputsKeep(o, pending, s, addr, us[..|us| - 1], p);
    }
  }

  lemma {:induction false} AddressesKeep(o: Outside, pending: set<Outpoint>, s: Pass, addrs: seq<string>, p: Outpoint)
    requires p in s.final
    ensures var s' := Addresses(o, pending, s, addrs); p in s'.final && s'.final[p] == s.final[p]
  {
    if addrs != [] {
      var n := |addrs| - 1;
      AddressesKeep(o, pending, s, addrs[..n], p);
      AddressKeeps(o, pending, Addresses(o, pending, s, addrs[..n]), addrs[n], p);
    }
  }

  lemma AddressKeeps(o: Outside, pending: set<Outpoint>, s: Pass, addr: string, p: Outpoint)
    requires p in s.final
    ensures var s' := OneAddress(o, pending, s, addr); p in s'.final && s'.final[p] == s.final[p]
  {
    var (at, failed) := o.refreshed(addr);
    var first := if at == 0 && !failed then s.first[addr := FirstListed(s, addr, o.now)] else s.first - {addr};
    OutputsKeep(o, pending, s.(first := first, scanned := s.scanned + {addr}), addr, o.utxos(addr), p);
  }

  lemma {:induction false} RecheckKeeps(o: Outside, s: Pass, ds: seq<Deposit>, p: Outpoint)
    requires p in s.final && forall k | 0 <= k < |ds| && ds[k].out == p :: ds[k].address == s.final[p]
    ensures var s' := Recheck(o, s, ds); p in s'.final && s'.final[p] == s.final[p] && s'.scanned == s.scanned
  {
    if ds != [] {
      RecheckKeeps(o, s, ds[..|ds| - 1], p);
    }
  }

  predicate Stale(o: Outside, addr: string) {
    o.refreshed(addr).0 == 0 || o.now - o.refreshed(addr).0 > o.maxAge
  }

  lemma {:induction false} OutputsScan(o: Outside, pending: set<Outpoint>, s: Pass, addr: string, us: seq<Utxo>)
    ensures Outputs(o, pending, s, addr, us).scanned == s.scanned
  {
    if us != [] {
      OutputsScan(o, pending, s, addr, us[..|us| - 1]);
    }
  }

  lemma {:induction false} StaleIsNotScanned(o: Outside, pending: set<Outpoint>, s: Pass, addrs: seq<string>,
                                             addr: string)
    requires Stale(o, addr) && addr !in s.scanned
    ensures addr !in Addresses(o, pending, s, addrs).scanned
  {
    if addrs != [] {
      var n := |addrs| - 1;
      StaleIsNotScanned(o, pending, s, addrs[..n], addr);
      var t := Addresses(o, pending, s, addrs[..n]);
      AddressScans(o, pending, t, addrs[n]);
    }
  }

  lemma AddressScans(o: Outside, pending: set<Outpoint>, s: Pass, addr: string)
    ensures var s' := OneAddress(o, pending, s, addr);
            s'.scanned == s.scanned || (s'.scanned == s.scanned + {addr} && !Stale(o, addr))
  {
    var (at, failed) := o.refreshed(addr);
    var first := if at == 0 && !failed then s.first[addr := FirstListed(s, addr, o.now)] else s.first - {addr};
    OutputsScan(o, pending, s.(first := first, scanned := s.scanned + {addr}), addr, o.utxos(addr));
  }

  /** A skipped stale address loses no entry. */
  lemma StaleKeepsEntries(o: Outside, final: Final, first: map<string, nat>, ledger: set<Outpoint>, p: Outpoint)
    requires p in final && Stale(o, final[p])
    requires forall k | 0 <= k < |o.pending| && o.pending[k].out == p :: o.pending[k].address == final[p]
    ensures var s := Scanned(o, final, first, ledger); p in s.final && s.final[p] == final[p]
  {
    var s := Recheck(o, Begin(final, first, ledger), o.pending);
    RecheckKeeps(o, Begin(final, first, ledger), o.pending, p);
    AddressesKeep(o, PendingSet(o), s, o.addresses, p);
    StaleIsNotScanned(o, PendingSet(o), s, o.addresses, final[p]);
  }

  // ----- What a pass credits -----

  /** One deposit for each outpoint the ledger has gained. */
  ghost predicate OneEach(ds: seq<Deposit>, outs: set<Outpoint>) {
    && (forall i, j :: 0 <= i < j < |ds| ==> ds[i].out != ds[j].out)
    && (forall i :: 0 <= i < |ds| ==> ds[i].out in outs)
    && (forall p | p in outs :: exists i :: 0 <= i < |ds| && ds[i].out == p)
  }

  /** From `s` to `s'` the credits are those of what the ledger has gained. */
  ghost predicate Extends(s: Pass, s': Pass) {
    s.ledger <= s'.ledger && s.credited <= s'.credited && OneEach(s'.credited[|s.credited|..], s'.ledger - s.ledger)
  }

  lemma ExtendsNone(s: Pass, s': Pass)
    requires s'.ledger == s.ledger && s'.credited == s.credited
    ensures Extends(s, s')
  {
  }

  lemma ExtendsOn(a: Pass, b: Pass, c: Pass)
    requires Extends(a, b) && Extends(b, c)
    ensures Extends(a, c)
  {
    var first, then' := b.credited[|a.credited|..], c.credited[|b.credited|..];
    assert c.credited[|a.credited|..] == first + then';
    var all := first + then';
    forall i | 0 <= i < |all| ensures all[i].out in c.ledger - a.ledger {
      assert all[i] == if i < |first| then first[i] else then'[i - |first|];
    }
    forall p | p in c.ledger - a.ledger ensures exists i :: 0 <= i < |all| && all[i].out == p {
      if p in b.ledger {
        assert p in b.ledger - a.ledger;
        var i :| 0 <= i < |first| && first[i].out == p;
        assert all[i].out == p;
      } else {
        assert p in c.ledger - b.ledger;
        var i :| 0 <= i < |then'| && then'[i].out == p;
        assert all[|first| + i].out == p;
      }
    }
  }

  lemma OutputExtends(o: Outside, pending: set<Outpoint>, s: Pass, addr: string, u: Utxo)
    ensures Extends(s, OneOutput(o, pending, s, addr, u))
  {
    var s' := OneOutput(o, pending, s, addr, u);
    if s'.ledger == s.ledger && s'.credited == s.credited {
      ExtendsNone(s, s');
    } else {
      var d := s'.credited[|s.credited|];
      assert s'.credited[|s.credited|..] == [d] && d.out == u.out && s'.ledger - s.ledger == {u.out};
    }
  }

  lemma {:induction false} OutputsExtend(o: Outside, pending: set<Outpoint>, s: Pass, addr: string, us: seq<Utxo>)
    ensures Extends(s, Outputs(o, pending, s, addr, us))
  {
    if us == [] {
      ExtendsNone(s, s);
    } else {
      var t := Outputs(o, pending, s, addr, us[..|us| - 1]);
      OutputsExtend(o, pending, s, addr, us[..|us| - 1]);
      OutputExtends(o, pending, t, addr, us[|us| - 1]);
      ExtendsOn(s, t, Outputs(o, pending, s, addr, us));
    }
  }

  /** The pass as an address's outputs find it. */
  function AtAddress(o: Outside, s: Pass, addr: string): Pass {
    var (at, failed) := o.refreshed(addr);
    s.(first := if at == 0 && !failed then s.first[addr := FirstListed(s, addr, o.now)] else s.first - {addr},
       scanned := s.scanned + {addr})
  }

  lemma AddressIs(o: Outside, pending: set<Outpoint>, s: Pass, addr: string)
    ensures var s' := OneAddress(o, pending, s, addr);
            if !s.over && !Stale(o, addr) && addr in o.scripts
            then s' == Outputs(o, pending, AtAddress(o, s, addr), addr, o.utxos(addr))
            else s'.ledger == s.ledger && s'.credited == s.credited && s'.over == s.over && s'.final == s.final
  {
  }

  lemma AddressExtends(o: Outside, pending: set<Outpoint>, s: Pass, addr: string)
    ensures Extends(s, OneAddress(o, pending, s, addr))
  {
    var s' := OneAddress(o, pending, s, addr);
    AddressIs(o, pending, s, addr);
    if !s.over && !Stale(o, addr) && addr in o.scripts {
      OutputsExtend(o, pending, AtAddress(o, s, addr), addr, o.utxos(addr));
      assert Extends(s, s');
    } else {
      ExtendsNone(s, s');
    }
  }

  lemma {:induction false} AddressesExtend(o: Outside, pending: set<Outpoint>, s: Pass, addrs: seq<string>)
    ensures Extends(s, Addresses(o, pending, s, addrs))
  {
    if addrs == [] {
      ExtendsNone(s, s);
    } else {
      var t := Addresses(o, pending, s, addrs[..|addrs| - 1]);
      AddressesExtend(o, pending, s, addrs[..|addrs| - 1]);
      AddressExtends(o, pending, t, addrs[|addrs| - 1]);
      ExtendsOn(s, t, Addresses(o, pending, s, addrs));
    }
  }

  lemma {:induction false} RecheckCredits(o: Outside, s: Pass, ds: seq<Deposit>)
    ensures Recheck(o, s, ds).ledger == s.ledger && Recheck(o, s, ds).credited == s.credited
  {
    if ds != [] {
      RecheckCredits(o, s, ds[..|ds| - 1]);
    }
  }

  /** However a pass goes, it credits each outpoint the ledger gains once, and
      nothing the ledger had. */
  lemma PassCreditsOnce(o: Outside, final: Final, first: map<string, nat>, ledger: set<Outpoint>)
    ensures var s := Scanned(o, final, first, ledger);
            ledger <= s.ledger && OneEach(s.credited, s.ledger - ledger)
  {
    var s0 := Recheck(o, Begin(final, first, ledger), o.pending);
    RecheckCredits(o, Begin(final, first, ledger), o.pending);
    AddressesExtend(o, PendingSet(o), s0, o.addresses);
    var s := Addresses(o, PendingSet(o), s0, o.addresses);
    assert s.credited[0..] == s.credited;
  }

  /** A pending deposit is due to be final: the node has it at its required depth
      and past the horizon of 288 blocks. */
  predicate Settles(o: Outside, d: Deposit) {
    && o.node(d.out).Present? && o.node(d.out).txout.confirmations >= o.required(d.value)
    && o.node(d.out).txout.confirmations > 288
  }

  /** When every call is answered the recheck adds exactly these. */
  lemma {:induction false} RecheckExactly(o: Outside, s: Pass, ds: seq<Deposit>, p: Outpoint)
    requires Answers(o) && !s.over
    ensures var s' := Recheck(o, s, ds);
            && !s'.over
            && (p in s'.final <==>
                  p in s.final || exists k :: 0 <= k < |ds| && ds[k].out == p && Settles(o, ds[k]))
  {
    if ds != [] {
      var n := |ds| - 1;
      RecheckExactly(o, s, ds[..n], p);
      if k :| 0 <= k < |ds[..n]| && ds[..n][k].out == p && Settles(o, ds[..n][k]) {
        assert ds[k] == ds[..n][k];
      }
      if k :| 0 <= k < |ds| && ds[k].out == p && Settles(o, ds[k]) {
        assert k < n ==> ds[..n][k] == ds[k];
      }
    }
  }

  // ----- What an answered pass credits, exactly -----

  /** An output that is deep enough and that the node agrees on. */
  predicate Due(o: Outside, addr: string, u: Utxo) {
    Ripe(o, u) && Agrees(o, addr, u)
  }

  predicate DueIn(o: Outside, addr: string, us: seq<Utxo>, p: Outpoint) {
    exists k :: 0 <= k < |us| && us[k].out == p && Due(o, addr, us[k])
  }

  /** Some fresh, valid address of these lists the outpoint and it is due. */
  predicate Creditable(o: Outside, addrs: seq<string>, p: Outpoint) {
    exists k :: 0 <= k < |addrs| && !Stale(o, addrs[k]) && addrs[k] in o.scripts &&
        DueIn(o, addrs[k], o.utxos(addrs[k]), p)
  }

  /** A pass under way in which everything was answered. */
  predicate Sound(s: Pass) {
    !s.over && s.final.Keys <= s.ledger
  }

  lemma OutputCredits(o: Outside, pending: set<Outpoint>, s: Pass, addr: string, u: Utxo)
    requires Answers(o) && Sound(s)
    ensures var s' := OneOutput(o, pending, s, addr, u);
            Sound(s') && s'.ledger == s.ledger + (if Due(o, addr, u) then {u.out} else {})
  {
    if u.out in s.ledger {
      KnownKeeps(o, pending, s.(seen := s.seen + {u.out}), addr, u);
    }
  }

  lemma {:induction false} OutputsCredit(o: Outside, pending: set<Outpoint>, s: Pass, addr: string, us: seq<Utxo>)
    requires Answers(o) && Sound(s)
    ensures var s' := Outputs(o, pending, s, addr, us);
            Sound(s') && forall p :: p in s'.ledger <==> p in s.ledger || DueIn(o, addr, us, p)
  {
    if us != [] {
      var n := |us| - 1;
      OutputsCredit(o, pending, s, addr, us[..n]);
      OutputCredits(o, pending, Outputs(o, pending, s, addr, us[..n]), addr, us[n]);
      forall p
        ensures DueIn(o, addr, us, p) <==> DueIn(o, addr, us[..n], p) || (us[n].out == p && Due(o, addr, us[n]))
      {
        if DueIn(o, addr, us[..n], p) {
          var k :| 0 <= k < n && us[..n][k].out == p && Due(o, addr, us[..n][k]);
          assert us[k] == us[..n][k];
        }
        if DueIn(o, addr, us, p) {
          var k :| 0 <= k < |us| && us[k].out == p && Due(o, addr, us[k]);
          assert k < n ==> us[..n][k] == us[k];
        }
      }
    }
  }

  lemma AddressCredits(o: Outside, pending: set<Outpoint>, s: Pass, addr: string)
    requires Answers(o) && Sound(s)
    ensures var s' := OneAddress(o, pending, s, addr);
            && Sound(s')
            && forall p :: p in s'.ledger <==>
                 p in s.ledger || (!Stale(o, addr) && addr in o.scripts && DueIn(o, addr, o.utxos(addr), p))
  {
    AddressIs(o, pending, s, addr);
    if !Stale(o, addr) && addr in o.scripts {
      OutputsCredit(o, pending, AtAddress(o, s, addr), addr, o.utxos(addr));
    }
  }

  lemma {:induction false} AddressesCredit(o: Outside, pending: set<Outpoint>, s: Pass, addrs: seq<string>)
    requires Answers(o) && Sound(s)
    ensures var s' := Addresses(o, pending, s, addrs);
            Sound(s') && forall p :: p in s'.ledger <==> p in s.ledger || Creditable(o, addrs, p)
  {
    if addrs != [] {
      var n := |addrs| - 1;
      AddressesCredit(o, pending, s, addrs[..n]);
      AddressCredits(o, pending, Addresses(o, pending, s, addrs[..n]), addrs[n]);
      forall p ensures Creditable(o, addrs, p) <==>
        Creditable(o, addrs[..n], p) ||
        (!Stale(o, addrs[n]) && addrs[n] in o.scripts && DueIn(o, addrs[n], o.utxos(addrs[n]), p))
      {
        CreditableSplits(o, addrs, n, p);
      }
    }
  }

  lemma CreditableSplits(o: Outside, addrs: seq<string>, n: nat, p: Outpoint)
    requires |addrs| == n + 1
    ensures Creditable(o, addrs, p) <==>
              Creditable(o, addrs[..n], p) ||
              (!Stale(o, addrs[n]) && addrs[n] in o.scripts && DueIn(o, addrs[n], o.utxos(addrs[n]), p))
  {
    if Creditable(o, addrs[..n], p) {
      var k :| 0 <= k < n && !Stale(o, addrs[..n][k]) && addrs[..n][k] in o.scripts &&
          DueIn(o, addrs[..n][k], o.utxos(addrs[..n][k]), p);
      assert addrs[k] == addrs[..n][k];
    }
    if Creditable(o, addrs, p) {
      var k :| 0 <= k < |addrs| && !Stale(o, addrs[k]) && addrs[k] in o.scripts &&
          DueIn(o, addrs[k], o.utxos(addrs[k]), p);
      assert k < n ==> addrs[..n][k] == addrs[k];
    }
  }

  lemma {:induction false} RecheckSound(o: Outside, s: Pass, ds: seq<Deposit>)
    requires Answers(o) && Sound(s) && forall k | 0 <= k < |ds| :: ds[k].out in s.ledger
    ensures Sound(Recheck(o, s, ds)) && Recheck(o, s, ds).ledger == s.ledger
  {
    if ds != [] {
      RecheckSound(o, s, ds[..|ds| - 1]);
    }
  }

  /** What a deposit is: a tracked, valid address whose outputs are known current
      lists the output deep enough, and the node has it with that value and that
      address's script, as deep, and mature when it is a block reward. */
  predicate Deposited(o: Outside, addr: string, u: Utxo) {
    && addr in o.addresses && addr in o.scripts && u in o.utxos(addr)
    && o.refreshed(addr).0 != 0 && o.now - o.refreshed(addr).0 <= o.maxAge
    && u.height > 0 && o.tip - u.height + 1 >= o.required(u.value)
    && o.node(u.out).Present?
    && o.node(u.out).txout.value == u.value && o.node(u.out).txout.script == o.scripts[addr]
    && o.node(u.out).txout.confirmations >= o.required(u.value)
    && (o.node(u.out).txout.coinbase ==> o.node(u.out).txout.confirmations >= o.maturity)
  }

  /** A credit is of a deposit: its outpoint, to its address, of the value that
      indexer and node agree on, at the depth the node gives. */
  ghost predicate IsOf(o: Outside, d: Deposit, u: Utxo) {
    && Deposited(o, d.address, u) && d.out == u.out && d.value == u.value
    && d.confirmations == o.node(u.out).txout.confirmations
    && d.height == o.tip - o.node(u.out).txout.confirmations + 1
  }

  ghost predicate Told(o: Outside, d: Deposit) {
    exists u :: IsOf(o, d, u)
  }

  ghost predicate AllTold(o: Outside, ds: seq<Deposit>) {
    forall k | 0 <= k < |ds| :: Told(o, ds[k])
  }

  lemma OutputTold(o: Outside, pending: set<Outpoint>, s: Pass, addr: string, u: Utxo)
    requires AllTold(o, s.credited) && !Stale(o, addr) && addr in o.addresses && addr in o.scripts && u in o.utxos(addr)
    ensures AllTold(o, OneOutput(o, pending, s, addr, u).credited)
  {
    var s' := OneOutput(o, pending, s, addr, u);
    if s'.credited != s.credited {
      var d := s'.credited[|s.credited|];
      assert s'.credited == s.credited + [d] && IsOf(o, d, u);
    }
  }

  lemma {:induction false} OutputsTold(o: Outside, pending: set<Outpoint>, s: Pass, addr: string, us: seq<Utxo>)
    requires AllTold(o, s.credited) && !Stale(o, addr) && addr in o.addresses && addr in o.scripts
    requires forall k | 0 <= k < |us| :: us[k] in o.utxos(addr)
    ensures AllTold(o, Outputs(o, pending, s, addr, us).credited)
  {
    if us != [] {
      var n := |us| - 1;
      OutputsTold(o, pending, s, addr, us[..n]);
      OutputTold(o, pending, Outputs(o, pending, s, addr, us[..n]), addr, us[n]);
    }
  }

  lemma {:induction false} AddressesTold(o: Outside, pending: set<Outpoint>, s: Pass, addrs: seq<string>)
    requires AllTold(o, s.credited) && forall k | 0 <= k < |addrs| :: addrs[k] in o.addresses
    ensures AllTold(o, Addresses(o, pending, s, addrs).credited)
  {
    if addrs != [] {
      var n := |addrs| - 1;
      var t := Addresses(o, pending, s, addrs[..n]);
      AddressesTold(o, pending, s, addrs[..n]);
      AddressIs(o, pending, t, addrs[n]);
      if !t.over && !Stale(o, addrs[n]) && addrs[n] in o.scripts {
        OutputsTold(o, pending, AtAddress(o, t, addrs[n]), addrs[n], o.utxos(addrs[n]));
      }
    }
  }

  /** However a pass goes, whatever it credits is a deposit, with the value, the
      address, the depth and the height of that deposit. */
  lemma CreditsAreTold(o: Outside, final: Final, first: map<string, nat>, ledger: set<Outpoint>)
    ensures AllTold(o, Scanned(o, final, first, ledger).credited)
  {
    var s0 := Recheck(o, Begin(final, first, ledger), o.pending);
    RecheckCredits(o, Begin(final, first, ledger), o.pending);
    AddressesTold(o, PendingSet(o), s0, o.addresses);
  }

  lemma CreditableIsDeposited(o: Outside, p: Outpoint)
    ensures Creditable(o, o.addresses, p) <==> exists addr, u :: Deposited(o, addr, u) && u.out == p
  {
    if Creditable(o, o.addresses, p) {
      var k :| 0 <= k < |o.addresses| && !Stale(o, o.addresses[k]) && o.addresses[k] in o.scripts &&
          DueIn(o, o.addresses[k], o.utxos(o.addresses[k]), p);
      var us := o.utxos(o.addresses[k]);
      var j :| 0 <= j < |us| && us[j].out == p && Due(o, o.addresses[k], us[j]);
      assert Deposited(o, o.addresses[k], us[j]);
    }
    if addr, u :| Deposited(o, addr, u) && u.out == p {
      var k :| 0 <= k < |o.addresses| && o.addresses[k] == addr;
      var us := o.utxos(addr);
      var j :| 0 <= j < |us| && us[j] == u;
      assert DueIn(o, addr, us, p);
    }
  }

  /** A pass that is answered throughout credits an outpoint exactly when the
      ledger lacked it and it is that of a deposit. */
  lemma CreditsExactly(o: Outside, final: Final, first: map<string, nat>, ledger: set<Outpoint>, p: Outpoint)
    requires Answers(o) && HonestPending(o, ledger) && final.Keys <= ledger
    ensures var s := Scanned(o, final, first, ledger);
            (exists k :: 0 <= k < |s.credited| && s.credited[k].out == p) <==>
                  p !in ledger && exists addr, u :: Deposited(o, addr, u) && u.out == p
  {
    CreditableIsDeposited(o, p);
    var s0 := Recheck(o, Begin(final, first, ledger), o.pending);
    RecheckSound(o, Begin(final, first, ledger), o.pending);
    AddressesCredit(o, PendingSet(o), s0, o.addresses);
    PassCreditsOnce(o, final, first, ledger);
    var s := Scanned(o, final, first, ledger);
    if p !in ledger && Creditable(o, o.addresses, p) {
      assert p in s.ledger - ledger;
    }
  }

  // ----- Runs -----

  /** `past` holds the outpoints that have entered the set, `credits` every
      credit so far, `undone` what the ledger has un-credited. */
  datatype World = World(final: Final, first: map<string, nat>, ledger: set<Outpoint>, past: set<Outpoint>,
                         credits: seq<Deposit>, undone: set<Outpoint>)

  function AfterPass(w: World, o: Outside): World {
    var s := Scanned(o, w.final, w.first, w.ledger);
    World(s.final, s.first, s.ledger, w.past + s.final.Keys, w.credits + s.credited, w.undone)
  }

  /** A pass, however it goes; a restart, which empties the set; or a change of
      the ledger, which never un-credits an outpoint past the horizon. */
  ghost predicate Next(w: World, w': World) {
    || (exists o: Outside :: HonestPending(o, w.ledger) && w' == AfterPass(w, o))
    || w' == w.(final := map[], first := map[])
    || (w' == w.(ledger := w'.ledger, undone := w.undone + (w.ledger - w'.ledger)) && w.past * w.ledger <= w'.ledger)
  }

  ghost predicate StepAt(worlds: seq<World>, k: nat) {
    k + 1 < |worlds| && Next(worlds[k], worlds[k + 1])
  }

  ghost predicate Run(worlds: seq<World>) {
    && worlds != [] && worlds[0].final == map[] && worlds[0].past == {} && worlds[0].credits == []
    && forall k :: 0 <= k < |worlds| - 1 ==> StepAt(worlds, k)
  }

  lemma {:induction false} RunKeeps(worlds: seq<World>, k: nat)
    requires Run(worlds) && k < |worlds|
    ensures worlds[k].final.Keys <= worlds[k].ledger * worlds[k].past
  {
    if k > 0 {
      RunKeeps(worlds, k - 1);
      assert StepAt(worlds, k - 1);
      var w, w' := worlds[k - 1], worlds[k];
      if o: Outside :| HonestPending(o, w.ledger) && w' == AfterPass(w, o) {
        EntriesAreEarned(o, w.final, w.first, w.ledger);
      }
    }
  }

  /** At any point of any run, a pass in which node and ledger answer every call
      credits exactly what it would with the set empty. */
  lemma EveryPassCreditsTheSame(worlds: seq<World>, k: nat, o: Outside)
    requires Run(worlds) && k < |worlds| && Answers(o) && HonestPending(o, worlds[k].ledger)
    ensures var w := worlds[k];
            Scanned(o, w.final, w.first, w.ledger).credited == Scanned(o, map[], w.first, w.ledger).credited
  {
    RunKeeps(worlds, k);
    FinalIsACache(o, worlds[k].final, worlds[k].first, worlds[k].ledger);
  }

  /** Every credit stands in the ledger or was undone, and a second one of an
      outpoint only follows on that. */
  ghost predicate CreditedOnce(w: World) {
    && (forall k :: 0 <= k < |w.credits| ==> w.credits[k].out in w.ledger + w.undone)
    && (forall j, k :: 0 <= j < k < |w.credits| && w.credits[j].out == w.credits[k].out ==>
        w.credits[j].out in w.undone)
  }

  lemma PassKeepsOnce(w: World, o: Outside)
    requires CreditedOnce(w)
    ensures CreditedOnce(AfterPass(w, o))
  {
    var s := Scanned(o, w.final, w.first, w.ledger);
    PassCreditsOnce(o, w.final, w.first, w.ledger);
    var w' := AfterPass(w, o);
    forall k | 0 <= k < |w'.credits| ensures w'.credits[k].out in w'.ledger + w'.undone {
      assert w'.credits[k] == if k < |w.credits| then w.credits[k] else s.credited[k - |w.credits|];
    }
    var n := |w.credits|;
    forall j, k | n <= j < k < |w'.credits| ensures w'.credits[j].out != w'.credits[k].out {
      assert w'.credits[j] == s.credited[j - n] && w'.credits[k] == s.credited[k - n];
    }
    forall j, k | 0 <= j < n <= k < |w'.credits| && w'.credits[j].out == w'.credits[k].out
      ensures w'.credits[j].out in w'.undone
    {
      assert w'.credits[j] == w.credits[j] && w'.credits[k] == s.credited[k - n];
    }
  }

  /** No outpoint is credited twice over any run of passes, restarts and changes
      of the ledger, but for one the ledger itself has un-credited. */
  lemma {:induction false} NeverCreditedTwice(worlds: seq<World>, n: nat)
    requires Run(worlds) && n < |worlds|
    ensures CreditedOnce(worlds[n])
  {
    if n > 0 {
      NeverCreditedTwice(worlds, n - 1);
      assert StepAt(worlds, n - 1);
      var w, w' := worlds[n - 1], worlds[n];
      if o: Outside :| HonestPending(o, w.ledger) && w' == AfterPass(w, o) {
        PassKeepsOnce(w, o);
      }
    }
  }

  /** The pass at `j` of the run made the credit at `c`. */
  ghost predicate MadeAt(worlds: seq<World>, j: nat, c: nat, o: Outside) {
    && j + 1 < |worlds| && worlds[j + 1] == AfterPass(worlds[j], o)
    && |worlds[j].credits| <= c < |worlds[j + 1].credits| && Told(o, worlds[j + 1].credits[c])
  }

  lemma CreditsStay(w: World, w': World)
    requires Next(w, w')
    ensures w.credits <= w'.credits
  {
  }

  /** A new credit was made by a pass that was told of it. */
  lemma NewCreditIsTold(w: World, w': World, c: nat) returns (o: Outside)
    requires Next(w, w') && |w.credits| <= c < |w'.credits|
    ensures w' == AfterPass(w, o) && Told(o, w'.credits[c])
  {
    o :| HonestPending(o, w.ledger) && w' == AfterPass(w, o);
    var s := Scanned(o, w.final, w.first, w.ledger);
    CreditsAreTold(o, w.final, w.first, w.ledger);
    Behind(w.credits, s.credited, c);
  }

  lemma Behind(a: seq<Deposit>, b: seq<Deposit>, c: nat)
    requires |a| <= c < |a + b|
    ensures (a + b)[c] == b[c - |a|]
  {
  }

  /** Over every run every credit was made by some pass, of a deposit that pass
      was told of, for that deposit's value, and it stands as it was made. */
  lemma {:induction false} EveryCreditIsTold(worlds: seq<World>, n: nat, c: nat) returns (j: nat, o: Outside)
    requires Run(worlds) && n < |worlds| && c < |worlds[n].credits|
    ensures j < n && MadeAt(worlds, j, c, o) && worlds[n].credits[c] == worlds[j + 1].credits[c]
  {
    j := n - 1;
    assert StepAt(worlds, j);
    CreditsStay(worlds[j], worlds[n]);
    if c < |worlds[j].credits| {
      j, o := EveryCreditIsTold(worlds, j, c);
    } else {
      o := NewCreditIsTold(worlds[j], worlds[n], c);
    }
  }
}
