/** The refresher's loop over the client and the policy. The reader, the ping
    loop and the connection run beside it: between any two of its critical
    sections they may note changes, date records and replace the connection. */
module Refresher {
  import opened CacheRecord
  import opened ElectrumClient
  import opened RefreshPolicy

  /** What comes of one call. */
  datatype Answer<T> = Got(gen: nat, value: T) | Unusable(gen: nat) | Lost(kind: ErrorKind)

  /** What the others may do to one address meanwhile: note changes, each with
      a wake, and date the record; they clear nothing and report nothing. */
  predicate Later<T, S>(c: Cache<T, S>, c': Cache<T, S>, kicked: bool) {
    && c'.rec.commit == c.rec.commit
    && (c.changed ==> c'.changed) && (c'.changed && !c.changed ==> kicked)
    && (if c'.rec.noted == c.rec.noted then c'.rec.dirty == c.rec.dirty else c.rec.noted < c'.rec.noted && c'.changed)
  }

  class Loop {
    const client: Client
    const policy: Policy
    /** The retry timer is armed. */
    var armed: bool

    constructor (client: Client, policy: Policy)
      requires client.tickets == 0 && policy.Value() == Fresh()
      requires forall a :: client.Of(a) == Cache([], None, 0, false, Record(0, false, 0, false, 0, 0))
      ensures this.client == client && this.policy == policy && Awake()
    {
      this.client, this.policy, armed := client, policy, false;
    }

    /** No report is from the future, the refresher being the only one that
        takes tickets, and only tracked addresses are pending. */
    ghost predicate Ordered()
      reads this, client
    {
      && (forall a :: client.Of(a).rec.commit <= client.tickets)
      && (forall a :: client.Of(a).changed ==> a in client.addresses)
    }

    /** Every change that was noted is pending, or about to be refreshed. */
    ghost predicate Pending(todo: set<string>)
      reads this, client
    {
      forall a :: client.Of(a).rec.dirty ==> client.Of(a).changed || a in todo
    }

    /** Nothing is ever waiting with no one to wake for it. */
    ghost predicate Awake()
      reads this, client, policy
    {
      && Ordered() && Pending({})
      && (forall a :: client.Of(a).changed ==> client.kicked || armed)
      && (policy.paced ==> armed)
    }

    twostate predicate Meanwhile()
      reads this, client
    {
      && client.tickets == old(client.tickets) && (old(client.kicked) ==> client.kicked)
      && forall a :: Later(old(client.Of(a)), client.Of(a), client.kicked) &&
                     (client.Of(a).changed && !old(client.Of(a)).changed ==> a in client.addresses)
    }

    method Others()
      modifies client
      ensures Meanwhile()
    {
      var n: nat := *;
      while n > 0
        invariant Meanwhile()
      {
        n := n - 1;
        One();
      }
    }

    /** One thing the reader, the ping loop or the connection does. */
    method One()
      modifies client
      ensures Meanwhile()
    {
      var gen: nat, addr: string, st: string := *, *, *;
      if {
        case true => client.NoteChange(gen, addr, st);
        case gen != 0 => client.Touch(gen, 1);
        case true =>
          client.liveGen := gen;
          client.Kick();
      }
    }

    /** These addresses have had a refresh reported with a ticket given out after
        `since`. */
    ghost predicate Refreshed(done: set<string>, since: nat)
      reads this, client
    {
      client.tickets >= since && forall a | a in done :: client.Of(a).rec.commit > since
    }

    /** One listunspent. A change noted before it landed is still pending; with
        no error and no such change the record is clean. */
    method RefreshAddress(addr: string, ghost todo: set<string>, ghost done: set<string>, ghost since: nat)
      returns (errs: set<ErrorKind>)
      requires Ordered() && Pending(todo + {addr}) && addr in client.addresses && Refreshed(done, since)
      modifies client
      ensures Ordered() && Pending(if errs == {} then todo else todo + {addr})
      ensures forall a :: old(client.Of(a)).changed ==> client.Of(a).changed
      ensures forall a :: client.Of(a).changed && !old(client.Of(a)).changed ==> client.kicked
      ensures old(client.kicked) ==> client.kicked
      ensures Refreshed(if errs == {} then done + {addr} else done, since)
    {
      client.tickets := client.tickets + 1;
      var ticket, before := client.tickets, client.Rec(addr).noted;
      assert forall a :: client.Of(a) == old(client.Of(a));
      Others();
      assert Ordered() && Refreshed(done, since) && ticket > since;
      var answer: Answer<seq<Utxo>> := *;
      errs := Handle(addr, ticket, before, answer, todo);
    }

    /** What refreshAddress does with what came back. */
    method Handle(addr: string, ticket: nat, before: nat, answer: Answer<seq<Utxo>>, ghost todo: set<string>)
      returns (errs: set<ErrorKind>)
      requires Ordered() && Pending(todo + {addr}) && addr in client.addresses
      requires ticket == client.tickets && (client.Of(addr).rec.noted == before || client.Of(addr).changed)
      modifies client
      ensures client.tickets == old(client.tickets) && (errs == {} ==> client.Of(addr).rec.commit == ticket)
      ensures forall a :: client.Of(a).rec.commit >= old(client.Of(a).rec.commit)
      ensures Ordered() && Pending(if errs == {} then todo else todo + {addr})
      ensures forall a :: old(client.Of(a)).changed ==> client.Of(a).changed
      ensures forall a :: client.Of(a).changed && !old(client.Of(a)).changed ==> client.kicked
      ensures old(client.kicked) ==> client.kicked
    {
      match answer
      case Lost(kind) =>
        client.RecordRefresh(addr, 0, before, ticket, Some(Failed), 0);
        return {kind};
      case Unusable(gen) =>
        var ok := client.RecordRefreshFailure(addr, gen, before, ticket);
        return {if StaleReply(client.liveGen, gen) then Connection else Application};
      case Got(gen, reply) =>
        var ok, _ := client.CommitRefresh(addr, gen, before, ticket, reply, 1);
        return if ok then {} else {Connection};
    }

    /** One listunspent per address; a lost connection or a timeout ends it.
        What failed or was not reached is returned. */
    method Refresh(addrs: seq<string>) returns (failed: seq<string>, errs: set<ErrorKind>)
      requires Ordered() && Pending(Elements(addrs)) && forall a | a in addrs :: a in client.addresses
      modifies client
      ensures Ordered() && Pending(Elements(failed)) && forall a | a in failed :: a in client.addresses
      ensures errs == {} ==> failed == []
      ensures forall a :: client.Of(a).changed && !old(client.Of(a)).changed ==> client.kicked
      ensures old(client.kicked) ==> client.kicked
      ensures Refreshed(Elements(addrs) - Elements(failed), old(client.tickets))
    {
      failed, errs := [], {};
      ghost var left, done: set<string> := Elements(addrs), {};
      for i := 0 to |addrs|
        invariant Refreshed(done, old(client.tickets))
        invariant left == Elements(addrs[i..]) && Elements(addrs) <= Elements(failed) + left + done
        invariant Ordered() && Pending(Elements(failed) + left) && forall a | a in failed :: a in client.addresses
        invariant errs == {} ==> failed == []
        invariant forall a :: client.Of(a).changed && !old(client.Of(a)).changed ==> client.kicked
        invariant old(client.kicked) ==> client.kicked
      {
        left := Elements(addrs[i + 1..]);
        Grown(addrs, i, failed);
        var e := RefreshAddress(addrs[i], Elements(failed) + left, done, old(client.tickets));
        if e == {} {
          done := done + {addrs[i]};
        } else {
          errs := errs + e;
          if Connection in e || Timeout in e {
            failed := failed + addrs[i..];
            return;
          }
          failed := failed + [addrs[i]];
        }
      }
    }

    /** What is left from an address on, and what has failed with it or with all of them. */
    static lemma Grown(addrs: seq<string>, i: nat, failed: seq<string>)
      requires i < |addrs|
      ensures addrs[i] in addrs && forall a | a in addrs[i..] :: a in addrs
      ensures Elements(failed) + Elements(addrs[i..]) == Elements(failed) + Elements(addrs[i + 1..]) + {addrs[i]}
      ensures Elements(failed + [addrs[i]]) == Elements(failed) + {addrs[i]}
      ensures Elements(failed + addrs[i..]) == Elements(failed) + Elements(addrs[i + 1..]) + {addrs[i]}
    {
      assert addrs[i..] == [addrs[i]] + addrs[i + 1..];
    }

    /** One subscription. */
    method Subscribe(addr: string) returns (errs: set<ErrorKind>)
      requires Ordered() && Pending({}) && addr in client.addresses
      modifies client
      ensures Ordered() && Pending({}) && client.tickets == old(client.tickets)
      ensures old(client.kicked) ==> client.kicked
    {
      Others();
      var answer: Answer<string> := *;
      match answer
      case Got(gen, st) =>
        client.CommitSubscribe(addr, gen, st, 1);
        return {};
      case Unusable(_) =>
        client.FailSubscribe(addr, Failed);
        return {Application};
      case Lost(kind) =>
        client.FailSubscribe(addr, Failed);
        return {kind};
    }

    /** Subscribes what is not subscribed on the live connection. */
    method SubscribeAll() returns (made: bool, errs: set<ErrorKind>, ended: bool)
      requires Ordered() && Pending({})
      modifies client
      ensures Ordered() && Pending({})
      ensures old(client.kicked) ==> client.kicked
      ensures ended ==> errs != {}
      ensures client.tickets == old(client.tickets)
    {
      made, errs := false, {};
      for i := 0 to |client.addresses|
        invariant Ordered() && Pending({}) && client.tickets == old(client.tickets)
        invariant old(client.kicked) ==> client.kicked
      {
        var addr := client.addresses[i];
        var on := if addr in client.subscribed then client.subscribed[addr] else 0;
        if on == 0 || on != client.liveGen {
          made := true;
          var e := Subscribe(addr);
          errs := errs + e;
          if Connection in e || Timeout in e {
            return made, errs, true;
          }
        }
      }
      return made, errs, false;
    }

    /** Takes the pending addresses, or all of them, in one critical section. */
    method Take(full: bool) returns (todo: seq<string>)
      requires Ordered() && Pending({})
      modifies client
      ensures Ordered() && Pending(Elements(todo)) && forall a | a in todo :: a in client.addresses
      ensures forall a :: !client.Of(a).changed
      ensures client.kicked == old(client.kicked) && client.tickets == old(client.tickets)
      ensures Elements(todo) == if full then Elements(client.addresses) else old(client.changed)
      ensures forall a :: client.Of(a).rec == old(client.Of(a)).rec
    {
      if full {
        todo := client.addresses;
      } else {
        todo := Listed(client.changed);
      }
      client.changed := {};
      forall a ensures client.Of(a) == old(client.Of(a)).(changed := false) {
      }
    }

    /** One wake of the refresher. When it meets no error, all that is pending
        afterwards was noted while it ran, and a wake is queued for it; a full
        one has then refreshed every tracked address. */
    method Pass(full: bool) returns (made: bool, errs: set<ErrorKind>)
      requires Ordered() && Pending({})
      modifies client
      ensures Ordered() && Pending({})
      ensures old(client.kicked) ==> client.kicked
      ensures errs == {} ==> forall a :: client.Of(a).changed ==> client.kicked
      ensures full && errs == {} ==> Refreshed(Elements(client.addresses), old(client.tickets))
    {
      if client.liveGen == 0 {
        return false, {Connection};
      }
      var ended;
      made, errs, ended := SubscribeAll();
      if ended {
        return;
      }
      var todo := Take(full);
      if todo != [] {
        made := true;
      }
      if full || todo != [] {
        var failed, e := Refresh(todo);
        errs := errs + e;
        assert full && errs == {} ==> Refreshed(Elements(client.addresses), old(client.tickets)) by {
          assert e == {} ==> Elements(todo) - Elements(failed) == Elements(todo);
        }
        PutBack(failed);
      }
    }

    /** What failed is pending again. */
    method PutBack(failed: seq<string>)
      requires Ordered() && Pending(Elements(failed)) && forall a | a in failed :: a in client.addresses
      modifies client`changed
      ensures Ordered() && Pending({})
      ensures forall a :: client.Of(a).changed <==> old(client.Of(a).changed) || a in failed
      ensures forall a :: client.Of(a).rec == old(client.Of(a)).rec
      ensures forall done, since: nat :: old(Refreshed(done, since)) ==> Refreshed(done, since)
    {
      client.changed := client.changed + Elements(failed);
      forall a ensures client.Of(a) == old(client.Of(a)).(changed := old(client.Of(a).changed) || a in failed) {
      }
    }

    /** One event through the policy, and what it decides carried out. The wake
        or the timer that brought the event is used up. `ping` is the error a
        failed ping brings. */
    method Step(ev: Event, ping: ErrorKind)
      requires Awake()
      requires ev == Kick ==> client.kicked
      requires ev == Retry ==> armed
      modifies this`armed, client, policy
      ensures Awake()
    {
      UseUp(ev);
      var d := policy.OnEvent(ev);
      match d
      case Nothing => return;
      case Report => Conclude(true, {ping});
      case Pass(full) =>
        var made, errs := Pass(full);
        Conclude(made, errs);
    }

    /** The wake or the timer is gone; nothing else changes. */
    method UseUp(ev: Event)
      requires Ordered() && Pending({})
      modifies this`armed, client`kicked
      ensures Ordered() && Pending({}) && forall a :: client.Of(a) == old(client.Of(a))
      ensures client.kicked == (old(client.kicked) && ev != Kick)
      ensures armed == (old(armed) && ev != Retry)
    {
      if ev == Kick {
        client.kicked := false;
      } else if ev == Retry {
        armed := false;
      }
      assert forall a :: client.Of(a) == old(client.Of(a));
    }

    /** Hands the result to the policy and sets the timer by its answer. */
    method Conclude(made: bool, errs: set<ErrorKind>)
      requires Ordered() && Pending({})
      requires errs == {} ==> forall a :: client.Of(a).changed ==> client.kicked
      requires policy.paced ==> armed || errs != {}
      modifies this`armed, client`liveGen, policy
      ensures Awake()
    {
      if !Reports(made, errs) {
        return;
      }
      var r := policy.OnResult(Classify(errs));
      armed := r.setRetry;
      if r.reconnect {
        var gen: nat := *;
        client.liveGen := gen;
        assert forall a :: client.Of(a) == old(client.Of(a));
      }
    }

    /** The loop: the opening pass, then any events for which there is cause,
        with the others running between them. At every turn, and at the end,
        every noted change is pending, a pending change has a wake or a timer
        waiting for it, and a paced policy has its timer. */
    method Run(turns: nat)
      requires Awake()
      modifies this`armed, client, policy
      ensures Awake()
    {
      Step(Start, Application);
      var n := turns;
      while n > 0
        invariant Awake()
      {
        n := n - 1;
        Others();
        var ping: ErrorKind := *;
        if {
          case client.kicked => Step(Kick, ping);
          case armed => Step(Retry, ping);
          case true => Step(Reconcile, ping);
          case true => Step(PingErr, ping);
        }
      }
    }
  }

  // ----- Lists and sets of addresses -----

  function Elements(s: seq<string>): set<string> {
    set a | a in s
  }

  method Listed(s: set<string>) returns (l: seq<string>)
    ensures Elements(l) == s
  {
    l := [];
    var left := s;
    while left != {}
      invariant left <= s && Elements(l) == s - left
      decreases |left|
    {
      var a :| a in left;
      assert Elements(l + [a]) == Elements(l) + {a};
      l := l + [a];
      left := left - {a};
    }
  }
}
