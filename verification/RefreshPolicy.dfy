/** When the refresher runs a pass, how long it waits after a failure and when
    it rebuilds the connection. Times are in seconds. */
module RefreshPolicy {

  datatype Event = Start | Kick | Reconcile | PingErr | Retry

  datatype Outcome = OK | ConnErr | NoReply | AppErr

  /** The errors a pass met, by kind. */
  datatype ErrorKind = Connection | Timeout | Application

  datatype Decision = Nothing | Pass(full: bool) | Report

  datatype Result = Result(reconnect: bool, setRetry: bool, backoff: nat)

  const MAX_BACKOFF := 60

  datatype State = Schedule(backoff: nat, consecutive: nat, paced: bool, pendingFull: bool)

  function Fresh(): State {
    Schedule(1, 0, false, false)
  }

  function Classify(errs: set<ErrorKind>): Outcome {
    if errs == {} then OK
    else if Connection in errs then ConnErr
    else if Timeout in errs then NoReply
    else AppErr
  }

  /** A pass that asked nothing of the connection and met no error reports
      nothing. */
  predicate Reports(made: bool, errs: set<ErrorKind>) {
    made || errs != {}
  }

  function Decide(s: State, ev: Event): Decision {
    match ev
    case Start => Pass(true)
    case Kick => if s.paced then Nothing else Pass(s.pendingFull)
    case Reconcile => if s.paced then Nothing else Pass(true)
    case PingErr => if s.paced then Nothing else Report
    case Retry => Pass(s.pendingFull)
  }

  function AfterEvent(s: State, ev: Event): State {
    match ev
    case Start => s
    case Kick => if s.paced then s else s.(pendingFull := false)
    case Reconcile => if s.paced then s.(pendingFull := true) else s
    case PingErr => s
    case Retry => s.(paced := false, pendingFull := false)
  }

  function Doubled(b: nat): nat {
    if b * 2 > MAX_BACKOFF then MAX_BACKOFF else b * 2
  }

  function Respond(s: State, out: Outcome): Result {
    if out == OK then Result(false, false, 0)
    else Result(out == ConnErr || (out == NoReply && s.consecutive + 1 >= 2), true, s.backoff)
  }

  function AfterResult(s: State, out: Outcome): State {
    match out
    case OK => s.(consecutive := 0, backoff := 1, paced := false)
    case ConnErr => s.(backoff := Doubled(s.backoff), paced := true, consecutive := 0)
    case NoReply =>
      s.(backoff := Doubled(s.backoff), paced := true, consecutive := if s.consecutive + 1 < 2 then
         s.consecutive + 1 else 0)
    case AppErr => s.(backoff := Doubled(s.backoff), consecutive := 0)
  }

  class Policy {
    var backoff: nat
    var consecutive: nat
    var paced: bool
    var pendingFull: bool

    function Value(): State
      reads this
    {
      Schedule(backoff, consecutive, paced, pendingFull)
    }

    constructor ()
      ensures Value() == Fresh()
    {
      backoff, consecutive, paced, pendingFull := 1, 0, false, false;
    }

    method TakeFull() returns (full: bool)
      modifies this`pendingFull
      ensures full == old(pendingFull) && !pendingFull
    {
      full := pendingFull;
      pendingFull := false;
    }

    method OnEvent(ev: Event) returns (d: Decision)
      modifies this
      ensures d == Decide(old(Value()), ev) && Value() == AfterEvent(old(Value()), ev)
    {
      match ev {
        case Start => return Pass(true);
        case Kick =>
          if paced {
            return Nothing;
          }
          var full := TakeFull();
          return Pass(full);
        case Reconcile =>
          if paced {
            pendingFull := true; // deferred, not dropped
            return Nothing;
          }
          return Pass(true);
        case PingErr =>
          if paced {
            return Nothing;
          }
          return Report;
        case Retry =>
          paced := false;
          var full := TakeFull();
          return Pass(full);
      }
    }

    method OnResult(out: Outcome) returns (r: Result)
      modifies this
      ensures r == Respond(old(Value()), out) && Value() == AfterResult(old(Value()), out)
    {
      if out == OK {
        consecutive, backoff, paced := 0, 1, false;
        return Result(false, false, 0);
      }
      r := Result(false, true, backoff);
      backoff := backoff * 2;
      if backoff > MAX_BACKOFF {
        backoff := MAX_BACKOFF;
      }
      if out == ConnErr {
        paced := true;
      } else if out == NoReply {
        paced := true;
        consecutive := consecutive + 1;
        if consecutive < 2 {
          return r;
        }
      } else {
        consecutive := 0;
        return r;
      }
      consecutive := 0;
      r := r.(reconnect := true);
    }
  }

  // ----- Histories -----

  datatype Maybe = Silent | Said(out: Outcome)

  /** One event and what came of it, Silent when nothing was reported. */
  datatype Turn = Turn(ev: Event, said: Maybe)

  function AfterTurn(s: State, t: Turn): State {
    var s1 := AfterEvent(s, t.ev);
    if t.said.Said? then AfterResult(s1, t.said.out) else s1
  }

  function After(h: seq<Turn>): State {
    if h == [] then Fresh() else AfterTurn(After(h[..|h| - 1]), h[|h| - 1])
  }

  /** The turn at `k` rebuilds the connection. */
  predicate Reconnects(h: seq<Turn>, k: nat)
    requires k < |h|
  {
    h[k].said.Said? && Respond(AfterEvent(After(h[..k]), h[k].ev), h[k].said.out).reconnect
  }

  /** One opening Start, and nothing reported for an event that ran nothing. */
  ghost predicate Legal(h: seq<Turn>) {
    && (forall k | 0 <= k < |h| :: h[k].ev == Start <==> k == 0)
    && (forall k | 0 <= k < |h| && h[k].said.Said? :: Decide(After(h[..k]), h[k].ev) != Nothing)
  }

  lemma LegalPrefix(h: seq<Turn>, n: nat)
    requires Legal(h) && n <= |h|
    ensures Legal(h[..n])
  {
    forall k | 0 <= k < n ensures h[..n][..k] == h[..k] && h[..n][k] == h[k] {
    }
  }

  predicate Fails(out: Outcome) {
    out == ConnErr || out == NoReply
  }

  /** The last report in the history was a lost connection or a timeout, and no
      retry has fired since. */
  function PacedBy(h: seq<Turn>): bool {
    if h == [] then false
    else
      var last := h[|h| - 1];
      if last.said.Said? then Fails(last.said.out)
      else if last.ev == Retry then false
      else PacedBy(h[..|h| - 1])
  }

  /** A tick has arrived since that report. */
  function TickSince(h: seq<Turn>): bool {
    if h == [] then false
    else
      var last := h[|h| - 1];
      if last.said.Said? || last.ev == Retry then false
      else last.ev == Reconcile || TickSince(h[..|h| - 1])
  }

  /** Timeouts reported in a row up to now. */
  function Timeouts(h: seq<Turn>): nat {
    if h == [] then 0
    else
      var last := h[|h| - 1];
      if last.said == Said(NoReply) then Timeouts(h[..|h| - 1]) + 1
      else if last.said.Said? then 0
      else Timeouts(h[..|h| - 1])
  }

  /** Failures reported since the last success. */
  function Failures(h: seq<Turn>): nat {
    if h == [] then 0
    else
      var last := h[|h| - 1];
      if last.said == Said(OK) then 0
      else if last.said.Said? then Failures(h[..|h| - 1]) + 1
      else Failures(h[..|h| - 1])
  }

  function Pow2(j: nat): (r: nat)
    ensures r >= 1
  {
    if j == 0 then 1 else 2 * Pow2(j - 1)
  }

  function Ladder(j: nat): nat {
    if Pow2(j) > MAX_BACKOFF then MAX_BACKOFF else Pow2(j)
  }

  /** The ladder doubles from one second and ends at a minute. */
  lemma {:induction false} LadderIs(j: nat)
    ensures Ladder(j) == if j < 6 then [1, 2, 4, 8, 16, 32][j] else 60
  {
    if j > 6 {
      LadderIs(j - 1);
    } else {
      assert Pow2(1) == 2 && Pow2(2) == 4 && Pow2(3) == 8 && Pow2(4) == 16 && Pow2(5) == 32 && Pow2(6) == 64;
    }
  }

  /** One turn, from a schedule read off as below: `j` failures, `t` timeouts. */
  lemma TurnMoves(j: nat, t: nat, paced: bool, tick: bool, turn: Turn)
    requires turn.ev == Start ==> !paced
    requires turn.said.Said? ==> Decide(Schedule(Ladder(j), t % 2, paced, paced && tick), turn.ev) != Nothing
    ensures var j' := if turn.said == Said(OK) then 0 else if turn.said.Said? then j + 1 else j;
            var t' := if turn.said == Said(NoReply) then t + 1 else if turn.said.Said? then 0 else t;
            var paced' := if turn.said.Said? then Fails(turn.said.out) else paced && turn.ev != Retry;
            var tick' := !turn.said.Said? && turn.ev != Retry && (turn.ev == Reconcile || tick);
            AfterTurn(Schedule(Ladder(j), t % 2, paced, paced && tick), turn) ==
            Schedule(Ladder(j'), t' % 2, paced', paced' && tick')
  {
    assert Pow2(j + 1) == 2 * Pow2(j);
  }

  /** The whole scheduling state, read off the history: paced exactly when the
      last report was a lost connection or a timeout with no retry since, the
      parity of the timeouts in a row, a tick to make up, and the ladder. */
  lemma {:induction false} StateOfHistory(h: seq<Turn>)
    requires Legal(h)
    ensures After(h) == Schedule(Ladder(Failures(h)), Timeouts(h) % 2, PacedBy(h), PacedBy(h) && TickSince(h))
  {
    if h != [] {
      var n := |h| - 1;
      var front := h[..n];
      LegalPrefix(h, n);
      StateOfHistory(front);
      TurnMoves(Failures(front), Timeouts(front), PacedBy(front), TickSince(front), h[n]);
    }
  }

  /** A lost connection always rebuilds it; a timeout does exactly when it is
      the second, fourth, ... of its run; nothing else ever does. */
  lemma ReconnectsExactly(h: seq<Turn>, k: nat)
    requires Legal(h) && k < |h| && h[k].said.Said?
    ensures Reconnects(h, k) <==>
              h[k].said.out == ConnErr || (h[k].said.out == NoReply && Timeouts(h[..k + 1]) % 2 == 0)
  {
    LegalPrefix(h, k);
    StateOfHistory(h[..k]);
    assert h[..k + 1][..k] == h[..k];
  }

  /** A failure is retried after min(2^j, 60) seconds, j the failures reported
      since the last success before it; a success sets no retry. */
  lemma BackoffExactly(h: seq<Turn>, k: nat)
    requires Legal(h) && k < |h| && h[k].said.Said?
    ensures var r := Respond(AfterEvent(After(h[..k]), h[k].ev), h[k].said.out);
            if h[k].said.out == OK then !r.setRetry else r.setRetry && r.backoff == Ladder(Failures(h[..k]))
  {
    LegalPrefix(h, k);
    StateOfHistory(h[..k]);
  }

  /** A wake with no connection backoff pending runs a pass; one that comes
      during a backoff runs nothing. */
  lemma KicksRunUnlessPaced(h: seq<Turn>, k: nat)
    requires Legal(h) && k < |h| && h[k].ev == Kick
    ensures Decide(After(h[..k]), h[k].ev) == if PacedBy(h[..k]) then Nothing else Pass(false)
  {
    LegalPrefix(h, k);
    StateOfHistory(h[..k]);
  }

  /** What runs, exactly: the opening pass is full; a wake runs a pass over what
      is pending, a tick a full one and a failed ping a report, each unless a
      connection backoff is pending; a retry always runs a pass, and it is full
      exactly when a tick came during the backoff. */
  lemma DecidesExactly(h: seq<Turn>, k: nat)
    requires Legal(h) && k < |h|
    ensures var d, paced := Decide(After(h[..k]), h[k].ev), PacedBy(h[..k]);
            && (d == Pass(true) <==>
                  h[k].ev == Start || (h[k].ev == Reconcile && !paced) ||
                  (h[k].ev == Retry && paced && TickSince(h[..k])))
            && (d == Pass(false) <==>
                  (h[k].ev == Kick && !paced) || (h[k].ev == Retry && !(paced && TickSince(h[..k]))))
            && (d == Report <==> h[k].ev == PingErr && !paced)
            && (d == Nothing <==> h[k].ev in {Kick, Reconcile, PingErr} && paced)
  {
    LegalPrefix(h, k);
    StateOfHistory(h[..k]);
  }

  /** What a pass reports, by the errors it met: a lost connection counts before
      a timeout, and either before anything else. */
  lemma ReportsExactly(errs: set<ErrorKind>)
    ensures Classify(errs) == OK <==> errs == {}
    ensures Classify(errs) == ConnErr <==> Connection in errs
    ensures Classify(errs) == NoReply <==> Timeout in errs && Connection !in errs
    ensures Classify(errs) == AppErr <==> errs == {Application}
  {
    if Classify(errs) == AppErr {
      assert forall e | e in errs :: e == Application;
      assert exists e :: e in errs;
    }
  }

  lemma {:induction false} PassBreaksPacing(h: seq<Turn>, i: nat, k: nat)
    requires Legal(h) && i < k < |h| && PacedBy(h[..i + 1])
    requires forall j | i < j < k :: h[j].ev != Retry
    ensures PacedBy(h[..k]) && (forall j | i < j < k :: h[j].said.Silent?)
    ensures (exists j :: i < j < k && h[j].ev == Reconcile) ==> TickSince(h[..k])
    decreases k
  {
    if k > i + 1 {
      PassBreaksPacing(h, i, k - 1);
      LegalPrefix(h, k - 1);
      StateOfHistory(h[..k - 1]);
      assert h[..k][..k - 1] == h[..k - 1] && h[..k][k - 1] == h[k - 1];
      assert h[k - 1].ev != Start && h[k - 1].ev != Retry;
      assert Decide(After(h[..k - 1]), h[k - 1].ev) == Nothing;
    }
  }

  /** Reconcile liveness: a tick that arrives while paced is made up by the next
      pass that runs, which is the retry's, and that pass is full. */
  lemma DeferredTickIsMadeUp(h: seq<Turn>, i: nat, k: nat)
    requires Legal(h) && i < k < |h| && h[i].ev == Reconcile && PacedBy(h[..i])
    requires forall j | i < j < k :: !Decide(After(h[..j]), h[j].ev).Pass?
    requires Decide(After(h[..k]), h[k].ev).Pass?
    ensures Decide(After(h[..k]), h[k].ev) == Pass(true) && h[k].ev == Retry
  {
    LegalPrefix(h, i);
    StateOfHistory(h[..i]);
    assert h[..i + 1][..i] == h[..i];
    assert h[i].said.Silent? && PacedBy(h[..i + 1]) && TickSince(h[..i + 1]);
    forall j | i < j < k ensures h[j].ev != Retry {
      assert !Decide(After(h[..j]), h[j].ev).Pass?;
    }
    PassBreaksPacing(h, i, k);
    TickStays(h, i + 1, k);
    LegalPrefix(h, k);
    StateOfHistory(h[..k]);
  }

  lemma {:induction false} TickStays(h: seq<Turn>, i: nat, k: nat)
    requires i <= k <= |h| && TickSince(h[..i]) && forall j | i <= j < k :: h[j].said.Silent? && h[j].ev != Retry
    ensures TickSince(h[..k])
  {
    if i < k {
      TickStays(h, i, k - 1);
      assert h[..k][..k - 1] == h[..k - 1] && h[..k][k - 1] == h[k - 1];
    }
  }

  /** Pacing: between two rebuilds of the connection the retry timer fires. */
  lemma RetrySeparatesReconnects(h: seq<Turn>, i: nat, k: nat)
    requires Legal(h) && i < k < |h| && Reconnects(h, i) && Reconnects(h, k)
    ensures exists j :: i < j <= k && h[j].ev == Retry
  {
    if forall j | i < j <= k :: h[j].ev != Retry {
      assert h[..i + 1][..i] == h[..i] && PacedBy(h[..i + 1]);
      PassBreaksPacing(h, i, k);
      LegalPrefix(h, k);
      StateOfHistory(h[..k]);
      assert false;
    }
  }
}
