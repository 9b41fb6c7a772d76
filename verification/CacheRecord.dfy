/** What the client keeps for one tracked address, and what each event does to
    it. `T` is the cached set, `S` the status the server sends with it. */
module CacheRecord {

  datatype Option<T> = None | Some(value: T)

  /** `at` is the last moment the set was known current, 0 for never; `noted`
      counts the changes noted; `commit` is the ticket of the last refresh that
      reported. */
  datatype Record = Record(at: nat, err: bool, gen: nat, dirty: bool, noted: nat, commit: nat)

  datatype Cache<T, S> = Cache(
    utxos: T,
    status: Option<S>,
    subscribed: nat,     // the connection the subscription was acknowledged on
    changed: bool,       // a refresh is pending
    rec: Record)

  predicate Clean(r: Record) {
    r.at != 0 && !r.dirty
  }

  /** How a call that did not bring a usable reply ended. */
  datatype Failure = ContextEnded | Failed

  function Dirtied(r: Record): Record {
    r.(dirty := true, noted := r.noted + 1)
  }

  /** A notification read on connection `gen`. */
  function NoteChange<T, S(==)>(c: Cache<T, S>, live: nat, gen: nat, status: S): Cache<T, S> {
    if gen != live || c.status == Some(status) then c
    else c.(status := Some(status), changed := true, rec := Dirtied(c.rec))
  }

  /** A reply from a connection that a newer one has replaced. */
  predicate StaleReply(live: nat, gen: nat) {
    live != 0 && gen != live
  }

  function RecordSuccess(r: Record, gen: nat, notedBefore: nat, ticket: nat, now: nat): Record {
    if ticket < r.commit then r
    else
      var r1 := r.(commit := ticket, err := false);
      if r.noted == notedBefore then r1.(at := now, gen := gen, dirty := false) else r1
  }

  function RecordFailure(r: Record, ticket: nat, f: Failure): Record {
    if ticket < r.commit then r
    else r.(commit := ticket, err := if f.Failed? then true else r.err)
  }

  /** A reply from a replaced connection leaves a refresh pending. */
  function RecordStale<T, S>(c: Cache<T, S>, ticket: nat): Cache<T, S> {
    c.(rec := RecordFailure(c.rec, ticket, Failed), changed := true)
  }

  /** A parsed listunspent reply. */
  function CommitRefresh<T, S>(c: Cache<T, S>, live: nat, gen: nat, notedBefore: nat, ticket: nat, set': T,
                               now: nat): Cache<T, S>
  {
    if ticket < c.rec.commit then c
    else if StaleReply(live, gen) then RecordStale(c, ticket)
    else c.(utxos := set', rec := RecordSuccess(c.rec, gen, notedBefore, ticket, now))
  }

  /** A reply that could not be parsed. */
  function RefuseReply<T, S>(c: Cache<T, S>, live: nat, gen: nat, ticket: nat): Cache<T, S> {
    if ticket < c.rec.commit then c
    else if StaleReply(live, gen) then RecordStale(c, ticket)
    else c.(rec := RecordFailure(c.rec, ticket, Failed))
  }

  /** A call that brought no reply. */
  function NoReply<T, S>(c: Cache<T, S>, ticket: nat, f: Failure): Cache<T, S> {
    c.(rec := RecordFailure(c.rec, ticket, f))
  }

  /** An acknowledged subscription. */
  function CommitSubscribe<T, S(==)>(c: Cache<T, S>, live: nat, gen: nat, status: S, now: nat): Cache<T, S> {
    if gen != live then c
    else
      var c1 := c.(subscribed := gen, status := Some(status));
      if c.status == Some(status) && Clean(c.rec) && !c.rec.err then c1.(rec := c.rec.(at := now, gen := gen))
      else c1.(changed := true, rec := Dirtied(c.rec))
  }

  function SubscribeFailed<T, S>(c: Cache<T, S>, f: Failure): Cache<T, S> {
    if f.Failed? then c.(rec := c.rec.(err := true)) else c
  }

  /** A ping answered on connection `gen`. */
  function Touch<T, S>(c: Cache<T, S>, gen: nat, now: nat): Cache<T, S> {
    if c.subscribed == gen && Clean(c.rec) && !c.rec.err && c.rec.gen == gen then c.(rec := c.rec.(at := now)) else c
  }
}
