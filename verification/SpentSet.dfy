/** The set of outputs that must not be selected again: reservations held for
    withdrawals that are being built, and records of sends. */
module SpentSet {
  import opened AtomicFile

  datatype Outpoint = Outpoint(txid: string, vout: nat)

  /** A reservation runs out at `expiresAt`; a send never does. */
  datatype Kind = Reserved(expiresAt: nat) | Sent(txid: string)

  datatype Entry = Entry(kind: Kind, spentAt: nat, confirmed: bool, intent: string)

  type Entries = map<Outpoint, Entry>

  const HOUR := 3600

  predicate Expired(e: Entry, now: nat) {
    e.kind.Reserved? && now > e.kind.expiresAt
  }

  /** An unconfirmed send that neither the withdrawal nor the transaction owns. */
  predicate SentByAnother(e: Entry, txid: string, intent: string) {
    e.kind.Sent? && !e.confirmed && e.kind.txid != txid && (intent == "" || e.intent != intent)
  }

  predicate OwnedBy(m: Entries, o: Outpoint, intent: string) {
    o in m && m[o].intent == intent
  }

  predicate SentBy(m: Entries, o: Outpoint, intent: string) {
    OwnedBy(m, o, intent) && m[o].kind.Sent?
  }

  // ----- What each operation does to the entries -----

  predicate CanReserve(m: Entries, inputs: seq<Outpoint>, intent: string, now: nat) {
    forall o | o in inputs && o in m && !Expired(m[o], now) :: intent != "" && m[o].intent == intent
  }

  /** The outpoints a reservation writes: all but the withdrawal's own sends. */
  function ToReserve(m: Entries, inputs: seq<Outpoint>, intent: string): set<Outpoint> {
    set o | o in inputs && !(intent != "" && SentBy(m, o, intent))
  }

  function AfterReserve(m: Entries, inputs: seq<Outpoint>, intent: string, now: nat, ttl: nat): Entries {
    m + map o | o in ToReserve(m, inputs, intent) :: Entry(Reserved(now + ttl), now, false, intent)
  }

  function AfterRelease(m: Entries, intent: string): Entries {
    map o | o in m && !(m[o].kind.Reserved? && m[o].intent == intent) :: m[o]
  }

  function AfterForget(m: Entries, intent: string): Entries {
    map o | o in m && m[o].intent != intent :: m[o]
  }

  predicate CanMark(m: Entries, inputs: seq<Outpoint>, txid: string, intent: string) {
    forall o | o in inputs && o in m :: !SentByAnother(m[o], txid, intent)
  }

  function AfterMark(m: Entries, inputs: seq<Outpoint>, txid: string, intent: string, now: nat): Entries {
    if CanMark(m, inputs, txid, intent)
    then m + map o | o in inputs :: Entry(Sent(txid), now, false, intent)
    else m
  }

  function AfterConfirm(m: Entries, inputs: seq<Outpoint>): Entries {
    map o | o in m :: if o in inputs then m[o].(confirmed := true) else m[o]
  }

  predicate Prunable(e: Entry, now: nat) {
    (e.confirmed && e.spentAt < now - HOUR) || Expired(e, now)
  }

  function AfterPrune(m: Entries, now: nat): Entries {
    map o | o in m && !Prunable(m[o], now) :: m[o]
  }

  /** Loading keeps every reservation, expired or not, and every unconfirmed
      send; confirmed entries older than two hours are dropped. */
  function AfterLoad(m: Entries, now: nat): Entries {
    map o | o in m && !(m[o].confirmed && m[o].spentAt < now - 2 * HOUR) :: m[o]
  }

  // ----- The same, entry by entry -----

  predicate SameAt(m: Entries, m': Entries, p: Outpoint) {
    (p in m <==> p in m') && (p in m ==> m[p] == m'[p])
  }

  /** Somebody else's, and not a reservation that has run out. */
  predicate Claimed(e: Entry, intent: string, now: nat) {
    (intent == "" || e.intent != intent) && !(e.kind.Reserved? && now > e.kind.expiresAt)
  }

  /** An unconfirmed send, by another withdrawal and in another transaction. */
  predicate AnothersSend(e: Entry, txid: string, intent: string) {
    e.kind.Sent? && e.kind.txid != txid && !e.confirmed && !(intent != "" && e.intent == intent)
  }

  /** These inputs are reserved until then, but for the withdrawal's own sends,
      and nothing else has changed. */
  ghost predicate BecomeReserved(m: Entries, m': Entries, inputs: seq<Outpoint>, intent: string, until: nat, now: nat) {
    && (forall p | p in inputs && p in m && intent != "" && m[p].intent == intent && m[p].kind.Sent? ::
          SameAt(m, m', p))
    && (forall p | p in inputs && !(p in m && intent != "" && m[p].intent == intent && m[p].kind.Sent?) ::
          p in m' && m'[p] == Entry(Reserved(until), now, false, intent))
    && (forall p :: p !in inputs ==> SameAt(m, m', p))
  }

  /** These inputs are recorded as sent in this transaction, and nothing else has
      changed. */
  ghost predicate BecomeSent(m: Entries, m': Entries, inputs: seq<Outpoint>, intent: string, txid: string, now: nat) {
    && (forall p | p in inputs :: p in m' && m'[p] == Entry(Sent(txid), now, false, intent))
    && (forall p :: p !in inputs ==> SameAt(m, m', p))
  }

  // ----- Consequences -----

  lemma ReservedIsOwned(m: Entries, inputs: seq<Outpoint>, intent: string, now: nat, ttl: nat)
    ensures forall p :: p in inputs ==> OwnedBy(AfterReserve(m, inputs, intent, now, ttl), p, intent)
  {
  }
}
