/** How one exchange with the node becomes the answer the engine acts on: the
    client sorts it into error kinds, and the engine reads the kinds in order. */
module Broadcaster {

  /** What came back for sendrawtransaction. NotAsked is a request that could not
      be formed, Barred a node URL the client will not send to; Lost covers every
      failure of the HTTP exchange, and a body that is not JSON-RPC. */
  datatype Exchange =
    | NotAsked
    | Barred
    | Lost(contextEnded: bool)
    | Denied
    | NodeError(code: int)
    | Null
    | NotText
    | Txid(txid: string)

  const CLIENT_IN_INITIAL_DOWNLOAD := -10
  const ALREADY_IN_CHAIN := -27
  const IN_WARMUP := -28

  datatype ErrorKind =
    AlreadyInChain | ContextEnded | UnknownOutcome | TxidMismatch | Permanent | Transient | Unauthorized

  datatype Outcome = Success | Error(kinds: set<ErrorKind>, got: string)

  /** The kinds a node's error code answers to. */
  function CodeKinds(code: int): set<ErrorKind> {
    if code == IN_WARMUP || code == CLIENT_IN_INITIAL_DOWNLOAD then {Transient}
    else if code == ALREADY_IN_CHAIN then {AlreadyInChain}
    else {Permanent}
  }

  /** The client's Broadcast; `known` is what the lookup after a lost reply
      found. A lost reply keeps the transport error's own kinds. */
  function ClientBroadcast(computed: string, x: Exchange, known: bool): Outcome {
    if computed == "" then Error({Permanent}, "")
    else
      match x
      case NotAsked => Error({}, "")
      case Barred => Error({Permanent}, "")
      case Lost(ended) =>
        if known then Success
        else Error({UnknownOutcome, Transient} + (if ended then {ContextEnded} else {}), "")
      case Denied => Error({Unauthorized}, "")
      case NodeError(code) => if code == ALREADY_IN_CHAIN then Success else Error(CodeKinds(code), "")
      case Null => Error({TxidMismatch}, "")
      case NotText => Error({}, "")
      case Txid(got) => if got == computed then Success else Error({TxidMismatch}, got)
  }

  /** How the engine reads the answer to a send. Unknown covers a lost reply, an
      ended context and an error outside the kinds; Refused is an answer that
      shows the bytes were not taken (transient, or refused credentials). */
  datatype Reply = Accepted | Unknown | Mismatch(got: string) | Rejected | Refused

  /** Whether peers may hold the bytes after this answer. */
  predicate Leaves(r: Reply) {
    !r.Rejected? && !r.Refused?
  }

  predicate Taken(o: Outcome) {
    o.Success? || AlreadyInChain in o.kinds
  }

  /** Broadcast's reading of an outcome; the first kind that matches decides. */
  function Classify(o: Outcome): Reply {
    if Taken(o) then Accepted
    else if ContextEnded in o.kinds || UnknownOutcome in o.kinds then Unknown
    else if TxidMismatch in o.kinds then Mismatch(o.got)
    else if Permanent in o.kinds then Rejected
    else if Transient in o.kinds || Unauthorized in o.kinds then Refused
    else Unknown
  }

  /** Rebroadcast's own reading: the kinds it takes for an answer that the bytes
      were refused, whatever other kinds the error has. */
  predicate PutsBack(o: Outcome) {
    !Taken(o) && (Permanent in o.kinds || Transient in o.kinds || Unauthorized in o.kinds)
  }

  /** The node cannot hold the bytes because of this exchange. */
  predicate CannotHold(computed: string, x: Exchange) {
    computed == "" || x.NotAsked? || x.Barred? || x.Denied? || (x.NodeError? && x.code != ALREADY_IN_CHAIN)
  }

  /** What every exchange is read as, by the node's codes as its protocol numbers
      them: -28 while it warms up, -10 while it downloads blocks, -27 for a
      transaction that is mined. */
  lemma ReadsExactly(computed: string, x: Exchange, known: bool)
    ensures var r := Classify(ClientBroadcast(computed, x, known));
            && (r.Accepted? <==>
                  computed != "" && (x == Txid(computed) || x == NodeError(-27) || (x.Lost? && known)))
            && (r.Mismatch? <==> computed != "" && (x.Null? || (x.Txid? && x.txid != computed)))
            && (r.Mismatch? ==> r.got == if x.Txid? then x.txid else "")
            && (r.Rejected? <==> computed == "" || x.Barred? || (x.NodeError? && x.code !in {-28, -27, -10}))
            && (r.Refused? <==> computed != "" && (x.Denied? || x == NodeError(-28) || x == NodeError(-10)))
            && (r.Unknown? <==> computed != "" && (x.NotAsked? || x.NotText? || (x.Lost? && !known)))
  {
    match x
    case NodeError(code) => assert CodeKinds(code) == {Transient} || CodeKinds(code) == {AlreadyInChain} ||
        CodeKinds(code) == {Permanent};
    case _ =>
  }

  /** Only an exchange that shows the bytes were not taken lets the engine treat
      them as not out, and every such exchange does except a request that could
      not be formed. No wrapping of a lost reply turns into a verdict. */
  lemma VerdictNeedsAnAnswer(computed: string, x: Exchange, known: bool)
    ensures Leaves(Classify(ClientBroadcast(computed, x, known))) <==>
              !CannotHold(computed, x) || (computed != "" && x.NotAsked?)
  {
    match x
    case NodeError(code) => assert CodeKinds(code) == {Transient} || CodeKinds(code) == {AlreadyInChain} ||
        CodeKinds(code) == {Permanent};
    case _ =>
  }

  /** The two readings part at exactly one exchange. A lost reply that the lookup
      did not resolve is a transport error as well as an unknown outcome: the
      bytes may be out, and yet Rebroadcast takes it for a refusal. Every other
      error that puts the time back shows that the bytes were not taken. */
  lemma ReadingsPartAtLostReply(computed: string, x: Exchange, known: bool)
    ensures var o := ClientBroadcast(computed, x, known);
            (PutsBack(o) && Leaves(Classify(o))) <==> computed != "" && x.Lost? && !known
    ensures var o := ClientBroadcast(computed, x, known);
            PutsBack(o) <==> (CannotHold(computed, x) && (computed == "" || !x.NotAsked?)) || (x.Lost? && !known)
  {
    match x
    case NodeError(code) => assert CodeKinds(code) == {Transient} || CodeKinds(code) == {AlreadyInChain} ||
        CodeKinds(code) == {Permanent};
    case _ =>
  }
}
