/** What every run keeps about inputs: who owns the entries of the spent set,
    in memory and in every content of its file that a power loss may leave. */
module WithdrawalInputs {
  import opened AtomicFile
  import opened SpentSet
  import opened Withdrawal
  import opened WithdrawalRecords

  predicate Disjoint(a: seq<Outpoint>, b: seq<Outpoint>) {
    forall p :: p in a ==> p !in b
  }

  /** No other withdrawal owns the entry, if there is one. */
  predicate Mine(m: Entries, p: Outpoint, id: string) {
    p in m ==> m[p].intent == id
  }

  /** Some content of the intents file has this intent Broadcast. */
  ghost predicate Out(w: World, id: string) {
    MaybeIn(w, id, Broadcast)
  }

  /** Signed bytes that wait in some content of the intents file, or are out as
      read. */
  ghost predicate Claims(w: World, id: string) {
    MaybeIn(w, id, Built) || InState(w, id, Broadcast)
  }

  predicate HasBytes(s: Intents, id: string) {
    id in s && s[id].state in {Built, Broadcast}
  }

  /** No two intents with signed bytes share an input. */
  ghost predicate NoShare(s: Intents) {
    forall i, j :: HasBytes(s, i) && HasBytes(s, j) && i != j ==> Disjoint(s[i].inputs, s[j].inputs)
  }

  ghost predicate NobodyElse(w: World, id: string, inputs: seq<Outpoint>) {
    && (forall p :: p in inputs ==> Mine(w.spent, p, id))
    && (forall c: Entries, p :: c in w.spentCrash && p in inputs ==> Mine(c, p, id))
  }

  /** No other withdrawal has recorded a send. */
  predicate Unsent(m: Entries, p: Outpoint, id: string) {
    p in m && m[p].kind.Sent? ==> m[p].intent == id
  }

  ghost predicate NobodySent(w: World, id: string, inputs: seq<Outpoint>) {
    && (forall p :: p in inputs ==> Unsent(w.spent, p, id))
    && (forall c: Entries, p :: c in w.spentCrash && p in inputs ==> Unsent(c, p, id))
  }

  predicate AllSent(w: World, id: string, inputs: seq<Outpoint>) {
    forall p :: p in inputs && p !in w.confirmed ==> SentBy(w.spent, p, id)
  }

  ghost predicate AllOwned(w: World, id: string, inputs: seq<Outpoint>) {
    && (forall p :: p in inputs && p !in w.confirmed ==> OwnedBy(w.spent, p, id))
    && (forall c: Entries, p :: c in w.spentCrash && p in inputs && p !in w.confirmed ==> OwnedBy(c, p, id))
  }

  // ----- Facts that hold whatever happens -----

  predicate FlagsOk(w: World, m: Entries) {
    forall p :: p in m && m[p].confirmed ==> p in w.confirmed
  }

  ghost predicate SendersKnown(w: World, m: Entries) {
    forall p :: p in m && m[p].kind.Sent? ==> NeverCreated(w, m[p].intent)
  }

  ghost predicate EntriesInv(w: World) {
    && w.spentSeen in w.spentCrash
    && FlagsOk(w, w.spent) && SendersKnown(w, w.spent)
    && (forall c: Entries :: c in w.spentCrash ==> FlagsOk(w, c) && SendersKnown(w, c))
  }

  // ----- Facts that hold until an outpoint is reused or overtaken -----

  /** An intent some content has Broadcast: nobody else has recorded a send of
      its inputs, and when it is Broadcast as read, the sends are on record. */
  ghost predicate OutOk(w: World, id: string) {
    && id in w.store
    && NobodySent(w, id, w.store[id].inputs)
    && (InState(w, id, Broadcast) && Remarked(w, id) ==> AllSent(w, id, w.store[id].inputs))
  }

  /** Recover has dealt with it, if it is to. */
  predicate Remarked(w: World, id: string) {
    w.phase != Restarted || id in w.remarked
  }

  predicate IsSender(c: Call, id: string) {
    match c
    case Reserving(i) => i == id
    case Ready(i, _) => i == id
    case Waiting(i, _) => i == id
    case Answered(i, _, _) => i == id
    case Marked(i, _, _) => i == id
    case _ => false
  }

  ghost predicate SenderOk(w: World, id: string) {
    && id in w.store
    && NobodyElse(w, id, w.store[id].inputs)
    && (forall i :: InState(w, i, Broadcast) && i != id ==> Disjoint(w.store[i].inputs, w.store[id].inputs))
    && (w.call.Marked? ==> AllSent(w, id, w.store[id].inputs))
  }

  /** A waiting intent's own records of a send are not contradicted on disk, and
      a record of one on disk is not lost to a restart. */
  ghost predicate WaitingOk(w: World, id: string) {
    forall c: Entries, p :: c in w.spentCrash && id in w.store && p in w.store[id].inputs && p !in w.confirmed ==>
      && (SentBy(w.spent, p, id) ==> Mine(c, p, id))
      && (SentBy(c, p, id) ==> SentBy(w.spent, p, id) && SentBy(w.spentSeen, p, id))
  }

  ghost predicate OutsOk(w: World) {
    forall i :: Out(w, i) ==> OutOk(w, i)
  }

  ghost predicate OutsApart(w: World) {
    forall i, j :: Out(w, i) && Out(w, j) && i != j && i in w.store && j in w.store ==>
      Disjoint(w.store[i].inputs, w.store[j].inputs)
  }

  ghost predicate SendersOk(w: World) {
    forall i :: IsSender(w.call, i) ==> SenderOk(w, i)
  }

  ghost predicate WaitersOk(w: World) {
    forall i :: InState(w, i, Built) && !Held(w.store[i]) ==> WaitingOk(w, i)
  }

  ghost predicate OutInv(w: World) {
    OutsOk(w) && OutsApart(w) && SendersOk(w) && WaitersOk(w)
  }

  // ----- Facts that hold until a reservation lapses or Recover unsettles -----

  ghost predicate FilesApart(w: World) {
    forall f: Intents :: f in w.storeCrash ==> NoShare(f)
  }

  ghost predicate ClaimsApart(w: World) {
    forall i, j :: Claims(w, i) && Claims(w, j) && i != j && i in w.store && j in w.store ==>
      Disjoint(w.store[i].inputs, w.store[j].inputs)
  }

  ghost predicate BuiltOwned(w: World) {
    forall i :: MaybeIn(w, i, Built) && i in w.store ==> AllOwned(w, i, w.store[i].inputs)
  }

  ghost predicate BuildingOk(w: World) {
    w.call.Building? ==>
      && AllOwned(w, w.call.id, w.call.inputs)
      && forall i :: Claims(w, i) && i != w.call.id && i in w.store ==> Disjoint(w.store[i].inputs, w.call.inputs)
  }

  ghost predicate LiveInv(w: World) {
    FilesApart(w) && ClaimsApart(w) && BuiltOwned(w) && BuildingOk(w)
  }

  predicate AllLive(w: World) {
    Orderly(w) && !w.flags.lapsed && !w.flags.unsettled
  }

  ghost predicate InputInv(w: World) {
    && EntriesInv(w)
    && (Orderly(w) ==> OutInv(w))
    && (AllLive(w) ==> LiveInv(w))
    && (!w.flags.lapsed ==> !LapsedNow(w))
  }

  // ----- How an action changes the spent set -----

  /** Memory and file move to `m` or stay; the records and the phase do not
      change. */
  ghost predicate Writes(w: World, w': World, m: Entries) {
    && w'.store == w.store && w'.storeCrash == w.storeCrash && w'.phase == w.phase
    && (w'.spent == w.spent || w'.spent == m)
    && w'.spentCrash <= w.spentCrash + {m}
    && w'.spentSeen in w'.spentCrash
    && (w'.spentSeen == m || (w'.spentSeen == w.spentSeen && w'.spentCrash == w.spentCrash))
    && w.confirmed <= w'.confirmed
  }

  lemma SameFiles(w: World, w': World, i: string)
    requires w'.storeCrash == w.storeCrash
    ensures Out(w', i) <==> Out(w, i)
    ensures w'.store == w.store ==> (Claims(w', i) <==> Claims(w, i))
    ensures MaybeIn(w', i, Built) <==> MaybeIn(w, i, Built)
  {
  }

  /** `m` leaves intact what intent `id` needs. */
  ghost predicate Respects(w: World, m: Entries, id: string) {
    id in w.store ==>
      forall p :: p in w.store[id].inputs ==>
        Unsent(m, p, id) && (InState(w, id, Broadcast) && SentBy(w.spent, p, id) ==>
                             SentBy(m, p, id) || p in w.confirmed)
  }

  lemma WritesEntries(w: World, w': World, m: Entries)
    requires EntriesInv(w) && Writes(w, w', m)
    requires FlagsOk(w', m) && SendersKnown(w, m)
    ensures EntriesInv(w')
  {
    forall c: Entries | c in w'.spentCrash ensures FlagsOk(w', c) && SendersKnown(w', c) {
      assert c in w.spentCrash || c == m;
    }
  }

  lemma WritesOutOk(w: World, w': World, m: Entries, id: string)
    requires OutOk(w, id) && Writes(w, w', m) && Respects(w, m, id)
    requires InState(w, id, Broadcast) && Remarked(w', id) && !Remarked(w, id) ==> AllSent(w', id, w.store[id].inputs)
    ensures OutOk(w', id)
  {
    forall c: Entries, p | c in w'.spentCrash && p in w'.store[id].inputs ensures Unsent(c, p, id) {
      assert c in w.spentCrash || c == m;
    }
  }

  lemma WritesOut(w: World, w': World, m: Entries)
    requires OutInv(w) && Writes(w, w', m)
    requires forall i :: Out(w, i) ==> Respects(w, m, i)
    requires forall i :: InState(w, i, Broadcast) && Remarked(w', i) && !Remarked(w, i) ==>
               AllSent(w', i, w.store[i].inputs)
    requires SendersOk(w') && WaitersOk(w')
    ensures OutInv(w')
  {
    forall i | Out(w', i) ensures OutOk(w', i) {
      SameFiles(w, w', i);
      WritesOutOk(w, w', m, i);
    }
    forall i, j | Out(w', i) && Out(w', j) && i != j && i in w'.store && j in w'.store
      ensures Disjoint(w'.store[i].inputs, w'.store[j].inputs)
    {
      SameFiles(w, w', i);
      SameFiles(w, w', j);
    }
  }

  lemma WritesSender(w: World, w': World, m: Entries, id: string)
    requires SenderOk(w, id) && Writes(w, w', m) && (w'.call.Marked? ==> w.call.Marked?)
    requires forall p :: p in w.store[id].inputs ==>
      Mine(m, p, id) && (SentBy(w.spent, p, id) ==> SentBy(m, p, id) || p in w'.confirmed)
    ensures SenderOk(w', id)
  {
    forall c: Entries, p | c in w'.spentCrash && p in w'.store[id].inputs ensures Mine(c, p, id) {
      assert c in w.spentCrash || c == m;
    }
    forall i | InState(w', i, Broadcast) && i != id ensures Disjoint(w'.store[i].inputs, w'.store[id].inputs) {
      assert InState(w, i, Broadcast);
    }
  }

  lemma WritesWaitingOk(w: World, w': World, m: Entries, id: string)
    requires WaitingOk(w, id) && Writes(w, w', m)
    requires id in w.store ==> forall p :: p in w.store[id].inputs && p !in w'.confirmed ==>
      (SentBy(m, p, id) <==> SentBy(w.spent, p, id))
    ensures WaitingOk(w', id)
  {
    forall c: Entries, p | c in w'.spentCrash && id in w'.store && p in w'.store[id].inputs && p !in w'.confirmed
      ensures SentBy(w'.spent, p, id) ==> Mine(c, p, id)
      ensures SentBy(c, p, id) ==> SentBy(w'.spent, p, id) && SentBy(w'.spentSeen, p, id)
    {
      assert c in w.spentCrash || c == m;
    }
  }

  lemma OwnedAfter(w: World, w': World, m: Entries, id: string, inputs: seq<Outpoint>)
    requires AllOwned(w, id, inputs) && Writes(w, w', m)
    requires forall p :: p in inputs && p !in w'.confirmed ==> OwnedBy(m, p, id)
    ensures AllOwned(w', id, inputs)
  {
    forall c: Entries, p | c in w'.spentCrash && p in inputs && p !in w'.confirmed ensures OwnedBy(c, p, id) {
      assert c in w.spentCrash || c == m;
    }
  }

  /** Where `m` may be written over memory as far as an intent that some content
      has Built is concerned. */
  predicate KeepsOwned(w': World, m: Entries, id: string, inputs: seq<Outpoint>) {
    forall p :: p in inputs && p !in w'.confirmed ==> OwnedBy(m, p, id)
  }

  lemma WritesClaimsApart(w: World, w': World)
    requires ClaimsApart(w) && w'.store == w.store && w'.storeCrash == w.storeCrash
    ensures ClaimsApart(w')
  {
    forall i, j | Claims(w', i) && Claims(w', j) && i != j && i in w'.store && j in w'.store
      ensures Disjoint(w'.store[i].inputs, w'.store[j].inputs)
    {
      SameFiles(w, w', i);
      SameFiles(w, w', j);
    }
  }

  lemma WritesLive(w: World, w': World, m: Entries)
    requires LiveInv(w) && Writes(w, w', m)
    requires forall i :: MaybeIn(w, i, Built) && i in w.store ==> KeepsOwned(w', m, i, w.store[i].inputs)
    requires BuildingOk(w')
    ensures LiveInv(w')
  {
    WritesClaimsApart(w, w');
    forall i | MaybeIn(w', i, Built) && i in w'.store ensures AllOwned(w', i, w'.store[i].inputs) {
      SameFiles(w, w', i);
      OwnedAfter(w, w', m, i, w.store[i].inputs);
    }
  }

  // ----- Entries only dropped or flagged -----

  /** `m` is memory with entries dropped that are confirmed, have run out or
      belong to `who`. */
  predicate Shrinks(w: World, m: Entries, who: string) {
    && (forall p :: p in m ==> p in w.spent && m[p].kind == w.spent[p].kind && m[p].intent == w.spent[p].intent)
    && (forall p :: p in w.spent && p !in m ==>
          p in w.confirmed || Expired(w.spent[p], w.clock) || w.spent[p].intent == who)
  }

  /** An intent with nothing signed as read. */
  predicate Finished(w: World, who: string) {
    && !InState(w, who, Built) && !InState(w, who, Broadcast)
    && !IsSender(w.call, who) && !(w.call.Building? && w.call.id == who)
  }

  /** ... and with nothing signed that waits in any content, or with no entry
      among those `m` leaves out that it would need. */
  ghost predicate Over(w: World, m: Entries, who: string) {
    Finished(w, who) &&
    (MaybeIn(w, who, Built) && who in w.store ==>
       forall p :: p in w.store[who].inputs && p !in w.confirmed && OwnedBy(w.spent, p, who) ==> p in m)
  }

  lemma ShrinkOut(w: World, w': World, m: Entries, who: string)
    requires OutInv(w) && Writes(w, w', m) && w'.remarked == w.remarked && Shrinks(w, m, who) && Finished(w, who)
    requires forall i :: IsSender(w'.call, i) ==> w'.call == w.call
    ensures OutInv(w')
  {
    forall i | Out(w, i) ensures Respects(w, m, i) {
      assert OutOk(w, i);
    }
    forall i | IsSender(w'.call, i) ensures SenderOk(w', i) {
      assert SenderOk(w, i);
      WritesSender(w, w', m, i);
    }
    forall i | InState(w', i, Built) && !Held(w'.store[i]) ensures WaitingOk(w', i) {
      assert InState(w, i, Built) && WaitingOk(w, i);
      WritesWaitingOk(w, w', m, i);
    }
    WritesOut(w, w', m);
  }

  /** What a Built intent owns does not run out, and is not what is dropped. */
  lemma ShrinkOwned(w: World, w': World, m: Entries, who: string, i: string, inputs: seq<Outpoint>)
    requires AllOwned(w, i, inputs) && !LapsedNow(w) && Shrinks(w, m, who) && w.confirmed <= w'.confirmed
    requires MaybeIn(w, i, Built) || (w.call.Building? && w.call.id == i)
    requires i == who ==> forall p :: p in inputs && p !in w.confirmed && OwnedBy(w.spent, p, who) ==> p in m
    ensures KeepsOwned(w', m, i, inputs)
  {
  }

  lemma ShrinkLive(w: World, w': World, m: Entries, who: string)
    requires LiveInv(w) && !LapsedNow(w) && Writes(w, w', m) && Shrinks(w, m, who) && Over(w, m, who)
    requires w'.call.Building? ==> w'.call == w.call
    ensures LiveInv(w')
  {
    forall i | MaybeIn(w, i, Built) && i in w.store ensures KeepsOwned(w', m, i, w.store[i].inputs) {
      ShrinkOwned(w, w', m, who, i, w.store[i].inputs);
    }
    if w'.call.Building? {
      ShrinkOwned(w, w', m, who, w.call.id, w.call.inputs);
      OwnedAfter(w, w', m, w.call.id, w.call.inputs);
      forall i | Claims(w', i) && i != w'.call.id && i in w'.store
        ensures Disjoint(w'.store[i].inputs, w'.call.inputs)
      {
        SameFiles(w, w', i);
      }
    }
    WritesLive(w, w', m);
  }

  // ----- Reservations -----

  predicate Fresh(w: World, inputs: seq<Outpoint>) {
    forall p :: p in inputs ==> p !in w.confirmed
  }

  /** A reservation never takes an input that a send is on record for. */
  lemma SentIsNotTaken(w: World, id: string, inputs: seq<Outpoint>, i: string)
    requires AllSent(w, i, inputs) && i != id
    ensures forall taken: seq<Outpoint> ::
              Fresh(w, taken) && CanReserve(w.spent, taken, id, w.clock) ==> Disjoint(inputs, taken)
  {
  }

  lemma NotTaken(w: World, id: string, inputs: seq<Outpoint>, i: string)
    requires OutsOk(w) && w.store in w.storeCrash && w.phase == Running && Fresh(w, inputs)
    requires CanReserve(w.spent, inputs, id, w.clock)
    requires InState(w, i, Broadcast) && i != id
    ensures Disjoint(w.store[i].inputs, inputs)
  {
    assert Out(w, i) && OutOk(w, i);
    SentIsNotTaken(w, id, w.store[i].inputs, i);
  }

  lemma ReserveRespects(w: World, id: string, inputs: seq<Outpoint>, ttl: nat, i: string)
    requires OutOk(w, i) && CanReserve(w.spent, inputs, id, w.clock)
    requires InState(w, i, Broadcast) && i != id ==> Disjoint(w.store[i].inputs, inputs)
    requires !InState(w, id, Broadcast)
    ensures Respects(w, AfterReserve(w.spent, inputs, id, w.clock, ttl), i)
  {
  }

  lemma ReserveWaiting(w: World, w': World, id: string, inputs: seq<Outpoint>, ttl: nat, i: string)
    requires WaitingOk(w, i) && CanReserve(w.spent, inputs, id, w.clock) && id != ""
    requires Writes(w, w', AfterReserve(w.spent, inputs, id, w.clock, ttl))
    ensures WaitingOk(w', i)
  {
    WritesWaitingOk(w, w', AfterReserve(w.spent, inputs, id, w.clock, ttl), i);
  }

  lemma ReserveOut(w: World, w': World, id: string, inputs: seq<Outpoint>, ttl: nat)
    requires OutInv(w) && w.store in w.storeCrash && w.phase == Running && Fresh(w, inputs) && id != ""
    requires !InState(w, id, Broadcast) && CanReserve(w.spent, inputs, id, w.clock)
    requires Writes(w, w', AfterReserve(w.spent, inputs, id, w.clock, ttl)) && w'.remarked == w.remarked
    requires SendersOk(w')
    ensures OutInv(w')
  {
    var m := AfterReserve(w.spent, inputs, id, w.clock, ttl);
    forall i | Out(w, i) ensures Respects(w, m, i) {
      assert OutOk(w, i);
      if InState(w, i, Broadcast) && i != id {
        NotTaken(w, id, inputs, i);
      }
      ReserveRespects(w, id, inputs, ttl, i);
    }
    forall i | InState(w', i, Built) && !Held(w'.store[i]) ensures WaitingOk(w', i) {
      assert InState(w, i, Built) && WaitingOk(w, i);
      ReserveWaiting(w, w', id, inputs, ttl, i);
    }
    WritesOut(w, w', m);
  }

  /** After a reservation that succeeded nobody else has a claim, in memory or
      on disk. */
  lemma ReserveSender(w: World, w': World, id: string, ttl: nat, o: WriteOutcome)
    requires OutInv(w) && w.store in w.storeCrash && w.phase == Running && InState(w, id, Built) &&
             !Held(w.store[id]) && id != ""
    requires Fresh(w, w.store[id].inputs) && CanReserve(w.spent, w.store[id].inputs, id, w.clock)
    requires ReserveSucceeds(w, id, w.store[id].inputs, o)
    requires w' == ReserveIfNeeded(w, id, w.store[id].inputs, ttl, o).(call := Reserving(id))
    ensures SenderOk(w', id)
  {
    var inputs := w.store[id].inputs;
    forall p | p in inputs ensures Mine(w'.spent, p, id) {
      if NothingToReserve(w, id, inputs) {
        assert p !in ToReserve(w.spent, inputs, id);
      }
    }
    forall c: Entries, p | c in w'.spentCrash && p in inputs ensures Mine(c, p, id) {
      if NothingToReserve(w, id, inputs) {
        assert p !in ToReserve(w.spent, inputs, id);
        assert WaitingOk(w, id);
      }
    }
    forall i | InState(w', i, Broadcast) && i != id ensures Disjoint(w'.store[i].inputs, w'.store[id].inputs) {
      assert InState(w, i, Broadcast);
      NotTaken(w, id, inputs, i);
    }
  }

  /** While nothing has lapsed a reservation never takes an input of any intent
      with signed bytes. */
  lemma NotTakenLive(w: World, id: string, inputs: seq<Outpoint>, i: string)
    requires LiveInv(w) && OutsOk(w) && w.store in w.storeCrash && !LapsedNow(w) && w.phase == Running &&
             Fresh(w, inputs)
    requires CanReserve(w.spent, inputs, id, w.clock)
    requires Claims(w, i) && i != id && i in w.store
    ensures Disjoint(w.store[i].inputs, inputs)
  {
    if InState(w, i, Broadcast) {
      NotTaken(w, id, inputs, i);
    } else {
      assert AllOwned(w, i, w.store[i].inputs);
      forall p | p in w.store[i].inputs ensures p !in inputs {
        assert p in w.confirmed || OwnedBy(w.spent, p, i);
        assert OwnedBy(w.spent, p, i) ==> !Expired(w.spent[p], w.clock);
      }
    }
  }

  lemma ReserveLive(w: World, w': World, id: string, inputs: seq<Outpoint>, ttl: nat)
    requires LiveInv(w) && OutsOk(w) && w.store in w.storeCrash && !LapsedNow(w) && w.phase == Running
    requires Fresh(w, inputs) && id != "" && id in w.store
    requires CanReserve(w.spent, inputs, id, w.clock)
    requires Claims(w, id) ==> inputs == w.store[id].inputs
    requires Writes(w, w', AfterReserve(w.spent, inputs, id, w.clock, ttl)) && w'.confirmed == w.confirmed
    requires w'.call.Building? ==> w'.call == Building(id, inputs) && AllOwned(w', id, inputs)
    ensures LiveInv(w')
  {
    var m := AfterReserve(w.spent, inputs, id, w.clock, ttl);
    forall i | MaybeIn(w, i, Built) && i in w.store ensures KeepsOwned(w', m, i, w.store[i].inputs) {
      assert Claims(w, i) && AllOwned(w, i, w.store[i].inputs);
      if i != id {
        NotTakenLive(w, id, inputs, i);
      }
    }
    if w'.call.Building? {
      forall i | Claims(w', i) && i != id && i in w'.store ensures Disjoint(w'.store[i].inputs, inputs) {
        SameFiles(w, w', i);
        NotTakenLive(w, id, inputs, i);
      }
    }
    WritesLive(w, w', m);
  }

  /** A build whose reservation succeeded owns all its inputs: a Created intent
      has no sends of its own, so every input was written. */
  lemma BuildOwns(w: World, w': World, id: string, inputs: seq<Outpoint>, ttl: nat, o: WriteOutcome)
    requires FileInv(w) && EntriesInv(w) && InState(w, id, Created) && id != ""
    requires ReserveSucceeds(w, id, inputs, o)
    requires w' == ReserveIfNeeded(w, id, inputs, ttl, o).(call := Building(id, inputs))
    ensures AllOwned(w', id, inputs)
  {
    forall p | p in inputs ensures !SentBy(w.spent, p, id) {
      assert w.store in w.storeCrash;
      assert SentBy(w.spent, p, id) ==> NeverCreated(w, id);
    }
    assert forall p :: p in inputs ==> p in ToReserve(w.spent, inputs, id);
  }

  // ----- Records of sends -----

  /** An intent nobody else has recorded a send for may be marked, and then is. */
  lemma MarkSucceeds(w: World, id: string, inputs: seq<Outpoint>, txid: string, o: WriteOutcome)
    requires id != "" && forall p :: p in inputs ==> Unsent(w.spent, p, id)
    ensures CanMark(w.spent, inputs, txid, id)
    ensures forall p :: p in inputs ==> SentBy(MarkedSpent(w, id, inputs, txid, o).spent, p, id)
  {
  }

  predicate Marking(w: World, w': World, id: string, txid: string, o: WriteOutcome)
    requires id in w.store
  {
    && w' == MarkedSpent(w, id, w.store[id].inputs, txid, o).(call := w'.call, remarked := w'.remarked)
    && w'.remarked <= w.remarked + {id} && w.remarked <= w'.remarked
  }

  lemma MarkWrites(w: World, w': World, id: string, txid: string, o: WriteOutcome)
    requires id in w.store && w.spentSeen in w.spentCrash && CanMark(w.spent, w.store[id].inputs, txid, id)
    requires Marking(w, w', id, txid, o)
    ensures Writes(w, w', AfterMark(w.spent, w.store[id].inputs, txid, id, w.clock))
  {
  }

  lemma MarkRespects(w: World, id: string, txid: string, i: string)
    requires OutOk(w, i) && id in w.store && CanMark(w.spent, w.store[id].inputs, txid, id)
    requires i != id ==> Disjoint(w.store[i].inputs, w.store[id].inputs)
    ensures Respects(w, AfterMark(w.spent, w.store[id].inputs, txid, id, w.clock), i)
  {
  }

  lemma MarkSender(w: World, w': World, id: string, txid: string, o: WriteOutcome)
    requires SenderOk(w, id) && id != "" && w.spentSeen in w.spentCrash && Marking(w, w', id, txid, o)
    ensures SenderOk(w', id)
  {
    var inputs := w.store[id].inputs;
    MarkSucceeds(w, id, inputs, txid, o);
    MarkWrites(w, w', id, txid, o);
    forall c: Entries, p | c in w'.spentCrash && p in inputs ensures Mine(c, p, id) {
      assert c in w.spentCrash || c == AfterMark(w.spent, inputs, txid, id, w.clock);
    }
    forall i | InState(w', i, Broadcast) && i != id ensures Disjoint(w'.store[i].inputs, w'.store[id].inputs) {
      assert InState(w, i, Broadcast);
    }
  }

  /** The sender's own record is written everywhere it is read from. */
  lemma MarkWaitingOwn(w: World, w': World, id: string, txid: string, o: WriteOutcome)
    requires WaitingOk(w, id) && SenderOk(w, id) && id != "" && w.spentSeen in w.spentCrash &&
             Marking(w, w', id, txid, o)
    ensures WaitingOk(w', id)
  {
    MarkSucceeds(w, id, w.store[id].inputs, txid, o);
    MarkWrites(w, w', id, txid, o);
    var m := AfterMark(w.spent, w.store[id].inputs, txid, id, w.clock);
    forall c: Entries, p | c in w'.spentCrash && p in w'.store[id].inputs && p !in w'.confirmed
      ensures Mine(c, p, id)
      ensures SentBy(c, p, id) ==> SentBy(w'.spent, p, id) && SentBy(w'.spentSeen, p, id)
    {
      assert c in w.spentCrash || c == m;
      assert SentBy(m, p, id);
    }
  }

  lemma MarkWaiting(w: World, w': World, id: string, txid: string, o: WriteOutcome, i: string)
    requires WaitingOk(w, i) && i != id && id in w.store && w.spentSeen in w.spentCrash && Marking(w, w', id, txid, o)
    requires CanMark(w.spent, w.store[id].inputs, txid, id) && forall p :: p in w.store[id].inputs ==>
               Unsent(w.spent, p, id)
    ensures WaitingOk(w', i)
  {
    MarkWrites(w, w', id, txid, o);
    WritesWaitingOk(w, w', AfterMark(w.spent, w.store[id].inputs, txid, id, w.clock), i);
  }

  lemma MarkOut(w: World, w': World, id: string, txid: string, o: WriteOutcome)
    requires OutInv(w) && id != "" && id in w.store && w.spentSeen in w.spentCrash && Marking(w, w', id, txid, o)
    requires forall p :: p in w.store[id].inputs ==> Unsent(w.spent, p, id)
    requires forall i :: Out(w, i) && i != id && i in w.store ==> Disjoint(w.store[i].inputs, w.store[id].inputs)
    requires InState(w, id, Built) && !Held(w.store[id]) ==> SenderOk(w, id)
    requires forall i :: IsSender(w'.call, i) ==> i == id && SenderOk(w, id)
    ensures OutInv(w')
  {
    var m := AfterMark(w.spent, w.store[id].inputs, txid, id, w.clock);
    MarkSucceeds(w, id, w.store[id].inputs, txid, o);
    MarkWrites(w, w', id, txid, o);
    forall i | Out(w, i) ensures Respects(w, m, i) {
      assert OutOk(w, i);
      MarkRespects(w, id, txid, i);
    }
    forall i | IsSender(w'.call, i) ensures SenderOk(w', i) {
      MarkSender(w, w', id, txid, o);
    }
    forall i | InState(w', i, Built) && !Held(w'.store[i]) ensures WaitingOk(w', i) {
      assert InState(w, i, Built) && WaitingOk(w, i);
      if i == id {
        MarkWaitingOwn(w, w', id, txid, o);
      } else {
        MarkWaiting(w, w', id, txid, o, i);
      }
    }
    WritesOut(w, w', m);
  }

  lemma MarkLive(w: World, w': World, id: string, txid: string, o: WriteOutcome)
    requires LiveInv(w) && id in w.store && Claims(w, id) && w.spentSeen in w.spentCrash
    requires CanMark(w.spent, w.store[id].inputs, txid, id) && Marking(w, w', id, txid, o)
    requires !w'.call.Building?
    ensures LiveInv(w')
  {
    var m := AfterMark(w.spent, w.store[id].inputs, txid, id, w.clock);
    MarkWrites(w, w', id, txid, o);
    forall i | MaybeIn(w, i, Built) && i in w.store ensures KeepsOwned(w', m, i, w.store[i].inputs) {
      assert Claims(w, i) && AllOwned(w, i, w.store[i].inputs);
    }
    WritesLive(w, w', m);
  }

  /** What a mark that disturbs nothing finds on one input. */
  lemma Undisturbed(w: World, id: string, o: WriteOutcome, p: Outpoint)
    requires id in w.store && !Disturbs(w, MarkHeld(id, o)) && HoldMarks(w, id) && p in w.store[id].inputs
    ensures p !in w.confirmed && !SentOver(w, id, p) && !OverButOut(w, id, p)
  {
    assert p in Current(w, id).inputs;
    assert !Reuses(w, MarkHeld(id, o)) && !Overtakes(w, MarkHeld(id, o));
  }

  /** Marking a held intent replaces nobody's record of a send unless the
      action counts as a reuse or takes an input over. */
  lemma HeldMarks(w: World, id: string, o: WriteOutcome)
    requires FileInv(w) && OutsOk(w) && EntriesInv(w) && w.phase == Running && id in w.store
    requires !Disturbs(w, MarkHeld(id, o)) && HoldMarks(w, id)
    ensures forall p :: p in w.store[id].inputs ==> Unsent(w.spent, p, id)
    ensures forall i :: Out(w, i) && i != id && i in w.store ==> Disjoint(w.store[i].inputs, w.store[id].inputs)
  {
    forall p | p in w.store[id].inputs ensures Unsent(w.spent, p, id) {
      Undisturbed(w, id, o, p);
    }
    forall i | Out(w, i) && i != id && i in w.store ensures Disjoint(w.store[i].inputs, w.store[id].inputs) {
      forall p | p in w.store[i].inputs ensures p !in w.store[id].inputs {
        if p in w.store[id].inputs {
          Undisturbed(w, id, o, p);
          OutKeepsAway(w, id, i, p);
        }
      }
    }
  }

  lemma OutKeepsAway(w: World, id: string, i: string, p: Outpoint)
    requires FileInv(w) && OutOk(w, i) && EntriesInv(w) && w.phase == Running && Out(w, i) && i != id &&
             p in w.store[i].inputs
    ensures p in w.confirmed || SentOver(w, id, p) || OverButOut(w, id, p)
  {
    if InState(w, i, Broadcast) {
      assert p in w.confirmed || SentBy(w.spent, p, i);
    } else if !InState(w, i, Failed) {
      OutIsConfirmed(w, i);
    }
  }

  /** An intent that is Broadcast on disk and not as read has been confirmed, or
      is over. */
  lemma OutIsConfirmed(w: World, i: string)
    requires FileInv(w) && Out(w, i) && !InState(w, i, Broadcast) && !InState(w, i, Failed)
    ensures i in w.store && AllConfirmed(w, w.store[i].inputs)
  {
    assert w.store in w.storeCrash;
    assert w.store[i].state == Confirmed;
  }

  // ----- Saved records -----

  /** The intents file moves to `r` under `id`, or stays; the spent set does not. */
  ghost predicate Saves(w: World, w': World, id: string, r: Intent) {
    && ((w'.store == w.store && w'.storeCrash == w.storeCrash) ||
        (w'.store == w.store[id := r] && w'.storeCrash <= w.storeCrash + {w.store[id := r]}))
    && w'.spent == w.spent && w'.spentSeen == w.spentSeen && w'.spentCrash == w.spentCrash &&
         w'.confirmed == w.confirmed
    && w'.phase == w.phase && w'.remarked == w.remarked
  }

  lemma SavesMaybeIn(w: World, w': World, id: string, r: Intent, i: string, st: State)
    requires Saves(w, w', id, r) && w.store in w.storeCrash && MaybeIn(w', i, st)
    ensures MaybeIn(w, i, st) || (i == id && r.state == st)
  {
    var f: Intents :| f in w'.storeCrash && i in f && f[i].state == st;
    if f !in w.storeCrash {
      assert f == w.store[id := r];
      if i != id {
        assert w.store in w.storeCrash && i in w.store && w.store[i].state == st;
      }
    }
  }

  lemma SavesEntries(w: World, w': World, id: string, r: Intent)
    requires EntriesInv(w) && Saves(w, w', id, r) && w.store in w.storeCrash
    requires NeverCreated(w, id) ==> r.state != Created
    ensures EntriesInv(w')
  {
    forall i | NeverCreated(w, i) ensures NeverCreated(w', i) {
      assert w.store in w.storeCrash;
    }
    forall c: Entries | c in w'.spentCrash ensures FlagsOk(w', c) && SendersKnown(w', c) {
      assert FlagsOk(w, c) && SendersKnown(w, c);
    }
  }

  /** Inputs change only under a Created record, which is not Out. */
  predicate KeepsInputs(w: World, id: string, r: Intent) {
    id in w.store && w.store[id].state != Created ==> r.inputs == w.store[id].inputs
  }

  lemma KeptInputs(w: World, w': World, id: string, r: Intent, i: string)
    requires Saves(w, w', id, r) && KeepsInputs(w, id, r)
    requires i in w.store && (i == id ==> w.store[id].state != Created)
    ensures i in w'.store && w'.store[i].inputs == w.store[i].inputs
  {
  }

  lemma MaybeInStored(w: World, i: string, st: State)
    requires FileInv(w) && MaybeIn(w, i, st)
    ensures i in w.store && (st != Created ==> w.store[i].state != Created)
  {
  }

  /** What a record must bring along to be saved as Broadcast. */
  ghost predicate MayGoOut(w: World, id: string) {
    && id in w.store && w.store[id].state != Created
    && NobodySent(w, id, w.store[id].inputs)
    && (Remarked(w, id) ==> AllSent(w, id, w.store[id].inputs))
    && forall i :: Out(w, i) && i != id && i in w.store ==> Disjoint(w.store[i].inputs, w.store[id].inputs)
  }

  /** Where an intent that is Out after the save comes from. */
  lemma SavesOutFrom(w: World, w': World, id: string, r: Intent, i: string)
    requires FileInv(w) && Saves(w, w', id, r) && KeepsInputs(w, id, r) && Out(w', i)
    requires r.state == Broadcast ==> MayGoOut(w, id)
    ensures Out(w, i) || (i == id && r.state == Broadcast)
    ensures i in w.store && i in w'.store && w'.store[i].inputs == w.store[i].inputs
  {
    SavesMaybeIn(w, w', id, r, i, Broadcast);
    if Out(w, i) {
      MaybeInStored(w, i, Broadcast);
    }
    KeptInputs(w, w', id, r, i);
  }

  lemma SavesOutsOk(w: World, w': World, id: string, r: Intent)
    requires FileInv(w) && OutsOk(w) && Saves(w, w', id, r) && KeepsInputs(w, id, r)
    requires r.state == Broadcast ==> MayGoOut(w, id)
    ensures OutsOk(w')
  {
    forall i | Out(w', i) ensures OutOk(w', i) {
      SavesOutFrom(w, w', id, r, i);
      SavesOutOk(w, w', id, r, i);
    }
  }

  lemma SavesOutOk(w: World, w': World, id: string, r: Intent, i: string)
    requires Saves(w, w', id, r) && i in w.store && i in w'.store && w'.store[i].inputs == w.store[i].inputs
    requires (i == id && r.state == Broadcast && MayGoOut(w, id)) || OutOk(w, i)
    requires i == id && r.state == Broadcast ==> MayGoOut(w, id)
    ensures OutOk(w', i)
  {
    assert NobodySent(w, i, w.store[i].inputs);
    assert Remarked(w', i) <==> Remarked(w, i);
  }

  lemma SavesOutsApart(w: World, w': World, id: string, r: Intent)
    requires FileInv(w) && OutsApart(w) && Saves(w, w', id, r) && KeepsInputs(w, id, r)
    requires r.state == Broadcast ==> MayGoOut(w, id)
    ensures OutsApart(w')
  {
    forall i, j | Out(w', i) && Out(w', j) && i != j && i in w'.store && j in w'.store
      ensures Disjoint(w'.store[i].inputs, w'.store[j].inputs)
    {
      SavesOutFrom(w, w', id, r, i);
      SavesOutFrom(w, w', id, r, j);
    }
  }

  lemma SavesOut(w: World, w': World, id: string, r: Intent)
    requires FileInv(w) && EntriesInv(w) && OutInv(w) && Saves(w, w', id, r) && KeepsInputs(w, id, r)
    requires r.state == Broadcast ==> MayGoOut(w, id)
    requires r.state == Built && !Held(r) ==>
      id in w.store && w.store[id].state in {Created, Built} && !Held(w.store[id])
    requires forall i :: IsSender(w'.call, i) ==>
      IsSender(w.call, i) && (w'.call.Marked? ==> w.call.Marked?) && i in w.store && w.store[i].state != Created
    requires forall i :: IsSender(w'.call, i) ==> r.state != Broadcast
    ensures OutInv(w')
  {
    SavesOutsOk(w, w', id, r);
    SavesOutsApart(w, w', id, r);
    forall i | IsSender(w'.call, i) ensures SenderOk(w', i) {
      assert SenderOk(w, i);
      SavesSender(w, w', id, r, i);
    }
    forall i | InState(w', i, Built) && !Held(w'.store[i]) ensures WaitingOk(w', i) {
      SavesWaiting(w, w', id, r, i);
    }
  }

  lemma SavesSender(w: World, w': World, id: string, r: Intent, i: string)
    requires Saves(w, w', id, r) && KeepsInputs(w, id, r) && SenderOk(w, i)
    requires w.store[i].state != Created && r.state != Broadcast && (w'.call.Marked? ==> w.call.Marked?)
    ensures SenderOk(w', i)
  {
    KeptInputs(w, w', id, r, i);
    forall j | InState(w', j, Broadcast) && j != i ensures Disjoint(w'.store[j].inputs, w'.store[i].inputs) {
      assert InState(w, j, Broadcast) && w'.store[j] == w.store[j];
    }
  }

  lemma SavesWaiting(w: World, w': World, id: string, r: Intent, i: string)
    requires FileInv(w) && EntriesInv(w) && WaitersOk(w) && Saves(w, w', id, r) && KeepsInputs(w, id, r)
    requires r.state == Built && !Held(r) ==>
      id in w.store && w.store[id].state in {Created, Built} && !Held(w.store[id])
    requires InState(w', i, Built) && !Held(w'.store[i])
    ensures WaitingOk(w', i)
  {
    if i in w.store && w.store[i].state == Created {
      CreatedNeverSent(w, i);
    } else {
      assert InState(w, i, Built) && WaitingOk(w, i);
    }
  }

  /** No record of a send names a Created intent. */
  lemma CreatedNeverSent(w: World, i: string)
    requires FileInv(w) && EntriesInv(w) && InState(w, i, Created)
    ensures forall p :: !SentBy(w.spent, p, i)
    ensures forall c: Entries, p :: c in w.spentCrash ==> !SentBy(c, p, i)
  {
    assert w.store in w.storeCrash;
    forall p ensures !SentBy(w.spent, p, i) {
      assert SentBy(w.spent, p, i) ==> NeverCreated(w, i);
    }
    forall c: Entries, p | c in w.spentCrash ensures !SentBy(c, p, i) {
      assert SendersKnown(w, c);
      assert SentBy(c, p, i) ==> NeverCreated(w, i);
    }
  }

  /** Where an intent with a claim after the save comes from. */
  lemma SavesClaimFrom(w: World, w': World, id: string, r: Intent, i: string)
    requires FileInv(w) && Saves(w, w', id, r) && KeepsInputs(w, id, r) && Claims(w', i)
    ensures Claims(w, i) || (i == id && r.state in {Built, Broadcast})
    ensures Claims(w, i) ==> i in w.store && i in w'.store && w'.store[i].inputs == w.store[i].inputs
    ensures i in w'.store
  {
    if MaybeIn(w', i, Built) {
      SavesMaybeIn(w, w', id, r, i, Built);
      var f: Intents :| f in w'.storeCrash && i in f && f[i].state == Built;
      assert f in w.storeCrash ==> i in w.store;
    }
    if Claims(w, i) {
      ClaimKeepsInputs(w, w', id, r, i);
    }
  }

  lemma ClaimKeepsInputs(w: World, w': World, id: string, r: Intent, i: string)
    requires FileInv(w) && Saves(w, w', id, r) && KeepsInputs(w, id, r) && Claims(w, i)
    ensures i in w.store && w.store[i].state != Created && i in w'.store && w'.store[i].inputs == w.store[i].inputs
  {
    if MaybeIn(w, i, Built) {
      MaybeInStored(w, i, Built);
    }
    KeptInputs(w, w', id, r, i);
  }

  /** What a record must bring along to be saved with signed bytes. */
  ghost predicate MayGoLive(w: World, id: string, r: Intent) {
    && id in w.store
    && (r.state == Built ==> AllOwned(w, id, r.inputs))
    && (r.state == Broadcast ==> r.inputs == w.store[id].inputs)
    && forall i :: Claims(w, i) && i != id && i in w.store ==> Disjoint(w.store[i].inputs, r.inputs)
  }

  lemma SavesFilesApart(w: World, w': World, id: string, r: Intent)
    requires FileInv(w) && FilesApart(w) && Saves(w, w', id, r)
    requires r.state in {Built, Broadcast} ==> MayGoLive(w, id, r)
    ensures FilesApart(w')
  {
    forall f: Intents | f in w'.storeCrash ensures NoShare(f) {
      if f !in w.storeCrash {
        assert NoShare(w.store);
        NewFileApart(w, id, r);
      }
    }
  }

  lemma NewFileApart(w: World, id: string, r: Intent)
    requires w.store in w.storeCrash && NoShare(w.store)
    requires r.state in {Built, Broadcast} ==> MayGoLive(w, id, r)
    ensures NoShare(w.store[id := r])
  {
    var f := w.store[id := r];
    forall i | HasBytes(w.store, i) ensures Claims(w, i) {
    }
    forall i, j | HasBytes(f, i) && HasBytes(f, j) && i != j ensures Disjoint(f[i].inputs, f[j].inputs) {
      assert i != id ==> HasBytes(w.store, i);
      assert j != id ==> HasBytes(w.store, j);
    }
  }

  lemma SavesClaimsApart(w: World, w': World, id: string, r: Intent)
    requires FileInv(w) && ClaimsApart(w) && Saves(w, w', id, r) && KeepsInputs(w, id, r)
    requires r.state in {Built, Broadcast} ==> MayGoLive(w, id, r)
    ensures ClaimsApart(w')
  {
    if w'.storeCrash == w.storeCrash && w'.store == w.store {
      WritesClaimsApart(w, w');
    } else {
      forall i, j | Claims(w', i) && Claims(w', j) && i != j && i in w'.store && j in w'.store
        ensures Disjoint(w'.store[i].inputs, w'.store[j].inputs)
      {
        SavesClaimFrom(w, w', id, r, i);
        SavesClaimFrom(w, w', id, r, j);
      }
    }
  }

  lemma SavesBuiltOwned(w: World, w': World, id: string, r: Intent)
    requires FileInv(w) && BuiltOwned(w) && Saves(w, w', id, r) && KeepsInputs(w, id, r)
    requires r.state == Built ==> AllOwned(w, id, r.inputs)
    ensures BuiltOwned(w')
  {
    forall i | MaybeIn(w', i, Built) && i in w'.store ensures AllOwned(w', i, w'.store[i].inputs) {
      SavesMaybeIn(w, w', id, r, i, Built);
      if MaybeIn(w, i, Built) {
        ClaimKeepsInputs(w, w', id, r, i);
      }
    }
  }

  lemma SavesLive(w: World, w': World, id: string, r: Intent)
    requires FileInv(w) && LiveInv(w) && Saves(w, w', id, r) && KeepsInputs(w, id, r)
    requires r.state in {Built, Broadcast} ==> MayGoLive(w, id, r)
    requires w'.call.Building? ==> w'.call == w.call && r.state !in {Built, Broadcast}
    ensures LiveInv(w')
  {
    SavesFilesApart(w, w', id, r);
    SavesClaimsApart(w, w', id, r);
    SavesBuiltOwned(w, w', id, r);
    if w'.call.Building? {
      forall i | Claims(w', i) && i != w'.call.id && i in w'.store
        ensures Disjoint(w'.store[i].inputs, w'.call.inputs)
      {
        SavesClaimFrom(w, w', id, r, i);
      }
    }
  }
}
