/** What a record says of the node's answers was heard: no verdict, no hold and
    no txid on disk that some answer to a hand-over did not give. */
module WithdrawalVerdicts {
  import opened AtomicFile
  import opened SpentSet
  import opened Broadcaster
  import opened Withdrawal
  import opened WithdrawalRecords
  import opened WithdrawalHistory

  ghost predicate HeardOf(w: World, id: string, out: Outcome) {
    exists s :: s in w.sends && s.id == id && s.heard == Some(out)
  }

  ghost predicate HeardTaken(w: World, id: string) {
    exists out :: HeardOf(w, id, out) && (out.Success? || AlreadyInChain in out.kinds)
  }

  /** An answer that says the bytes will never be taken, and nothing else. */
  ghost predicate HeardRejected(w: World, id: string) {
    exists out :: HeardOf(w, id, out) && out.Error? && Permanent in out.kinds &&
                  out.kinds !! {AlreadyInChain, ContextEnded, UnknownOutcome, TxidMismatch}
  }

  /** The node named this txid, or none, for bytes with another. */
  ghost predicate HeardTxid(w: World, id: string, txid: string) {
    exists out :: HeardOf(w, id, out) && out.Error? && TxidMismatch in out.kinds &&
                  txid == (if out.got == "" then "unknown" else out.got)
  }

  ghost predicate Explained(w: World, id: string, r: Intent) {
    && (r.state in {Broadcast, Confirmed} ==> HeardTaken(w, id))
    && (r.hold || Condemned(r) ==> HeardRejected(w, id))
    && (r.nodeTxid != "" ==> HeardTxid(w, id, r.nodeTxid))
  }

  ghost predicate AllExplained(w: World) {
    forall f: Intents, id :: f in w.storeCrash && id in f ==> Explained(w, id, f[id])
  }

  // ----- Answers are never lost -----

  ghost predicate Grows(w: World, w': World) {
    forall s | s in w.sends && s.heard.Some? :: s in w'.sends
  }

  lemma HeardLater(w: World, w': World, id: string, r: Intent)
    requires Grows(w, w') && Explained(w, id, r)
    ensures Explained(w', id, r)
  {
    forall out | HeardOf(w, id, out) ensures HeardOf(w', id, out) {
      var s :| s in w.sends && s.id == id && s.heard == Some(out);
      assert s in w'.sends;
    }
  }

  lemma AnswerGrows(w: World, out: Outcome)
    requires |w.sends| > 0 && w.sends[|w.sends| - 1].heard == None
    ensures Grows(w, WithAnswer(w, out))
  {
    var w' := WithAnswer(w, out);
    forall s | s in w.sends && s.heard.Some? ensures s in w'.sends {
      var k :| 0 <= k < |w.sends| && w.sends[k] == s;
      assert w'.sends[k] == s;
    }
  }

  lemma StepGrows(w: World, a: Action)
    requires RecordInv(w) && Enabled(w, a)
    ensures Grows(w, Apply(w, a))
  {
    if a.Hear? || a.HearAgain? {
      AnswerGrows(w, a.out);
    } else if !Exchanges(a) {
      SendsStay(w, a);
    }
  }

  // ----- One step -----

  lemma ContinuedExplained(w: World, w': World, a: Action, id: string, r: Intent, r': Intent)
    requires CallOk(w) && Grows(w, w') && Explained(w, id, r) && Continues(w, a, id, r, r')
    ensures Explained(w', id, r')
  {
    HeardLater(w, w', id, r);
    if !NoNews(r, r') {
      var s := w.sends[|w.sends| - 1];
      assert s in w'.sends;
      assert HeardOf(w', id, s.heard.out);
    }
  }

  lemma StepExplained(w: World, a: Action)
    requires RecordInv(w) && Enabled(w, a) && AllExplained(w)
    ensures AllExplained(Apply(w, a))
  {
    var w' := Apply(w, a);
    StepTraced(w, a);
    StepGrows(w, a);
    forall f: Intents, id | f in w'.storeCrash && id in f ensures Explained(w', id, f[id]) {
      assert Comes(w, a, id, f[id]);
      if !(Submits(a, id, f[id]) && IsNew(f[id])) {
        var g: Intents :| g in w.storeCrash && id in g && Continues(w, a, id, g[id], f[id]);
        ContinuedExplained(w, w', a, id, g[id], f[id]);
      }
    }
  }

  lemma NextExplained(worlds: seq<World>, n: nat, a: Action)
    requires TakesStep(worlds, n, a) && RecordInv(worlds[n]) && AllExplained(worlds[n])
    ensures AllExplained(worlds[n + 1])
  {
    var w, w' := worlds[n], worlds[n + 1];
    StepExplained(w, a);
    forall f: Intents, id | f in w'.storeCrash && id in f ensures Explained(w', id, f[id]) {
      HeardLater(Apply(w, a), w', id, f[id]);
    }
  }

  /** Over every run: whatever may be found on disk says of the node only what
      was heard from it. */
  lemma {:induction false} VerdictsWereHeard(worlds: seq<World>, n: nat)
    requires Run(worlds) && n < |worlds|
    ensures AllExplained(worlds[n])
  {
    if n == 0 {
      FirstExplained(worlds[0]);
    } else {
      var k := n - 1;
      VerdictsWereHeard(worlds, k);
      RunsAreAsCalled(worlds, k);
      var a := StepOf(worlds, k);
      NextExplained(worlds, k, a);
    }
  }

  lemma FirstExplained(w: World)
    requires w == Init()
    ensures AllExplained(w)
  {
  }
}
