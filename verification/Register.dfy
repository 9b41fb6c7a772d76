/** Feeding symbols to a register, whatever a step does. */
module Register {

  function Run<R, V>(step: (R, V) -> R, c: R, vs: seq<V>): R {
    if vs == [] then c else step(Run(step, c, vs[..|vs| - 1]), vs[|vs| - 1])
  }

  lemma {:induction false} RunConcat<R, V>(step: (R, V) -> R, c: R, a: seq<V>, b: seq<V>)
    ensures Run(step, c, a + b) == Run(step, Run(step, c, a), b)
  {
    if b == [] {
      assert a + b == a;
    } else {
      RunConcat(step, c, a, b[..|b| - 1]);
      assert (a + b)[..|a + b| - 1] == a + b[..|b| - 1];
    }
  }

  /** Different registers stay different under the same symbol. */
  ghost predicate Injective<R(!new), V(!new)>(step: (R, V) -> R) {
    forall c, d, v :: step(c, v) == step(d, v) ==> c == d
  }

  lemma {:induction false} RunInjective<R(!new), V(!new)>(step: (R, V) -> R, c: R, d: R, vs: seq<V>)
    requires Injective(step) && Run(step, c, vs) == Run(step, d, vs)
    ensures c == d
  {
    if vs != [] {
      RunInjective(step, c, d, vs[..|vs| - 1]);
    }
  }

  /** `near(k, c, d)` is what two registers that were equal `k` steps ago keep;
      for `n` steps nothing that went in can cancel. */
  ghost predicate Separates<R(!new), V(!new)>(step: (R, V) -> R, near: (nat, R, R) -> bool, n: nat) {
    && (forall c :: near(0, c, c))
    && (forall k: nat, c, d, v, w :: k < n && near(k, c, d) ==>
          near(k + 1, step(c, v), step(d, w)) && (step(c, v) == step(d, w) ==> c == d && v == w))
  }

  lemma {:induction false} RunSeparates<R(!new), V(!new)>(step: (R, V) -> R, near: (nat, R, R) -> bool, n: nat,
                                                          c: R, a: seq<V>, b: seq<V>)
    requires Separates(step, near, n) && |a| == |b| <= n
    ensures near(|a|, Run(step, c, a), Run(step, c, b))
    ensures Run(step, c, a) == Run(step, c, b) ==> a == b
  {
    if a != [] {
      var k := |a| - 1;
      RunSeparates(step, near, n, c, a[..k], b[..k]);
      assert near(k, Run(step, c, a[..k]), Run(step, c, b[..k]));
      assert a == a[..k] + [a[k]] && b == b[..k] + [b[k]];
    }
  }

  lemma RunParts<R, V>(step: (R, V) -> R, c: R, a: seq<V>, b: seq<V>, d: seq<V>)
    ensures Run(step, c, a + b + d) == Run(step, Run(step, Run(step, c, a), b), d)
  {
    RunConcat(step, c, a + b, d);
    RunConcat(step, c, a, b);
  }

  lemma MiddleSeparates<R(!new), V(!new)>(step: (R, V) -> R, near: (nat, R, R) -> bool, n: nat,
                                          c: R, front: seq<V>, a: seq<V>, b: seq<V>, back: seq<V>)
    requires Injective(step) && Separates(step, near, n) && |a| == |b| <= n
    requires Run(step, c, front + a + back) == Run(step, c, front + b + back)
    ensures a == b
  {
    var d := Run(step, c, front);
    RunParts(step, c, front, a, back);
    RunParts(step, c, front, b, back);
    RunInjective(step, Run(step, d, a), Run(step, d, b), back);
    RunSeparates(step, near, n, d, a, b);
  }

  lemma Cut<V>(u: seq<V>, i: nat, j: nat)
    requires i <= j <= |u|
    ensures u == u[..i] + u[i..j] + u[j..]
  {
  }

  /** Sequences that differ only inside `n` consecutive symbols lead to
      different registers. */
  lemma WindowSeparates<R(!new), V(!new)>(step: (R, V) -> R, near: (nat, R, R) -> bool, n: nat,
                                          c: R, u: seq<V>, v: seq<V>, i: nat)
    requires Injective(step) && Separates(step, near, n) && |u| == |v| && i <= |u|
    requires forall k :: 0 <= k < |u| && !(i <= k < i + n) ==> u[k] == v[k]
    requires Run(step, c, u) == Run(step, c, v)
    ensures u == v
  {
    var j := if i + n <= |u| then i + n else |u|;
    Cut(u, i, j);
    Cut(v, i, j);
    assert u[..i] == v[..i];
    assert u[j..] == v[j..];
    MiddleSeparates(step, near, n, c, u[..i], u[i..j], v[i..j], u[j..]);
  }
}
