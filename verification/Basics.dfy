/** Bytes, and small facts about numbers, sets and sequences, and about what others do in between. */
module Basics {

  type Byte = x: int | 0 <= x < 256
  type Pcm = seq<Byte>

  function Min(a: int, b: int): int { if a < b then a else b }

  function Max(a: int, b: int): int { if a < b then b else a }

  function Sum(xs: seq<real>): real {
    if xs == [] then 0.0 else Sum(xs[..|xs| - 1]) + xs[|xs| - 1]
  }

  lemma {:induction false} SubsetIsNoLarger<T>(a: set<T>, b: set<T>)
    requires a <= b
    ensures |a| <= |b|
  {
    if a != {} {
      var x :| x in a;
      SubsetIsNoLarger(a - {x}, b - {x});
    }
  }

  // ---- Sequences of sequences ----

  function Flatten<T>(parts: seq<seq<T>>): seq<T> {
    if parts == [] then [] else Flatten(parts[..|parts| - 1]) + parts[|parts| - 1]
  }

  lemma FlattenWithLast<T>(parts: seq<seq<T>>, last: seq<T>)
    ensures Flatten(parts + [last]) == Flatten(parts) + last
  {
    assert (parts + [last])[..|parts|] == parts;
  }

  lemma {:induction false} FlattenSplits<T>(a: seq<seq<T>>, b: seq<seq<T>>)
    ensures Flatten(a + b) == Flatten(a) + Flatten(b)
  {
    if b == [] {
      assert a + b == a;
    } else {
      assert (a + b)[..|a + b| - 1] == a + b[..|b| - 1];
      FlattenSplits(a, b[..|b| - 1]);
    }
  }

  lemma TakeOneMore<T>(s: seq<T>, i: nat)
    requires i < |s|
    ensures s[..i + 1] == s[..i] + [s[i]]
  {
  }

  lemma FlattenExtends<T>(parts: seq<seq<T>>, k: nat)
    requires k < |parts|
    ensures Flatten(parts[..k]) + parts[k] == Flatten(parts[..k + 1]) <= Flatten(parts)
  {
    TakeOneMore(parts, k);
    FlattenWithLast(parts[..k], parts[k]);
    assert parts == parts[..k + 1] + parts[k + 1..];
    FlattenSplits(parts[..k + 1], parts[k + 1..]);
  }

  // ---- Interference: what others do before each command of each attempt ----

  type Gaps<F> = seq<seq<F>>

  function AfterAll<S, F>(step: (S, F) -> S, s: S, fs: seq<F>): S {
    if fs == [] then s else step(AfterAll(step, s, fs[..|fs| - 1]), fs[|fs| - 1])
  }

  lemma {:induction false} AfterAllSplits<S, F>(step: (S, F) -> S, s: S, fs: seq<F>, gs: seq<F>)
    ensures AfterAll(step, s, fs + gs) == AfterAll(step, AfterAll(step, s, fs), gs)
  {
    if gs == [] {
      assert fs + gs == fs;
    } else {
      assert (fs + gs)[..|fs + gs| - 1] == fs + gs[..|gs| - 1];
      AfterAllSplits(step, s, fs, gs[..|gs| - 1]);
    }
  }

  function Everything<F>(attempts: seq<Gaps<F>>): seq<F> {
    Flatten(Flatten(attempts))
  }

  lemma EverythingExtends<F>(attempts: seq<Gaps<F>>, k: nat)
    requires k < |attempts|
    ensures Everything(attempts[..k]) + Flatten(attempts[k]) == Everything(attempts[..k + 1]) <= Everything(attempts)
  {
    FlattenExtends(attempts, k);
    FlattenSplits(Flatten(attempts[..k]), attempts[k]);
    assert attempts == attempts[..k + 1] + attempts[k + 1..];
    FlattenSplits(attempts[..k + 1], attempts[k + 1..]);
    FlattenSplits(Flatten(attempts[..k + 1]), Flatten(attempts[k + 1..]));
  }
}
