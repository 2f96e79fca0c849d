/** Vocabulary shared by every module: identifiers, the clock, and sequences of identifiers. */
module Common {

  datatype Option<+T> = None | Some(value: T)

  datatype Result<+T, +E> = Success(value: T) | Failure(error: E)

  // UUIDs are modelled as the values they parse to.
  type OrderId = nat
  type EventId = nat
  type UserId = nat
  type TypeId = nat

  // Go's `int32` quantity, which request binding keeps at one or more.
  type Quantity = q: int | 1 <= q <= 0x7fff_ffff witness 1

  // The database and the Go clock: microseconds since the Unix epoch.
  type Time = nat

  const SECOND: nat := 1_000_000

  // The whole seconds that `Unix()` writes to Redis.
  function Unix(t: Time): (r: nat)
    ensures r * SECOND <= t < (r + 1) * SECOND
  {
    t / SECOND
  }

  lemma UnixShift(t: Time, seconds: nat)
    ensures Unix(t + seconds * SECOND) == Unix(t) + seconds
  {
  }

  function Min(a: int, b: int): int { if a <= b then a else b }
}

/** Lists of identifiers, as Redis keeps them. */
module Sequences {

  ghost predicate NoDup(w: seq<nat>) {
    forall i, j :: 0 <= i < j < |w| ==> w[i] != w[j]
  }

  // LREM key 0 x: every occurrence goes.
  function Without(w: seq<nat>, x: nat): (r: seq<nat>)
    ensures forall y :: y in r <==> y in w && y != x
  {
    if w == [] then []
    else if w[0] == x then Without(w[1..], x)
    else [w[0]] + Without(w[1..], x)
  }

  lemma {:induction false} WithoutNoDup(w: seq<nat>, x: nat)
    requires NoDup(w)
    ensures NoDup(Without(w, x))
  {
    if w != [] {
      WithoutNoDup(w[1..], x);
      assert w[0] !in w[1..];
    }
  }

  // The entries of `w` that come before `a`.
  function Before(w: seq<nat>, a: nat): (r: seq<nat>)
    ensures a !in r
    ensures |r| <= |w| && r == w[..|r|]
    ensures a in w ==> |r| < |w| && w[|r|] == a
  {
    if w == [] || w[0] == a then []
    else [w[0]] + Before(w[1..], a)
  }

  lemma {:induction false} BeforeAppend(w: seq<nat>, a: nat, tail: seq<nat>)
    requires a in w
    ensures Before(w + tail, a) == Before(w, a)
  {
    if w[0] != a {
      assert (w + tail)[1..] == w[1..] + tail;
      BeforeAppend(w[1..], a, tail);
    }
  }

  lemma {:induction false} BeforeDrop(w: seq<nat>, a: nat, k: nat)
    requires k <= |w| && a !in w[..k]
    ensures Before(w, a) == w[..k] + Before(w[k..], a)
  {
    if k == 0 {
      assert w[0..] == w;
    } else {
      assert w[..k][0] == w[0];
      assert w[1..][..k-1] == w[..k][1..];
      assert w[1..][k-1..] == w[k..];
      BeforeDrop(w[1..], a, k - 1);
      assert w[..k] == [w[0]] + w[1..][..k-1];
    }
  }

  lemma {:induction false} BeforeWithout(w: seq<nat>, a: nat, x: nat)
    requires a != x
    ensures Before(Without(w, x), a) == Without(Before(w, a), x)
  {
    if w != [] && w[0] != a {
      BeforeWithout(w[1..], a, x);
      assert Before(w, a)[1..] == Before(w[1..], a);
      if w[0] != x {
        assert Without(w, x)[1..] == Without(w[1..], x);
      }
    }
  }

  // `u` is `v` with some entries left out, in the same order.
  predicate Subseq(u: seq<nat>, v: seq<nat>) {
    if u == [] then true
    else if v == [] then false
    else if u[0] == v[0] then Subseq(u[1..], v[1..])
    else Subseq(u, v[1..])
  }

  lemma {:induction false} SubseqRefl(u: seq<nat>)
    ensures Subseq(u, u)
  {
    if u != [] { SubseqRefl(u[1..]); }
  }

  lemma {:induction false} SubseqCons(u: seq<nat>, x: nat, v: seq<nat>)
    requires Subseq(u, v)
    ensures Subseq(u, [x] + v)
    decreases |v|, 1
  {
    assert ([x] + v)[1..] == v;
    if u != [] && u[0] == x { SubseqDropFirst(u, v); }
  }

  lemma {:induction false} SubseqDropFirst(u: seq<nat>, v: seq<nat>)
    requires u != [] && Subseq(u, v)
    ensures Subseq(u[1..], v)
    decreases |v|, 0
  {
    assert [v[0]] + v[1..] == v;
    if u[0] == v[0] {
      SubseqCons(u[1..], v[0], v[1..]);
    } else {
      SubseqDropFirst(u, v[1..]);
      SubseqCons(u[1..], v[0], v[1..]);
    }
  }

  lemma {:induction false} SubseqSuffix(p: seq<nat>, v: seq<nat>)
    ensures Subseq(v, p + v)
  {
    if p == [] {
      assert p + v == v;
      SubseqRefl(v);
    } else {
      SubseqSuffix(p[1..], v);
      SubseqCons(v, p[0], p[1..] + v);
      assert p + v == [p[0]] + (p[1..] + v);
    }
  }

  lemma {:induction false} SubseqTrans(u: seq<nat>, v: seq<nat>, w: seq<nat>)
    requires Subseq(u, v) && Subseq(v, w)
    ensures Subseq(u, w)
    decreases |w|
  {
    if u != [] {
      assert v != [] && w != [];
      if v[0] == w[0] {
        if u[0] == v[0] {
          SubseqTrans(u[1..], v[1..], w[1..]);
        } else {
          SubseqTrans(u, v[1..], w[1..]);
        }
      } else {
        SubseqTrans(u, v, w[1..]);
        SubseqCons(u, w[0], w[1..]);
        assert [w[0]] + w[1..] == w;
      }
    }
  }

  lemma {:induction false} SubseqWithout(w: seq<nat>, x: nat)
    ensures Subseq(Without(w, x), w)
  {
    if w != [] {
      SubseqWithout(w[1..], x);
      assert [w[0]] + w[1..] == w;
      if w[0] == x {
        SubseqCons(Without(w[1..], x), w[0], w[1..]);
      } else {
        assert ([w[0]] + Without(w[1..], x))[1..] == Without(w[1..], x);
      }
    }
  }

  lemma {:induction false} SubseqLength(u: seq<nat>, v: seq<nat>)
    requires Subseq(u, v)
    ensures |u| <= |v| && (forall x :: x in u ==> x in v)
    decreases |v|
  {
    if u != [] {
      if u[0] == v[0] { SubseqLength(u[1..], v[1..]); } else { SubseqLength(u, v[1..]); }
      forall x | x in u ensures x in v {
        if u[0] == v[0] && x != u[0] { assert x in u[1..]; }
      }
    }
  }
}
