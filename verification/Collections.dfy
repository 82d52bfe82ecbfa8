/** Facts about finite collections that more than one module needs. */
module Collections {
  lemma {:induction false} SubsetSize<T>(a: set<T>, b: set<T>)
    requires a <= b
    ensures |a| <= |b|
  {
    if a != {} {
      var x :| x in a;
      SubsetSize(a - {x}, b - {x});
    }
  }

  lemma MultisetSnoc<T>(a: seq<T>, x: T)
    ensures multiset(a + [x]) == multiset(a) + multiset{x}
  {
  }

  lemma FrontAndLast<T>(s: seq<T>)
    requires s != []
    ensures s == s[..|s| - 1] + [s[|s| - 1]] && multiset(s) == multiset(s[..|s| - 1]) + multiset{s[|s| - 1]}
    ensures forall x :: x in s <==> x in s[..|s| - 1] || x == s[|s| - 1]
  {
    assert s == s[..|s| - 1] + [s[|s| - 1]];
  }

  lemma UpdateTwice<K, V>(m: map<K, V>, k: K, a: V, b: V)
    ensures m[k := a][k := b] == m[k := b]
  {
  }

  lemma TailConcat<T>(a: seq<T>, b: seq<T>)
    requires a != []
    ensures (a + b)[1..] == a[1..] + b && (a + b)[0] == a[0]
  {
  }

  lemma FrontConcat<T>(a: seq<T>, b: seq<T>)
    requires b != []
    ensures (a + b)[..|a + b| - 1] == a + b[..|b| - 1] && (a + b)[|a + b| - 1] == b[|b| - 1]
  {
  }

  lemma SliceConcat<T>(a: seq<T>, b: seq<T>, m: nat)
    requires m <= |a|
    ensures (a + b)[..m] == a[..m] && (a + b)[m..] == a[m..] + b
  {
  }

  lemma DropConcat<T>(a: seq<T>, b: seq<T>)
    ensures (a + b)[|a|..] == b && (a + b)[..|a|] == a
  {
  }

  lemma PrefixAndRest<T>(a: seq<T>, b: seq<T>)
    requires a <= b
    ensures b == a + b[|a|..]
  {
  }

  lemma TakeMore<T>(s: seq<T>, a: nat, b: nat)
    requires a + b <= |s|
    ensures s[..a] + s[a..][..b] == s[..a + b] && s[a..][b..] == s[a + b..]
  {
  }

  lemma ConcatAssociates<T>(a: seq<T>, b: seq<T>, c: seq<T>)
    ensures (a + b) + c == a + (b + c)
  {
  }

  /** Each element is linked to the next. */
  ghost predicate Linked<T>(xs: seq<T>, link: (T, T) -> bool) { forall k {:trigger xs[k]} | 0 <= k < |xs| - 1 :: link(xs[k], xs[k + 1]) }

  lemma LinkedSnoc<T>(xs: seq<T>, x: T, link: (T, T) -> bool)
    requires xs != [] && Linked(xs, link) && link(xs[|xs| - 1], x)
    ensures Linked(xs + [x], link)
  {
  }

  /** `ms` are the states that the events `me`, the first of them turn `n`, lead through. */
  ghost predicate Chain<S, E>(ms: seq<S>, me: seq<E>, n: nat, turn: (S, E, nat, S) -> bool) {
    |ms| == |me| + 1 && forall i {:trigger me[i]} | 0 <= i < |me| :: turn(ms[i], me[i], n + i, ms[i + 1])
  }

  lemma ChainOne<S, E>(s: S, e: E, t: S, n: nat, turn: (S, E, nat, S) -> bool)
    requires turn(s, e, n, t)
    ensures Chain([s, t], [e], n, turn)
  {
  }

  lemma ChainConcat<S, E>(ms: seq<S>, me: seq<E>, ns: seq<S>, ne: seq<E>, n: nat, turn: (S, E, nat, S) -> bool)
    requires Chain(ms, me, n, turn) && Chain(ns, ne, n + |me|, turn) && ns[0] == ms[|me|]
    ensures Chain(ms + ns[1..], me + ne, n, turn)
    ensures (ms + ns[1..])[0] == ms[0] && (ms + ns[1..])[|me| + |ne|] == ns[|ne|]
  {
    var on, more := ms + ns[1..], me + ne;
    forall i {:trigger more[i]} | 0 <= i < |more| ensures turn(on[i], more[i], n + i, on[i + 1]) {
      if i < |me| {
        assert more[i] == me[i] && on[i] == ms[i] && on[i + 1] == ms[i + 1];
      } else {
        var k := i - |me|;
        assert more[i] == ne[k] && on[i] == ns[k] && on[i + 1] == ns[k + 1];
      }
    }
  }

  lemma ChainSnoc<S, E>(ms: seq<S>, me: seq<E>, e: E, t: S, n: nat, turn: (S, E, nat, S) -> bool)
    requires Chain(ms, me, n, turn) && turn(ms[|me|], e, n + |me|, t)
    ensures Chain(ms + [t], me + [e], n, turn) && (ms + [t])[0] == ms[0]
  {
    ChainOne(ms[|me|], e, t, n + |me|, turn);
    ChainConcat(ms, me, [ms[|me|], t], [e], n, turn);
    assert [ms[|me|], t][1..] == [t];
  }

  lemma ChainOfThree<S, E>(s: S, t: S, u: S, v: S, d: E, e: E, f: E, n: nat, turn: (S, E, nat, S) -> bool)
    requires turn(s, d, n, t) && turn(t, e, n + 1, u) && turn(u, f, n + 2, v)
    ensures Chain([s, t, u, v], [d, e, f], n, turn)
  {
  }
}
