/** The array operations the reducers use: `findIndex`, `filter`, and
    replacing the first match; and the replay of a sequence of actions
    through a reducer. */
module Lists {

  /** `s.findIndex(p)`, with `|s|` standing for -1. */
  function FindIndex<T>(s: seq<T>, p: T -> bool): (i: nat)
    ensures i <= |s|
    ensures i < |s| ==> p(s[i])
    ensures forall k :: 0 <= k < i ==> !p(s[k])
    decreases |s|
  {
    if |s| == 0 then 0
    else if p(s[0]) then 0
    else 1 + FindIndex(s[1..], p)
  }

  /** `s.filter(keep)`: the kept elements, in their order. */
  function Filter<T>(s: seq<T>, keep: T -> bool): (r: seq<T>)
    ensures |r| <= |s|
    ensures forall i :: 0 <= i < |r| ==> keep(r[i]) && r[i] in s
    ensures forall i :: 0 <= i < |s| && keep(s[i]) ==> s[i] in r
    decreases |s|
  {
    if |s| == 0 then []
    else
      var rest := Filter(s[..|s| - 1], keep);
      assert forall i :: 0 <= i < |s| - 1 ==> s[i] == s[..|s| - 1][i];
      if keep(s[|s| - 1]) then rest + [s[|s| - 1]] else rest
  }

  /** Filtering works element by element from the front, so it keeps order:
      filtering a concatenation concatenates the filtered halves. */
  lemma {:induction false} FilterConcat<T>(a: seq<T>, b: seq<T>, keep: T -> bool)
    ensures Filter(a + b, keep) == Filter(a, keep) + Filter(b, keep)
    decreases |b|
  {
    if |b| == 0 {
      assert a + b == a;
    } else {
      var b0 := b[..|b| - 1];
      assert (a + b)[..|a + b| - 1] == a + b0;
      assert (a + b)[|a + b| - 1] == b[|b| - 1];
      FilterConcat(a, b0, keep);
    }
  }

  /** Filtering twice with the same test changes nothing the second time. */
  lemma {:induction false} FilterIdempotent<T>(s: seq<T>, keep: T -> bool)
    ensures Filter(Filter(s, keep), keep) == Filter(s, keep)
    decreases |s|
  {
    if |s| > 0 {
      var init := s[..|s| - 1];
      FilterIdempotent(init, keep);
      var x := s[|s| - 1];
      if keep(x) {
        FilterConcat(Filter(init, keep), [x], keep);
        assert [x][..0] == [];
      }
    }
  }

  /** `s[s.findIndex(p)] = f(s[s.findIndex(p)])` guarded by the index being
      found: the first element that satisfies `p` is replaced, and without one
      nothing changes. */
  function ReplaceFirst<T>(s: seq<T>, p: T -> bool, f: T -> T): (r: seq<T>)
    ensures |r| == |s|
    ensures (forall i :: 0 <= i < |s| ==> !p(s[i])) ==> r == s
    ensures forall i :: 0 <= i < |s| && p(s[i]) && (forall k :: 0 <= k < i ==> !p(s[k])) ==> r == s[i := f(s[i])]
  {
    var index := FindIndex(s, p);
    if index < |s| then s[index := f(s[index])] else s
  }

  /** The state a store reaches by dispatching `actions` in order. */
  function Replay<S, A>(step: (S, A) -> S, s: S, actions: seq<A>): S
    decreases |actions|
  {
    if |actions| == 0 then s else Replay(step, step(s, actions[0]), actions[1..])
  }

  /** A property every allowed action preserves holds after any replay of
      allowed actions. */
  lemma {:induction false} ReplayPreserves<S, A>(step: (S, A) -> S, inv: S -> bool, allowed: A -> bool, s: S, actions: seq<A>)
    requires inv(s)
    requires forall i :: 0 <= i < |actions| ==> allowed(actions[i])
    requires forall x, a :: inv(x) && allowed(a) ==> inv(step(x, a))
    ensures inv(Replay(step, s, actions))
    decreases |actions|
  {
    if |actions| > 0 {
      ReplayPreserves(step, inv, allowed, step(s, actions[0]), actions[1..]);
    }
  }
}
