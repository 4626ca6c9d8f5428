/** Vocabulary shared by the models: bytes and options, and on sequences filtering, first
    occurrences, stutter removal, ranges of row ids, concatenation and left folds. */
module Collections {

  datatype Option<+T> = None | Some(value: T)

  type Byte = b: nat | b < 256

  /** The ids lo, lo+1, ..., hi-1. */
  function Range(lo: nat, hi: nat): (r: seq<nat>)
    requires lo <= hi
    ensures |r| == hi - lo
    ensures forall i :: 0 <= i < |r| ==> r[i] == lo + i
  {
    seq(hi - lo, i requires 0 <= i => lo + i)
  }

  function Map<A, B>(f: A -> B, s: seq<A>): (r: seq<B>)
    ensures |r| == |s|
    ensures forall i :: 0 <= i < |s| ==> r[i] == f(s[i])
  {
    seq(|s|, i requires 0 <= i < |s| => f(s[i]))
  }

  /** The elements that satisfy p, in their order. */
  function Filter<A(!new)>(p: A -> bool, s: seq<A>): (r: seq<A>)
    ensures forall x :: x in r <==> x in s && p(x)
  {
    if s == [] then []
    else
      var last := s[|s| - 1];
      assert s == s[..|s| - 1] + [last];
      if p(last) then Filter(p, s[..|s| - 1]) + [last] else Filter(p, s[..|s| - 1])
  }

  /** Every element once, at the place of its first occurrence. */
  function FirstOccurrences<A(==,!new)>(s: seq<A>): (r: seq<A>)
    ensures forall x :: x in r <==> x in s
  {
    if s == [] then []
    else
      var front, last := s[..|s| - 1], s[|s| - 1];
      assert s == front + [last];
      if last in front then FirstOccurrences(front) else FirstOccurrences(front) + [last]
  }

  /** Runs of equal neighbours collapsed to one element. */
  function Destutter<A(==,!new)>(s: seq<A>): (r: seq<A>)
    ensures forall x :: x in r <==> x in s
    ensures s != [] ==> r != [] && r[|r| - 1] == s[|s| - 1]
  {
    if |s| <= 1 then s
    else
      var front, last := s[..|s| - 1], s[|s| - 1];
      assert s == front + [last];
      if front[|front| - 1] == last then Destutter(front) else Destutter(front) + [last]
  }

  /** The groups one after the other. */
  function Flatten<A>(groups: seq<seq<A>>): seq<A> {
    if groups == [] then [] else Flatten(groups[..|groups| - 1]) + groups[|groups| - 1]
  }

  function Fold<S, A>(f: (S, A) -> S, s0: S, s: seq<A>): S {
    if s == [] then s0 else f(Fold(f, s0, s[..|s| - 1]), s[|s| - 1])
  }

  ghost predicate Distinct<A>(s: seq<A>) {
    forall i, j :: 0 <= i < j < |s| ==> s[i] != s[j]
  }

  ghost predicate NonDecreasing(s: seq<nat>) {
    forall i, j :: 0 <= i < j < |s| ==> s[i] <= s[j]
  }

  ghost predicate StrictlyIncreasing(s: seq<nat>) {
    forall i, j :: 0 <= i < j < |s| ==> s[i] < s[j]
  }

  /** Applying an effect twice in a row is the same as applying it once. */
  ghost predicate Idempotent<S(!new), A(!new)>(f: (S, A) -> S) {
    forall st, a :: f(f(st, a), a) == f(st, a)
  }

  lemma Snoc<A>(s: seq<A>, x: A)
    ensures (s + [x])[..|s + [x]| - 1] == s
    ensures (s + [x])[|s + [x]| - 1] == x
  {
  }

  lemma FrontLast<A>(s: seq<A>)
    requires s != []
    ensures s == s[..|s| - 1] + [s[|s| - 1]]
  {
  }

  lemma MapSnoc<A, B>(f: A -> B, s: seq<A>, x: A)
    ensures Map(f, s + [x]) == Map(f, s) + [f(x)]
  {
  }

  lemma FilterSnoc<A(!new)>(p: A -> bool, s: seq<A>, x: A)
    ensures Filter(p, s + [x]) == Filter(p, s) + (if p(x) then [x] else [])
  {
    Snoc(s, x);
  }

  lemma {:induction false} FilterAppend<A(!new)>(p: A -> bool, s: seq<A>, t: seq<A>)
    ensures Filter(p, s + t) == Filter(p, s) + Filter(p, t)
  {
    if t == [] {
      assert s + t == s;
    } else {
      var front, last := t[..|t| - 1], t[|t| - 1];
      FilterAppend(p, s, front);
      assert t == front + [last];
      assert s + t == (s + front) + [last];
      FilterSnoc(p, front, last);
      FilterSnoc(p, s + front, last);
    }
  }

  /** Filtering keeps prefixes. */
  lemma FilterPrefix<A(!new)>(p: A -> bool, s: seq<A>, t: seq<A>)
    requires s <= t
    ensures Filter(p, s) <= Filter(p, t)
  {
    assert t == s + t[|s|..];
    FilterAppend(p, s, t[|s|..]);
  }

  lemma {:induction false} FilterAll<A(!new)>(p: A -> bool, s: seq<A>)
    requires forall x :: x in s ==> p(x)
    ensures Filter(p, s) == s
  {
    if s != [] {
      var front, last := s[..|s| - 1], s[|s| - 1];
      assert s == front + [last];
      FilterAll(p, front);
    }
  }

  lemma {:induction false} FilterAgree<A(!new)>(p: A -> bool, q: A -> bool, s: seq<A>)
    requires forall x :: x in s ==> p(x) == q(x)
    ensures Filter(p, s) == Filter(q, s)
  {
    if s != [] {
      var front, last := s[..|s| - 1], s[|s| - 1];
      assert s == front + [last];
      FilterAgree(p, q, front);
    }
  }

  /** A longer distinct sequence selects no more when all it could select is in the prefix. */
  lemma FilterWithin<A(!new)>(p: A -> bool, s: seq<A>, t: seq<A>)
    requires s <= t && Distinct(t) && forall x :: x in t && p(x) ==> x in s
    ensures Filter(p, s) == Filter(p, t)
  {
    var rest := t[|s|..];
    assert t == s + rest;
    FilterAppend(p, s, rest);
    forall x | x in rest ensures !p(x) {
      var k :| 0 <= k < |rest| && rest[k] == x;
      assert t[|s| + k] == x;
    }
    FilterNone(p, rest);
  }

  lemma {:induction false} FilterNone<A(!new)>(p: A -> bool, s: seq<A>)
    requires forall x :: x in s ==> !p(x)
    ensures Filter(p, s) == []
  {
    if s != [] {
      FrontLast(s);
      FilterNone(p, s[..|s| - 1]);
    }
  }

  /** The order of two filters does not matter. */
  lemma {:induction false} FilterCommutes<A(!new)>(p: A -> bool, q: A -> bool, s: seq<A>)
    ensures Filter(p, Filter(q, s)) == Filter(q, Filter(p, s))
  {
    if s != [] {
      var front, last := s[..|s| - 1], s[|s| - 1];
      FrontLast(s);
      FilterCommutes(p, q, front);
      FilterSnoc(p, front, last);
      FilterSnoc(q, front, last);
      FilterSnoc(p, Filter(q, front), last);
      FilterSnoc(q, Filter(p, front), last);
    }
  }

  lemma FirstOccurrencesSnoc<A(!new)>(s: seq<A>, x: A)
    ensures FirstOccurrences(s + [x]) == FirstOccurrences(s) + (if x in s then [] else [x])
  {
    Snoc(s, x);
  }

  /** First occurrences never repeat. */
  lemma {:induction false} FirstOccurrencesDistinct<A(!new)>(s: seq<A>)
    ensures Distinct(FirstOccurrences(s))
  {
    if s != [] {
      FirstOccurrencesDistinct(s[..|s| - 1]);
    }
  }

  lemma {:induction false} FirstOccurrencesPrefix<A(!new)>(s: seq<A>, t: seq<A>)
    requires s <= t
    ensures FirstOccurrences(s) <= FirstOccurrences(t)
    decreases |t|
  {
    if s != t {
      var front, last := t[..|t| - 1], t[|t| - 1];
      assert t == front + [last];
      FirstOccurrencesPrefix(s, front);
      FirstOccurrencesSnoc(front, last);
    }
  }

  /** Selecting first occurrences and filtering commute. */
  lemma {:induction false} FilterFirstOccurrences<A(!new)>(p: A -> bool, s: seq<A>)
    ensures Filter(p, FirstOccurrences(s)) == FirstOccurrences(Filter(p, s))
  {
    if s != [] {
      var front, last := s[..|s| - 1], s[|s| - 1];
      assert s == front + [last];
      FilterFirstOccurrences(p, front);
      FilterSnoc(p, front, last);
      if last !in front {
        FilterSnoc(p, FirstOccurrences(front), last);
      }
      if p(last) {
        FirstOccurrencesSnoc(Filter(p, front), last);
      }
    }
  }

  lemma FlattenSnoc<A>(groups: seq<seq<A>>, g: seq<A>)
    ensures Flatten(groups + [g]) == Flatten(groups) + g
  {
    Snoc(groups, g);
  }

  lemma {:induction false} FlattenAppend<A>(groups: seq<seq<A>>, more: seq<seq<A>>)
    ensures Flatten(groups + more) == Flatten(groups) + Flatten(more)
  {
    if more == [] {
      assert groups + more == groups;
    } else {
      var front, last := more[..|more| - 1], more[|more| - 1];
      FrontLast(more);
      FlattenAppend(groups, front);
      assert groups + more == (groups + front) + [last];
      FlattenSnoc(front, last);
      FlattenSnoc(groups + front, last);
    }
  }

  lemma {:induction false} FlattenPrefix<A>(s: seq<seq<A>>, t: seq<seq<A>>)
    requires s <= t
    ensures Flatten(s) <= Flatten(t)
  {
    assert t == s + t[|s|..];
    FlattenAppend(s, t[|s|..]);
  }

  lemma FoldSnoc<S, A>(f: (S, A) -> S, s0: S, s: seq<A>, x: A)
    ensures Fold(f, s0, s + [x]) == f(Fold(f, s0, s), x)
  {
    Snoc(s, x);
  }

  /** Replaying an idempotent effect in place is invisible. */
  lemma {:induction false} FoldDestutter<S(!new), A(!new)>(f: (S, A) -> S, s0: S, s: seq<A>)
    requires Idempotent(f)
    ensures Fold(f, s0, s) == Fold(f, s0, Destutter(s))
  {
    if |s| > 1 {
      var front, last := s[..|s| - 1], s[|s| - 1];
      FoldDestutter(f, s0, front);
      if front[|front| - 1] == last {
        assert Fold(f, s0, front) == f(Fold(f, s0, front[..|front| - 1]), last);
      } else {
        FoldSnoc(f, s0, Destutter(front), last);
      }
    }
  }

  lemma AppendNonDecreasing(s: seq<nat>, x: nat)
    requires NonDecreasing(s) && forall y :: y in s ==> y <= x
    ensures NonDecreasing(s + [x])
  {
    forall i | 0 <= i < |s| ensures s[i] <= x {
      assert s[i] in s;
    }
  }

  lemma {:induction false} DestutterIncreasing(s: seq<nat>)
    requires NonDecreasing(s)
    ensures StrictlyIncreasing(Destutter(s))
  {
    if |s| > 1 {
      var front, last := s[..|s| - 1], s[|s| - 1];
      DestutterIncreasing(front);
      var d := Destutter(front);
      forall i | 0 <= i < |d| ensures d[i] <= d[|d| - 1] {
      }
    }
  }

  lemma {:induction false} FilterIncreasing(p: nat -> bool, s: seq<nat>)
    requires StrictlyIncreasing(s)
    ensures StrictlyIncreasing(Filter(p, s))
  {
    if s != [] {
      var front, last := s[..|s| - 1], s[|s| - 1];
      FilterIncreasing(p, front);
      var r := Filter(p, front);
      forall i | 0 <= i < |r| ensures r[i] < last {
        assert r[i] in front;
      }
    }
  }

  lemma HasMember<A(!new)>(s: seq<A>)
    requires s != []
    ensures exists x :: x in s
  {
    assert s[0] in s;
  }

  /** A strictly increasing sequence is determined by its members. */
  lemma {:induction false} IncreasingUnique(s: seq<nat>, t: seq<nat>)
    requires StrictlyIncreasing(s) && StrictlyIncreasing(t)
    requires forall x :: x in s <==> x in t
    ensures s == t
  {
    if s == [] {
      if t != [] {
        HasMember(t);
        assert false;
      }
    } else {
      assert s[|s| - 1] in t;
      assert t[|t| - 1] in s;
      var x := s[|s| - 1];
      assert x == t[|t| - 1];
      var s', t' := s[..|s| - 1], t[..|t| - 1];
      forall y ensures y in s' <==> y in t' {
        if y in s' { assert y in t && y != x; assert t == t' + [x]; }
        if y in t' { assert y in s && y != x; assert s == s' + [x]; }
      }
      IncreasingUnique(s', t');
      assert s == s' + [x] && t == t' + [x];
    }
  }
}

/** Labelled transition systems. A protocol is a partial step function; a run applies a
    sequence of step labels, and the labels carry every choice of the environment. */
module Machine {
  import opened Collections

  function Run<S, A>(next: (S, A) -> Option<S>, s: S, trace: seq<A>): (r: Option<S>)
  {
    if trace == [] then Some(s)
    else match Run(next, s, trace[..|trace| - 1])
      case None => None
      case Some(t) => next(t, trace[|trace| - 1])
  }

  lemma RunSnoc<S, A>(next: (S, A) -> Option<S>, s: S, trace: seq<A>, a: A)
    ensures Run(next, s, trace + [a]) ==
            match Run(next, s, trace) case None => None case Some(t) => next(t, a)
  {
    Snoc(trace, a);
  }

  /** A run goes on with one more step. */
  lemma Took<S, A>(next: (S, A) -> Option<S>, s0: S, past: seq<A>, s: S, a: A, t: S)
    requires Run(next, s0, past) == Some(s) && next(s, a) == Some(t)
    ensures Run(next, s0, past + [a]) == Some(t)
  {
    RunSnoc(next, s0, past, a);
  }

  /** An inductive invariant holds in every reachable state. */
  lemma {:induction false} RunInvariant<S(!new), A(!new)>(next: (S, A) -> Option<S>, inv: S -> bool, s: S,
      trace: seq<A>)
    requires inv(s)
    requires forall t, a :: inv(t) && next(t, a).Some? ==> inv(next(t, a).value)
    requires Run(next, s, trace).Some?
    ensures inv(Run(next, s, trace).value)
  {
    if trace != [] {
      RunInvariant(next, inv, s, trace[..|trace| - 1]);
    }
  }
}

/** Colon-joined key strings and how they come apart again. */
module Keys {

  ghost predicate ColonFree(s: string) {
    ':' !in s
  }

  /** A string whose head is colon-free splits in one way at its first colon. */
  lemma ColonCut(t: string, r: string, t': string, r': string)
    requires ColonFree(t) && ColonFree(t') && t + ":" + r == t' + ":" + r'
    ensures t == t' && r == r'
  {
    var s, s' := t + ":" + r, t' + ":" + r';
    assert s[|t|] == ':' && s'[|t'|] == ':';
    assert forall i :: 0 <= i < |t| ==> s[i] == t[i] && t[i] != ':';
    assert forall i :: 0 <= i < |t'| ==> s'[i] == t'[i] && t'[i] != ':';
    assert |t| == |t'|;
    assert t == s[..|t|] && t' == s'[..|t|];
    assert r == s[|t| + 1..] && r' == s'[|t| + 1..];
  }

  /** A string whose tail is colon-free splits in one way at its last colon. */
  lemma ColonCutLast(t: string, r: string, t': string, r': string)
    requires ColonFree(r) && ColonFree(r') && t + ":" + r == t' + ":" + r'
    ensures t == t' && r == r'
  {
    var s, s' := t + ":" + r, t' + ":" + r';
    assert s[|t|] == ':' && s'[|t'|] == ':';
    assert forall i :: |t| < i < |s| ==> s[i] == r[i - |t| - 1] && s[i] != ':';
    assert forall i :: |t'| < i < |s'| ==> s'[i] == r'[i - |t'| - 1] && s'[i] != ':';
    assert |t| == |t'|;
    assert t == s[..|t|] && t' == s'[..|t|];
    assert r == s[|t| + 1..] && r' == s'[|t| + 1..];
  }
}
