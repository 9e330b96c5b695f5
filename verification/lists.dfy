/** Option and the sequence operations the tool performs with Array.prototype
    methods: filter, map, slice(0, n) and Set-style removal. */
module Lists {

  /** A value that may be absent (`undefined` / `null` in the source). */
  datatype Option<T> = None | Some(value: T)

  function GetOr<T>(o: Option<T>, default: T): T
  {
    if o.Some? then o.value else default
  }

  /** `xs ?? []` */
  function OrEmpty<T>(o: Option<seq<T>>): seq<T>
  {
    if o.Some? then o.value else []
  }

  /** Array.prototype.filter: the elements satisfying `p`, in their order. */
  function Filter<T>(p: T -> bool, s: seq<T>): (r: seq<T>)
    ensures |r| <= |s|
    ensures forall i :: 0 <= i < |r| ==> p(r[i])
  {
    if |s| == 0 then []
    else Filter(p, s[..|s| - 1]) + (if p(s[|s| - 1]) then [s[|s| - 1]] else [])
  }

  /** Filter keeps exactly the elements that satisfy `p`: whatever it returns
      comes from `s`, and every element of `s` satisfying `p` is returned. */
  lemma {:induction false} FilterMembers<T>(p: T -> bool, s: seq<T>)
    ensures forall i :: 0 <= i < |Filter(p, s)| ==> Filter(p, s)[i] in s
    ensures forall i :: 0 <= i < |s| && p(s[i]) ==> s[i] in Filter(p, s)
    decreases |s|
  {
    if |s| > 0 {
      var init := s[..|s| - 1];
      FilterMembers(p, init);
      assert s == init + [s[|s| - 1]];
      forall i | 0 <= i < |s| && p(s[i]) ensures s[i] in Filter(p, s) {
        if i < |init| {
          assert s[i] == init[i];
        }
      }
    }
  }

  /** The positions of the elements of `s` that satisfy `p`, ascending. */
  function Positions<T>(p: T -> bool, s: seq<T>): seq<nat>
  {
    if |s| == 0 then []
    else Positions(p, s[..|s| - 1]) + (if p(s[|s| - 1]) then [|s| - 1] else [])
  }

  /** `r` is `s` read at the strictly increasing positions `idx`, and `idx`
      holds exactly the positions whose element satisfies `keep`: `r` is `s`
      with the other elements removed, order and repetitions kept. */
  ghost predicate SelectedInOrder<T>(r: seq<T>, s: seq<T>, idx: seq<nat>, keep: T -> bool)
  {
    |idx| == |r|
    && (forall k :: 0 <= k < |idx| ==> idx[k] < |s| && r[k] == s[idx[k]])
    && (forall k, l :: 0 <= k < l < |idx| ==> idx[k] < idx[l])
    && (forall j :: 0 <= j < |s| ==> (j in idx <==> keep(s[j])))
  }

  /** Filter removes the elements failing `p` and nothing else, keeping the
      order and the repetitions of the rest. */
  lemma {:induction false} FilterInOrder<T>(p: T -> bool, s: seq<T>)
    ensures SelectedInOrder(Filter(p, s), s, Positions(p, s), p)
    decreases |s|
  {
    if |s| > 0 {
      var init := s[..|s| - 1];
      FilterInOrder(p, init);
      var idx := Positions(p, s);
      forall j | 0 <= j < |s| ensures j in idx <==> p(s[j]) {
        if j < |init| {
          assert s[j] == init[j];
        }
      }
    }
  }

  /** Array.prototype.map. */
  function Map<A, B>(f: A -> B, s: seq<A>): (r: seq<B>)
    ensures |r| == |s|
  {
    seq(|s|, i requires 0 <= i < |s| => f(s[i]))
  }

  /** Array.prototype.slice(0, n). */
  function Take<T>(s: seq<T>, n: nat): (r: seq<T>)
    ensures |r| == if |s| <= n then |s| else n
    ensures forall i :: 0 <= i < |r| ==> r[i] == s[i]
  {
    if |s| <= n then s else s[..n]
  }

  /** `s.map((x) => (idOf(x) === id ? g(x) : x))`: applies `g` to the
      elements with the given id and keeps the others. */
  /** The number of positions of `s` where `p` holds. */
  ghost function CountWhere<T>(p: T -> bool, s: seq<T>): nat
  {
    |set i | 0 <= i < |s| && p(s[i])|
  }

  /** Filter keeps one element per position where `p` holds: its length is
      the number of such positions. */
  lemma {:induction false} FilterCount<T>(p: T -> bool, s: seq<T>)
    ensures |Filter(p, s)| == CountWhere(p, s)
    decreases |s|
  {
    if |s| > 0 {
      var n := |s| - 1;
      var init := s[..n];
      FilterCount(p, init);
      var before := set i | 0 <= i < |init| && p(init[i]);
      var after := set i | 0 <= i < |s| && p(s[i]);
      assert forall i :: 0 <= i < n ==> init[i] == s[i];
      if p(s[n]) {
        assert after == before + {n};
        assert n !in before;
      } else {
        assert after == before;
      }
    }
  }

  function UpdateWhere<T>(s: seq<T>, idOf: T -> string, id: string, g: T -> T): (r: seq<T>)
    ensures |r| == |s|
    ensures forall i :: 0 <= i < |s| ==> r[i] == if idOf(s[i]) == id then g(s[i]) else s[i]
  {
    seq(|s|, i requires 0 <= i < |s| => if idOf(s[i]) == id then g(s[i]) else s[i])
  }

  /** No element occurs twice. */
  predicate Distinct<T(==)>(s: seq<T>)
  {
    forall i, j :: 0 <= i < j < |s| ==> s[i] != s[j]
  }

  /** Set.prototype.delete on an insertion-ordered set: drops the first occurrence of `x`. */
  function RemoveFirst<T(==)>(s: seq<T>, x: T): (r: seq<T>)
    ensures x !in s ==> r == s
    ensures x in s ==> |r| == |s| - 1
  {
    if |s| == 0 then []
    else if s[0] == x then s[1..]
    else [s[0]] + RemoveFirst(s[1..], x)
  }

  /** Removing the first `x` keeps every other element and adds none. */
  lemma {:induction false} RemoveFirstMembers<T>(s: seq<T>, x: T)
    ensures forall i :: 0 <= i < |RemoveFirst(s, x)| ==> RemoveFirst(s, x)[i] in s
    ensures forall i :: 0 <= i < |s| && s[i] != x ==> s[i] in RemoveFirst(s, x)
    decreases |s|
  {
    if |s| > 0 && s[0] != x {
      RemoveFirstMembers(s[1..], x);
      forall i | 0 <= i < |s| && s[i] != x ensures s[i] in RemoveFirst(s, x) {
        if i > 0 {
          assert s[i] == s[1..][i - 1];
        }
      }
    }
  }

  lemma {:induction false} FilterAppend<T>(p: T -> bool, a: seq<T>, b: seq<T>)
    ensures Filter(p, a + b) == Filter(p, a) + Filter(p, b)
    decreases |b|
  {
    if |b| == 0 {
      assert a + b == a;
    } else {
      var b' := b[..|b| - 1];
      assert (a + b)[..|a + b| - 1] == a + b';
      assert (a + b)[|a + b| - 1] == b[|b| - 1];
      FilterAppend(p, a, b');
    }
  }

  /** Filtering with a predicate every element satisfies changes nothing. */
  lemma {:induction false} FilterAll<T>(p: T -> bool, s: seq<T>)
    requires forall i :: 0 <= i < |s| ==> p(s[i])
    ensures Filter(p, s) == s
    decreases |s|
  {
    if |s| > 0 {
      FilterAll(p, s[..|s| - 1]);
      assert s[..|s| - 1] + [s[|s| - 1]] == s;
    }
  }

  /** Filtering with a predicate no element satisfies leaves nothing. */
  lemma {:induction false} FilterNone<T>(p: T -> bool, s: seq<T>)
    requires forall i :: 0 <= i < |s| ==> !p(s[i])
    ensures Filter(p, s) == []
    decreases |s|
  {
    if |s| > 0 {
      FilterNone(p, s[..|s| - 1]);
    }
  }

  lemma MapAppend<A, B>(f: A -> B, a: seq<A>, b: seq<A>)
    ensures Map(f, a + b) == Map(f, a) + Map(f, b)
  {
  }

  /** The predicate "differs from x", as a function value for Filter. */
  function Other<T(==)>(x: T): T -> bool
  {
    y => y != x
  }

  lemma DistinctTail<T>(s: seq<T>)
    requires |s| > 0 && Distinct(s)
    ensures Distinct(s[1..]) && s[0] !in s[1..]
  {
  }

  /** Filtering out an element that does not occur changes nothing. */
  lemma FilterOtherAbsent<T>(s: seq<T>, x: T)
    requires x !in s
    ensures Filter(Other(x), s) == s
  {
    forall i | 0 <= i < |s| ensures Other(x)(s[i]) {
      assert s[i] in s;
    }
    FilterAll(Other(x), s);
  }

  lemma FilterCons<T>(p: T -> bool, y: T, t: seq<T>)
    ensures Filter(p, [y] + t) == (if p(y) then [y] else []) + Filter(p, t)
  {
    FilterAppend(p, [y], t);
    assert [y][..0] == [];
    assert Filter(p, [y]) == (if p(y) then [y] else []);
  }

  /** With no repeated element, deleting the first occurrence is the same as
      filtering every occurrence out. */
  lemma {:induction false} RemoveFirstIsFilter<T>(s: seq<T>, x: T)
    requires Distinct(s)
    ensures RemoveFirst(s, x) == Filter(Other(x), s)
    decreases |s|
  {
    if |s| > 0 {
      var t := s[1..];
      DistinctTail(s);
      assert s == [s[0]] + t;
      FilterCons(Other(x), s[0], t);
      if s[0] == x {
        FilterOtherAbsent(t, x);
      } else {
        RemoveFirstIsFilter(t, x);
      }
    }
  }

  /** Filtering keeps a list free of repetitions. */
  lemma {:induction false} FilterDistinct<T>(p: T -> bool, s: seq<T>)
    requires Distinct(s)
    ensures Distinct(Filter(p, s))
    decreases |s|
  {
    if |s| > 0 {
      var init := s[..|s| - 1];
      var last := s[|s| - 1];
      FilterDistinct(p, init);
      FilterMembers(p, init);
    }
  }

  /** Filter returns the whole list only when every element satisfies `p`. */
  lemma {:induction false} FilterKeepsAll<T>(p: T -> bool, s: seq<T>)
    requires |Filter(p, s)| == |s|
    ensures forall i :: 0 <= i < |s| ==> p(s[i])
    decreases |s|
  {
    if |s| > 0 {
      var init := s[..|s| - 1];
      assert p(s[|s| - 1]);
      FilterKeepsAll(p, init);
      forall i | 0 <= i < |s| ensures p(s[i]) {
        if i < |init| {
          assert s[i] == init[i];
        }
      }
    }
  }
}
