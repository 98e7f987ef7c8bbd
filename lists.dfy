/** Generic sequence helpers: Python's `reversed`, `list.extend` over several lists, and
    the subsequence relation that order-preserving filters satisfy. */
module Lists {

  /** `list(reversed(s))`. */
  function Reversed<T>(s: seq<T>): (r: seq<T>)
    ensures |r| == |s|
    ensures forall i :: 0 <= i < |s| ==> r[i] == s[|s| - 1 - i]
  {
    if s == [] then [] else Reversed(s[1..]) + [s[0]]
  }

  /** The concatenation of a sequence of sequences, in order. */
  function Flatten<T>(ss: seq<seq<T>>): seq<T> {
    if ss == [] then [] else ss[0] + Flatten(ss[1..])
  }

  lemma {:induction false} FlattenAppend<T>(ss: seq<seq<T>>, s: seq<T>)
    ensures Flatten(ss + [s]) == Flatten(ss) + s
  {
    if ss == [] {
      assert [] + [s] == [s];
    } else {
      assert (ss + [s])[1..] == ss[1..] + [s];
      FlattenAppend(ss[1..], s);
    }
  }

  /** `sub` can be obtained from `s` by deleting elements, keeping the order of the rest. */
  predicate IsSubsequence<T(==)>(sub: seq<T>, s: seq<T>)
    decreases |s|
  {
    if sub == [] then true
    else if s == [] then false
    else if sub[0] == s[0] then IsSubsequence(sub[1..], s[1..])
    else IsSubsequence(sub, s[1..])
  }

  /** Every element of a subsequence is an element of the sequence. */
  lemma {:induction false} SubsequenceMembers<T>(sub: seq<T>, s: seq<T>)
    requires IsSubsequence(sub, s)
    ensures forall i :: 0 <= i < |sub| ==> sub[i] in s
    decreases |s|
  {
    if sub != [] && s != [] {
      if sub[0] == s[0] {
        SubsequenceMembers(sub[1..], s[1..]);
        forall i | 0 <= i < |sub| ensures sub[i] in s {
          if i > 0 {
            assert sub[i] == sub[1..][i - 1];
            assert sub[i] in s[1..];
          }
        }
      } else {
        SubsequenceMembers(sub, s[1..]);
        forall i | 0 <= i < |sub| ensures sub[i] in s {
          assert sub[i] in s[1..];
        }
      }
    }
  }

  lemma {:induction false} SubsequenceOfItself<T>(s: seq<T>)
    ensures IsSubsequence(s, s)
  {
    if s != [] {
      SubsequenceOfItself(s[1..]);
    }
  }

  /** `[x for x in s if keep(x)]`: the kept elements, in their original order. */
  function Filter<T(==)>(s: seq<T>, keep: T -> bool): seq<T> {
    if s == [] then []
    else if keep(s[0]) then [s[0]] + Filter(s[1..], keep)
    else Filter(s[1..], keep)
  }

  /** A filter keeps only elements that pass, keeps every element that passes, and keeps
      them in order. */
  lemma {:induction false} FilterProperties<T>(s: seq<T>, keep: T -> bool)
    ensures var r := Filter(s, keep);
            |r| <= |s|
            && (forall i :: 0 <= i < |r| ==> keep(r[i]))
            && (forall i :: 0 <= i < |s| && keep(s[i]) ==> s[i] in r)
            && IsSubsequence(r, s)
            && (forall i :: 0 <= i < |r| ==> r[i] in s)
  {
    var r := Filter(s, keep);
    if s != [] {
      var rest := Filter(s[1..], keep);
      FilterProperties(s[1..], keep);
      if keep(s[0]) {
        assert r == [s[0]] + rest && r[1..] == rest;
        forall i | 0 <= i < |r| ensures keep(r[i]) {
          if i > 0 { assert r[i] == rest[i - 1]; }
        }
      }
      forall i | 0 <= i < |s| && keep(s[i]) ensures s[i] in r {
        if i > 0 { assert s[i] == s[1..][i - 1]; }
      }
    }
    SubsequenceMembers(r, s);
  }

  /** Filtering a list extended by one element extends the filtered list by that element
      when it passes. */
  lemma {:induction false} FilterAppend<T>(s: seq<T>, x: T, keep: T -> bool)
    ensures Filter(s + [x], keep) == Filter(s, keep) + (if keep(x) then [x] else [])
  {
    if s == [] {
      assert [] + [x] == [x];
      assert [x][1..] == [];
    } else {
      assert (s + [x])[0] == s[0];
      assert (s + [x])[1..] == s[1..] + [x];
      FilterAppend(s[1..], x, keep);
    }
  }

  /** The positions of the elements that pass. */
  function KeptIndices<T>(s: seq<T>, keep: T -> bool): set<int> {
    set i | 0 <= i < |s| && keep(s[i])
  }

  /** Extending a list by one element adds its position when it passes, and nothing else. */
  lemma KeptIndicesAppend<T>(s: seq<T>, x: T, keep: T -> bool)
    ensures KeptIndices(s + [x], keep) == KeptIndices(s, keep) + (if keep(x) then {|s|} else {})
  {
    var t := s + [x];
    forall i ensures i in KeptIndices(t, keep) <==> i in KeptIndices(s, keep) + (if keep(x) then {|s|} else {}) {
      if 0 <= i < |s| {
        assert t[i] == s[i];
      }
    }
  }

  /** A filter keeps exactly one element per passing position: none is dropped, none is
      repeated. */
  lemma {:induction false} FilterLength<T>(s: seq<T>, keep: T -> bool)
    ensures |Filter(s, keep)| == |KeptIndices(s, keep)|
  {
    if s == [] {
      assert KeptIndices(s, keep) == {};
    } else {
      var init, last := s[..|s| - 1], s[|s| - 1];
      assert s == init + [last];
      FilterAppend(init, last, keep);
      FilterLength(init, keep);
      KeptIndicesAppend(init, last, keep);
      assert |init| !in KeptIndices(init, keep);
    }
  }
}
