/** Small shared vocabulary: optional values, results, JSON-like payload
    values and the two collection idioms the engine uses everywhere --
    `Array.prototype.filter` over a log and "reduce into an object keyed by
    a field" (later entries overwrite earlier ones). */
module Base {

  datatype Option<+T> = None | Some(value: T)

  datatype Result<+T, +E> = Ok(value: T) | Err(error: E)

  /** A message payload. JavaScript numbers are modelled as integers. */
  datatype Value = Null | Bool(b: bool) | Num(n: int) | Str(s: string)

  /** The elements of `xs` that satisfy `p`, in their original order. */
  function Select<T>(xs: seq<T>, p: T -> bool): (r: seq<T>)
    ensures |r| <= |xs|
    ensures forall x :: x in r ==> x in xs && p(x)
    ensures forall x :: x in xs && p(x) ==> x in r
  {
    if |xs| == 0 then []
    else Select(xs[..|xs| - 1], p) + (if p(xs[|xs| - 1]) then [xs[|xs| - 1]] else [])
  }

  lemma LastSplit<T>(xs: seq<T>)
    requires |xs| > 0
    ensures xs == xs[..|xs| - 1] + [xs[|xs| - 1]]
  {
  }

  lemma SelectSnoc<T>(xs: seq<T>, x: T, p: T -> bool)
    ensures Select(xs + [x], p) == Select(xs, p) + (if p(x) then [x] else [])
  {
    assert (xs + [x])[..|xs|] == xs;
  }

  /** Filtering with two predicates that agree on the elements gives the
      same sequence. */
  lemma {:induction false} SelectExt<T>(xs: seq<T>, p: T -> bool, q: T -> bool)
    requires forall x :: x in xs ==> p(x) == q(x)
    ensures Select(xs, p) == Select(xs, q)
  {
    if |xs| > 0 {
      var n := |xs| - 1;
      forall x | x in xs[..n] ensures p(x) == q(x) {
        var i :| 0 <= i < n && xs[..n][i] == x;
        assert xs[i] == x;
      }
      SelectExt(xs[..n], p, q);
    }
  }

  /** A filter every element passes keeps the whole sequence. */
  lemma {:induction false} SelectKeepsAll<T>(xs: seq<T>, p: T -> bool)
    requires forall x :: x in xs ==> p(x)
    ensures Select(xs, p) == xs
  {
    if |xs| > 0 {
      var n := |xs| - 1;
      LastSplit(xs);
      assert forall x :: x in xs[..n] ==> x in xs;
      SelectKeepsAll(xs[..n], p);
    }
  }

  /** Filtering twice is filtering once with the conjunction. */
  lemma {:induction false} SelectOfSelect<T>(xs: seq<T>, p: T -> bool, q: T -> bool, both: T -> bool)
    requires forall x :: x in xs ==> both(x) == (p(x) && q(x))
    ensures Select(Select(xs, p), q) == Select(xs, both)
  {
    if |xs| > 0 {
      var n := |xs| - 1;
      var front, last := xs[..n], xs[n];
      forall x | x in front ensures both(x) == (p(x) && q(x)) {
        var i :| 0 <= i < n && front[i] == x;
        assert xs[i] == x;
      }
      SelectOfSelect(front, p, q, both);
      var sp := Select(front, p);
      LastSplit(xs);
      SelectSnoc(front, last, p);
      SelectSnoc(front, last, both);
      if p(last) {
        SelectSnoc(sp, last, q);
      } else {
        assert Select(xs, p) == sp;
      }
    }
  }

  /** A filter that fails on the first `k` elements and holds on the rest
      keeps exactly the suffix from `k`. */
  lemma {:induction false} SelectSuffix<T>(xs: seq<T>, p: T -> bool, k: nat)
    requires k <= |xs|
    requires forall j :: 0 <= j < |xs| ==> p(xs[j]) == (j >= k)
    ensures Select(xs, p) == xs[k..]
  {
    if |xs| > 0 {
      var n := |xs| - 1;
      var front := xs[..n];
      if n >= k {
        forall j | 0 <= j < |front| ensures p(front[j]) == (j >= k) {
          assert front[j] == xs[j];
        }
        SuffixSnoc(xs, k);
        SelectSuffix(front, p, k);
        LastSplit(xs);
        SelectSnoc(front, xs[n], p);
      } else {
        assert !p(xs[n]);
        forall j | 0 <= j < |front| ensures p(front[j]) == (j >= n) {
          assert front[j] == xs[j];
        }
        SelectSuffix(front, p, n);
        LastSplit(xs);
        SelectSnoc(front, xs[n], p);
      }
    }
  }

  lemma SuffixSnoc<T>(xs: seq<T>, k: nat)
    requires k < |xs|
    ensures xs[..|xs| - 1][k..] + [xs[|xs| - 1]] == xs[k..]
  {
  }

  /** Filtering with a weaker predicate never keeps fewer elements. */
  lemma {:induction false} SelectMonotone<T>(xs: seq<T>, p: T -> bool, q: T -> bool)
    requires forall x :: p(x) ==> q(x)
    ensures |Select(xs, p)| <= |Select(xs, q)|
  {
    if |xs| > 0 {
      SelectMonotone(xs[..|xs| - 1], p, q);
    }
  }

  /** A longer prefix never has fewer selected elements; one more selected
      element at position `i` adds one. */
  lemma {:induction false} SelectPrefixGrows<T>(xs: seq<T>, p: T -> bool, i: nat, j: nat)
    requires i < j <= |xs|
    requires p(xs[i])
    ensures |Select(xs[..i], p)| < |Select(xs[..j], p)|
  {
    if j == i + 1 {
      assert xs[..j] == xs[..i] + [xs[i]];
      SelectSnoc(xs[..i], xs[i], p);
    } else {
      SelectPrefixGrows(xs, p, i, j - 1);
      assert xs[..j] == xs[..j - 1] + [xs[j - 1]];
      SelectSnoc(xs[..j - 1], xs[j - 1], p);
    }
  }

  /** Any pairwise relation that holds between selected elements in `xs`
      order still holds, in order, in the selection. */
  lemma {:induction false} SelectKeepsOrder<T>(xs: seq<T>, p: T -> bool, rel: (T, T) -> bool)
    requires forall i, j :: 0 <= i < j < |xs| && p(xs[i]) && p(xs[j]) ==> rel(xs[i], xs[j])
    ensures forall i, j :: 0 <= i < j < |Select(xs, p)| ==> rel(Select(xs, p)[i], Select(xs, p)[j])
  {
    if |xs| > 0 {
      var n := |xs| - 1;
      var front := xs[..n];
      assert forall i, j :: 0 <= i < j < |front| && p(front[i]) && p(front[j]) ==> rel(front[i], front[j]) by {
        forall i, j | 0 <= i < j < |front| && p(front[i]) && p(front[j])
          ensures rel(front[i], front[j])
        {
          assert front[i] == xs[i] && front[j] == xs[j];
        }
      }
      SelectKeepsOrder(front, p, rel);
      var s := Select(front, p);
      if p(xs[n]) {
        assert Select(xs, p) == s + [xs[n]];
        forall i | 0 <= i < |s|
          ensures rel(s[i], xs[n])
        {
          assert s[i] in front;
          var a :| 0 <= a < |front| && front[a] == s[i];
          assert xs[a] == s[i];
        }
        OrderedSnoc(s, xs[n], rel);
      } else {
        assert Select(xs, p) == s;
      }
    }
  }

  /** Appending an element every earlier one relates to keeps a sequence
      pairwise ordered. */
  lemma OrderedSnoc<T>(s: seq<T>, x: T, rel: (T, T) -> bool)
    requires forall i, j :: 0 <= i < j < |s| ==> rel(s[i], s[j])
    requires forall i :: 0 <= i < |s| ==> rel(s[i], x)
    ensures forall i, j :: 0 <= i < j < |s + [x]| ==> rel((s + [x])[i], (s + [x])[j])
  {
    forall i, j | 0 <= i < j < |s + [x]|
      ensures rel((s + [x])[i], (s + [x])[j])
    {
      if j < |s| {
        assert (s + [x])[i] == s[i] && (s + [x])[j] == s[j];
      } else {
        assert (s + [x])[i] == s[i] && (s + [x])[j] == x;
      }
    }
  }

  /** The positions in `xs` of the elements `Select(xs, p)` keeps. */
  ghost function Positions<T>(xs: seq<T>, p: T -> bool): (pos: seq<nat>)
    ensures forall j :: 0 <= j < |pos| ==> pos[j] < |xs|
  {
    if |xs| == 0 then []
    else Positions(xs[..|xs| - 1], p) + (if p(xs[|xs| - 1]) then [|xs| - 1] else [])
  }

  lemma {:induction false} PositionsLocate<T>(xs: seq<T>, p: T -> bool)
    ensures |Positions(xs, p)| == |Select(xs, p)|
    ensures forall j :: 0 <= j < |Positions(xs, p)| ==> xs[Positions(xs, p)[j]] == Select(xs, p)[j]
  {
    if |xs| > 0 {
      var n := |xs| - 1;
      var front := xs[..n];
      PositionsLocate(front, p);
      LastSplit(xs);
      SelectSnoc(front, xs[n], p);
      var prev := Positions(front, p);
      var pos := Positions(xs, p);
      var sel := Select(xs, p);
      forall j | 0 <= j < |pos| ensures xs[pos[j]] == sel[j] {
        if j < |prev| {
          assert pos[j] == prev[j] && sel[j] == Select(front, p)[j];
          assert xs[prev[j]] == front[prev[j]];
        }
      }
    }
  }

  lemma {:induction false} PositionsIncrease<T>(xs: seq<T>, p: T -> bool)
    ensures forall a, b :: 0 <= a < b < |Positions(xs, p)| ==> Positions(xs, p)[a] < Positions(xs, p)[b]
  {
    if |xs| > 0 {
      var n := |xs| - 1;
      var prev := Positions(xs[..n], p);
      PositionsIncrease(xs[..n], p);
      if p(xs[n]) {
        assert Positions(xs, p) == prev + [n];
        IncreasingSnoc(prev, n);
      } else {
        assert Positions(xs, p) == prev;
      }
    }
  }

  /** Appending a number above every element keeps a sequence increasing. */
  lemma IncreasingSnoc(s: seq<nat>, x: nat)
    requires forall a, b :: 0 <= a < b < |s| ==> s[a] < s[b]
    requires forall a :: 0 <= a < |s| ==> s[a] < x
    ensures forall a, b :: 0 <= a < b < |s + [x]| ==> (s + [x])[a] < (s + [x])[b]
  {
    forall a, b | 0 <= a < b < |s + [x]|
      ensures (s + [x])[a] < (s + [x])[b]
    {
      assert (s + [x])[a] == s[a];
    }
  }

  lemma {:induction false} PositionsCover<T>(xs: seq<T>, p: T -> bool, i: nat) returns (j: nat)
    requires i < |xs| && p(xs[i])
    ensures j < |Positions(xs, p)| && Positions(xs, p)[j] == i
  {
    var n := |xs| - 1;
    var prev := Positions(xs[..n], p);
    var tail := if p(xs[n]) then [n] else [];
    assert Positions(xs, p) == prev + tail;
    if i < n {
      assert xs[..n][i] == xs[i];
      j := PositionsCover(xs[..n], p, i);
      IndexInFront(prev, tail, j);
    } else {
      j := |prev|;
    }
  }

  lemma IndexInFront<T>(a: seq<T>, b: seq<T>, j: nat)
    requires j < |a|
    ensures (a + b)[j] == a[j]
  {
  }

  /** Where each selected element came from: strictly increasing positions
      in `xs`, covering every position whose element passes. */
  lemma SelectPositions<T>(xs: seq<T>, p: T -> bool) returns (pos: seq<nat>)
    ensures |pos| == |Select(xs, p)|
    ensures forall j :: 0 <= j < |pos| ==> pos[j] < |xs| && xs[pos[j]] == Select(xs, p)[j]
    ensures forall a, b :: 0 <= a < b < |pos| ==> pos[a] < pos[b]
    ensures forall i :: 0 <= i < |xs| && p(xs[i]) ==> exists j :: 0 <= j < |pos| && pos[j] == i
  {
    pos := Positions(xs, p);
    PositionsLocate(xs, p);
    PositionsIncrease(xs, p);
    forall i | 0 <= i < |xs| && p(xs[i]) ensures exists j :: 0 <= j < |pos| && pos[j] == i {
      var j := PositionsCover(xs, p, i);
    }
  }

  /** A predicate recognising the elements whose key is `k`. */
  ghost function KeyIs<T, K>(key: T -> K, k: K): T -> bool {
    x => key(x) == k
  }

  /** Every element is stamped with `base` plus the number of earlier
      elements that share its key. */
  ghost predicate StampedByKey<T, K>(xs: seq<T>, key: T -> K, stamp: T -> int, base: int) {
    forall i :: 0 <= i < |xs| ==> stamp(xs[i]) == base + |Select(xs[..i], KeyIs(key, key(xs[i])))|
  }

  lemma StampedByKeyPrefix<T, K>(xs: seq<T>, key: T -> K, stamp: T -> int, base: int, n: nat)
    requires StampedByKey(xs, key, stamp, base) && n <= |xs|
    ensures StampedByKey(xs[..n], key, stamp, base)
  {
    forall i | 0 <= i < n
      ensures stamp(xs[..n][i]) == base + |Select(xs[..n][..i], KeyIs(key, key(xs[..n][i])))|
    {
      assert xs[..n][i] == xs[i];
      assert xs[..n][..i] == xs[..i];
    }
  }

  lemma StampOf<T, K>(xs: seq<T>, key: T -> K, stamp: T -> int, base: int, i: nat)
    requires StampedByKey(xs, key, stamp, base) && i < |xs|
    ensures stamp(xs[i]) == base + |Select(xs[..i], KeyIs(key, key(xs[i])))|
  {
  }

  /** Such stamping numbers each key's elements consecutively: the j-th
      element with key `k` carries `base + j`. */
  lemma {:induction false} StampsConsecutive<T, K>(xs: seq<T>, key: T -> K, stamp: T -> int, base: int, k: K)
    requires StampedByKey(xs, key, stamp, base)
    ensures forall j :: 0 <= j < |Select(xs, KeyIs(key, k))| ==> stamp(Select(xs, KeyIs(key, k))[j]) == base + j
  {
    if |xs| > 0 {
      var n := |xs| - 1;
      var front := xs[..n];
      StampedByKeyPrefix(xs, key, stamp, base, n);
      StampsConsecutive(front, key, stamp, base, k);
      var p := KeyIs(key, k);
      var s := Select(front, p);
      LastSplit(xs);
      SelectSnoc(front, xs[n], p);
      var all := Select(xs, p);
      if p(xs[n]) {
        StampOf(xs, key, stamp, base, n);
        assert xs[..n] == front;
        assert KeyIs(key, key(xs[n])) == p;
        assert all == s + [xs[n]];
        forall j | 0 <= j < |all|
          ensures stamp(all[j]) == base + j
        {
          if j < |s| {
            assert all[j] == s[j];
          } else {
            assert all[j] == xs[n];
          }
        }
      } else {
        assert all == s;
      }
    }
  }

  /** Under the same stamping, two elements with equal keys are stamped in
      strictly increasing order. */
  lemma StampsIncrease<T, K>(xs: seq<T>, key: T -> K, stamp: T -> int, base: int, i: nat, j: nat)
    requires StampedByKey(xs, key, stamp, base)
    requires i < j < |xs| && key(xs[i]) == key(xs[j])
    ensures stamp(xs[i]) < stamp(xs[j])
  {
    SelectPrefixGrows(xs, KeyIs(key, key(xs[j])), i, j);
  }

  /** The result of reducing `xs` into an object keyed by `key(x)`: every
      key present, and each key bound to the LAST element that has it. */
  function IndexBy<T>(xs: seq<T>, key: T -> string): (r: map<string, T>)
    ensures r.Keys == set x | x in xs :: key(x)
    ensures forall i :: 0 <= i < |xs| && IsLastWithKey(xs, key, i) ==> r[key(xs[i])] == xs[i]
  {
    if |xs| == 0 then map[]
    else
      var prev := IndexBy(xs[..|xs| - 1], key);
      assert forall i :: 0 <= i < |xs| - 1 ==> xs[..|xs| - 1][i] == xs[i];
      IndexByStep(xs, key, prev);
      prev[key(xs[|xs| - 1]) := xs[|xs| - 1]]
  }

  lemma IndexBySnoc<T>(xs: seq<T>, x: T, key: T -> string)
    ensures IndexBy(xs + [x], key) == IndexBy(xs, key)[key(x) := x]
  {
    assert (xs + [x])[..|xs|] == xs;
  }

  /** One reduction step of `IndexBy`: binding the last element's key to it
      keeps the "last element wins" property. */
  lemma IndexByStep<T>(xs: seq<T>, key: T -> string, prev: map<string, T>)
    requires |xs| > 0
    requires prev.Keys == set x | x in xs[..|xs| - 1] :: key(x)
    requires forall i :: 0 <= i < |xs| - 1 && IsLastWithKey(xs[..|xs| - 1], key, i) ==> prev[key(xs[i])] == xs[i]
    ensures var r := prev[key(xs[|xs| - 1]) := xs[|xs| - 1]];
      && r.Keys == (set x | x in xs :: key(x))
      && forall i :: 0 <= i < |xs| && IsLastWithKey(xs, key, i) ==> r[key(xs[i])] == xs[i]
  {
    var n := |xs| - 1;
    var front := xs[..n];
    var r := prev[key(xs[n]) := xs[n]];
    assert xs == front + [xs[n]];
    forall i | 0 <= i < |xs| && IsLastWithKey(xs, key, i)
      ensures r[key(xs[i])] == xs[i]
    {
      if i < n {
        assert key(xs[n]) != key(xs[i]);
        assert front[i] == xs[i];
        assert IsLastWithKey(front, key, i) by {
          forall j | i < j < |front| ensures key(front[j]) != key(front[i]) {
            assert front[j] == xs[j];
          }
        }
      }
    }
  }

  /** Indexing a selection by key: an element that passes `p` and that no
      later passing element shares a key with is what its key is bound to. */
  lemma SelectedLastWithKey<T>(xs: seq<T>, p: T -> bool, key: T -> string, i: nat)
    requires i < |xs| && p(xs[i])
    requires forall j :: i < j < |xs| && p(xs[j]) ==> key(xs[j]) != key(xs[i])
    ensures key(xs[i]) in IndexBy(Select(xs, p), key)
    ensures IndexBy(Select(xs, p), key)[key(xs[i])] == xs[i]
  {
    var sel := Select(xs, p);
    var pos := Positions(xs, p);
    PositionsLocate(xs, p);
    PositionsIncrease(xs, p);
    var k := PositionsCover(xs, p, i);
    assert sel[k] == xs[i];
    assert IsLastWithKey(sel, key, k) by {
      forall j | k < j < |sel| ensures key(sel[j]) != key(sel[k]) {
        assert sel[j] in sel;
        assert xs[pos[j]] == sel[j] && pos[k] < pos[j];
      }
    }
  }

  /** No element after position `i` shares its key. */
  predicate IsLastWithKey<T>(xs: seq<T>, key: T -> string, i: nat)
    requires i < |xs|
  {
    forall j :: i < j < |xs| ==> key(xs[j]) != key(xs[i])
  }

  /** Every key has a last occurrence, so `IndexBy` binds each of its keys to
      one of the indexed elements. */
  lemma {:induction false} LastWithKeyExists<T>(xs: seq<T>, key: T -> string, i: nat)
    returns (last: nat)
    requires i < |xs|
    ensures i <= last < |xs| && key(xs[last]) == key(xs[i]) && IsLastWithKey(xs, key, last)
    decreases |xs| - i
  {
    if IsLastWithKey(xs, key, i) {
      last := i;
    } else {
      var j :| i < j < |xs| && key(xs[j]) == key(xs[i]);
      last := LastWithKeyExists(xs, key, j);
    }
  }
}
