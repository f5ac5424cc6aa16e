/** The sequence operations the cart operations are built from: looking a product
    up by id (`findIndex`), removing one line (`splice(i, 1)`) and rewriting the
    amount of one line in place, with the facts about product ids they keep. */
module CartSeq {
  import opened Types

  /** Some line of `s` carries product `id`. */
  predicate HasId(s: seq<Product>, id: int)
  {
    exists k :: 0 <= k < |s| && s[k].id == id
  }

  /** No product id occurs on two lines of `s`. */
  predicate DistinctIds(s: seq<Product>)
  {
    forall i, j :: 0 <= i < j < |s| ==> s[i].id != s[j].id
  }

  /** The index of the first line with product `id`, or -1 when there is none. */
  function FindIndex(s: seq<Product>, id: int): (r: int)
    ensures -1 <= r < |s|
    ensures r == -1 <==> !HasId(s, id)
    ensures r >= 0 ==> s[r].id == id && forall k :: 0 <= k < r ==> s[k].id != id
  {
    if s == [] then -1
    else if s[0].id == id then 0
    else
      var t := FindIndex(s[1..], id);
      assert forall k :: 1 <= k < |s| ==> s[k] == s[1..][k - 1];
      if t == -1 then -1 else t + 1
  }

  /** `s` with its line `i` taken out and the other lines in their order. */
  function Splice(s: seq<Product>, i: nat): (r: seq<Product>)
    requires i < |s|
    ensures |r| == |s| - 1
    ensures forall j :: 0 <= j < i ==> r[j] == s[j]
    ensures forall j :: i <= j < |r| ==> r[j] == s[j + 1]
    ensures multiset(r) + multiset{s[i]} == multiset(s)
  {
    assert s == s[..i] + [s[i]] + s[i + 1..];
    s[..i] + s[i + 1..]
  }

  /** `after` is `before` with the amount of line `i` set to `n`: same length,
      same order, line `i` differs from before at most in its amount, and every
      other line is untouched. */
  ghost predicate AmountSetAt(before: seq<Product>, after: seq<Product>, i: int, n: int)
  {
    0 <= i < |before| && |after| == |before| &&
    after[i] == before[i].(amount := n) &&
    forall j :: 0 <= j < |before| && j != i ==> after[j] == before[j]
  }

  /** Every id other than `id` is in `after` exactly when it is in `before`. */
  ghost predicate OtherIdsKept(before: seq<Product>, after: seq<Product>, id: int)
  {
    forall x :: x != id ==> (HasId(after, x) <==> HasId(before, x))
  }

  /** With distinct ids, the line carrying `id` is the one `FindIndex` returns. */
  lemma FindIndexUnique(s: seq<Product>, k: int)
    requires DistinctIds(s) && 0 <= k < |s|
    ensures FindIndex(s, s[k].id) == k
  {
  }

  /** Changing an amount leaves every id on its line, so every lookup gives the
      same index afterwards and distinctness is kept. */
  lemma AmountSetKeepsLookup(before: seq<Product>, after: seq<Product>, i: int, n: int, id: int)
    requires AmountSetAt(before, after, i, n)
    ensures FindIndex(after, id) == FindIndex(before, id)
    ensures DistinctIds(before) ==> DistinctIds(after)
  {
  }

  /** Taking out the first line with `id` drops exactly that line: if ids were
      distinct, `id` is gone, they stay distinct, and every other id is in the
      cart afterwards exactly when it was before. */
  lemma {:induction false} SpliceFirstMatch(s: seq<Product>, id: int)
    requires HasId(s, id)
    ensures OtherIdsKept(s, Splice(s, FindIndex(s, id)), id)
    ensures DistinctIds(s) ==> DistinctIds(Splice(s, FindIndex(s, id))) && !HasId(Splice(s, FindIndex(s, id)), id)
  {
    var i := FindIndex(s, id);
    var r := Splice(s, i);
    forall x | x != id
      ensures HasId(r, x) <==> HasId(s, x)
    {
      if HasId(s, x) {
        var k :| 0 <= k < |s| && s[k].id == x;
        assert k != i;
        if k < i { assert r[k].id == x; } else { assert r[k - 1].id == x; }
      }
      if HasId(r, x) {
        var k :| 0 <= k < |r| && r[k].id == x;
        if k < i { assert s[k].id == x; } else { assert s[k + 1].id == x; }
      }
    }
    if DistinctIds(s) {
      forall a, b | 0 <= a < b < |r|
        ensures r[a].id != r[b].id
      {
        var a', b' := if a < i then a else a + 1, if b < i then b else b + 1;
        assert r[a] == s[a'] && r[b] == s[b'] && a' < b';
      }
      forall k | 0 <= k < |r|
        ensures r[k].id != id
      {
        if k >= i { assert r[k] == s[k + 1] && s[i].id == id; }
      }
    }
  }

  /** Appending a line whose id is not in the cart keeps ids distinct, and the
      new line is where a later lookup of its id finds it. */
  lemma AppendFresh(s: seq<Product>, p: Product)
    requires !HasId(s, p.id)
    ensures FindIndex(s + [p], p.id) == |s|
    ensures DistinctIds(s) ==> DistinctIds(s + [p])
  {
    var t := s + [p];
    assert t[|s|].id == p.id;
    var r := FindIndex(t, p.id);
    forall k | 0 <= k < |s|
      ensures t[k].id != p.id
    {
      assert t[k] == s[k];
    }
    if DistinctIds(s) {
      forall a, b | 0 <= a < b < |t|
        ensures t[a].id != t[b].id
      {
        if b == |s| { assert t[a] == s[a]; }
      }
    }
  }
}
