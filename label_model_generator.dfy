/** The label-set extraction of `GenerateLabelModel`: the distinct voxel values of an
    image, sorted numerically, with the background value 0 removed, and one
    `{label, model: null}` record per remaining label. */
module LabelModelGenerator {
  import opened Wrappers

  /** `{label, model}` (the field `label` is a Dafny keyword, hence `labelValue`): a label paired with its surface model (`null` until one is made). */
  datatype LabelModel<M> = LabelModel(labelValue: int, model: Option<M>)

  predicate NoDuplicates(s: seq<int>) {
    forall i, j :: 0 <= i < j < |s| ==> s[i] != s[j]
  }

  predicate Ascending(s: seq<int>) {
    forall i, j :: 0 <= i < j < |s| ==> s[i] <= s[j]
  }

  predicate StrictlyAscending(s: seq<int>) {
    forall i, j :: 0 <= i < j < |s| ==> s[i] < s[j]
  }

  /** `Array.from(new Set(s))`: the distinct values of `s` in order of first occurrence. */
  function Distinct(s: seq<int>): (r: seq<int>)
    ensures NoDuplicates(r)
    ensures forall v :: v in r <==> v in s
    decreases |s|
  {
    if s == [] then []
    else
      var front := Distinct(s[..|s| - 1]);
      assert forall v :: v in s <==> v in s[..|s| - 1] || v == s[|s| - 1];
      if s[|s| - 1] in front then front else front + [s[|s| - 1]]
  }

  /** `s.indexOf(x)`: the first index holding `x`, or -1 when there is none. */
  function IndexOf(s: seq<int>, x: int): (i: int)
    ensures -1 <= i < |s|
    ensures i == -1 <==> x !in s
    ensures 0 <= i ==> s[i] == x && x !in s[..i]
  {
    if s == [] then -1
    else if s[0] == x then 0
    else
      var k := IndexOf(s[1..], x);
      assert s[1..][..if k < 0 then 0 else k] == s[1..if k < 0 then 1 else k + 1];
      if k == -1 then -1 else k + 1
  }

  /** `s.splice(i, 1)` on a list that is not used afterwards: `s` without its element `i`. */
  function RemoveAt(s: seq<int>, i: nat): (r: seq<int>)
    requires i < |s|
    ensures |r| == |s| - 1
    ensures forall k :: 0 <= k < i ==> r[k] == s[k]
    ensures forall k :: i <= k < |r| ==> r[k] == s[k + 1]
  {
    s[..i] + s[i + 1..]
  }

  /** The removal step of `GenerateLabelModel` (`indexOf(0)`, then `splice`): drop the first 0,
      if there is one. */
  function RemoveBackground(s: seq<int>): (r: seq<int>)
    ensures 0 !in s ==> r == s
    ensures NoDuplicates(s) ==> 0 !in r && forall v :: v != 0 ==> (v in r <==> v in s)
    ensures StrictlyAscending(s) ==> StrictlyAscending(r)
  {
    var index := IndexOf(s, 0);
    if index > -1 then
      RemoveAtElements(s, index);
      RemoveAt(s, index)
    else s
  }

  /** Removing element `i` keeps every other value, drops `s[i]` when it occurs once, and keeps
      a strictly ascending list strictly ascending. */
  lemma RemoveAtElements(s: seq<int>, i: nat)
    requires i < |s|
    ensures forall v :: v != s[i] ==> (v in RemoveAt(s, i) <==> v in s)
    ensures NoDuplicates(s) ==> s[i] !in RemoveAt(s, i)
    ensures StrictlyAscending(s) ==> StrictlyAscending(RemoveAt(s, i))
  {
    var r := RemoveAt(s, i);
    assert forall k :: 0 <= k < |r| ==> r[k] == s[if k < i then k else k + 1];
    assert forall k :: 0 <= k < |s| && k != i ==> s[k] == r[if k < i then k else k - 1];
  }

  lemma {:induction false} CountAtMostOne(s: seq<int>, x: int)
    requires NoDuplicates(s)
    ensures multiset(s)[x] <= 1
  {
    if s != [] {
      assert s == [s[0]] + s[1..];
      assert NoDuplicates(s[1..]) by {
        forall i, j | 0 <= i < j < |s[1..]| ensures s[1..][i] != s[1..][j] {
          assert s[1..][i] == s[i + 1] && s[1..][j] == s[j + 1];
        }
      }
      CountAtMostOne(s[1..], x);
      if s[0] == x {
        assert x !in s[1..];
      }
    }
  }

  /** A permutation of a list without duplicates has none either. */
  lemma NoDuplicatesPermutation(s: seq<int>, t: seq<int>)
    requires NoDuplicates(s) && multiset(s) == multiset(t)
    ensures NoDuplicates(t)
  {
    forall i, j | 0 <= i < j < |t| ensures t[i] != t[j] {
      if t[i] == t[j] {
        assert t == t[..i] + [t[i]] + t[i + 1..j] + [t[j]] + t[j + 1..];
        assert multiset(t)[t[i]] >= 2;
        CountAtMostOne(s, t[i]);
        assert false;
      }
    }
  }

  lemma AscendingDistinct(s: seq<int>)
    requires Ascending(s) && NoDuplicates(s)
    ensures StrictlyAscending(s)
  {
  }

  /** Two strictly ascending lists with the same elements are equal: the sorted,
      de-duplicated label list is determined by the set of values alone. */
  lemma {:induction false} StrictlyAscendingUnique(a: seq<int>, b: seq<int>)
    requires StrictlyAscending(a) && StrictlyAscending(b)
    requires forall v :: v in a <==> v in b
    ensures a == b
    decreases |a|
  {
    assert a != [] ==> a[0] in a && a[0] in b;
    assert b != [] ==> b[0] in b && b[0] in a;
    if a != [] && b != [] {
      // Both heads are the least element of the common set.
      assert a[0] == b[0];
      forall v ensures v in a[1..] <==> v in b[1..] {
        if v in a[1..] {
          var k :| 1 <= k < |a| && a[k] == v;
          assert v in b && v != b[0];
        }
        if v in b[1..] {
          var k :| 1 <= k < |b| && b[k] == v;
          assert v in a && v != a[0];
        }
      }
      StrictlyAscendingUnique(a[1..], b[1..]);
      assert a == [a[0]] + a[1..] && b == [b[0]] + b[1..];
    }
  }

  /** The numeric sort of `GenerateLabelModel`, `uniqueValues.sort((a, b) => a - b)`, in place. */
  method SortNumeric(a: array<int>)
    modifies a
    ensures Ascending(a[..])
    ensures multiset(a[..]) == old(multiset(a[..]))
  {
    var i := 0;
    while i < a.Length
      invariant 0 <= i <= a.Length
      invariant forall p, q :: 0 <= p < q < i ==> a[p] <= a[q]
      invariant multiset(a[..]) == old(multiset(a[..]))
    {
      var j := i;
      while j > 0 && a[j - 1] > a[j]
        invariant 0 <= j <= i
        invariant forall p, q :: 0 <= p < q <= i && p != j && q != j ==> a[p] <= a[q]
        invariant forall q :: j < q <= i ==> a[j] < a[q]
        invariant multiset(a[..]) == old(multiset(a[..]))
      {
        a[j - 1], a[j] := a[j], a[j - 1];
        j := j - 1;
      }
      i := i + 1;
    }
  }

  /** `GenerateLabelModel(itkImage, config)`: computes the label list and one record per
      label, then returns nothing (`undefined`, here `None`). The label list and the
      records are otherwise only logged, so they are returned here as well. */
  method GenerateLabelModel<C, M>(pixelData: seq<int>, config: C)
    returns (labels: seq<int>, records: seq<LabelModel<M>>, result: Option<seq<LabelModel<M>>>)
    ensures StrictlyAscending(labels)
    ensures forall v :: v in labels <==> v != 0 && v in pixelData
    ensures |records| == |labels|
    ensures forall i :: 0 <= i < |records| ==> records[i] == LabelModel(labels[i], None)
    ensures result == None
  {
    var uniqueValues := Distinct(pixelData);
    var a := new int[|uniqueValues|](i requires 0 <= i < |uniqueValues| => uniqueValues[i]);
    assert a[..] == uniqueValues;
    SortNumeric(a);
    var sorted := a[..];
    SortedLabels(pixelData, uniqueValues, sorted);
    labels := RemoveBackground(sorted);

    records := [];
    for i := 0 to |labels|
      invariant |records| == i
      invariant forall k :: 0 <= k < i ==> records[k] == LabelModel(labels[k], None)
    {
      var labelModel := LabelModel(labels[i], None);
      records := records + [labelModel];
    }
    result := None;
  }

  /** The distinct values, once sorted, are in strict order and, without the 0, are exactly
      the non-zero values of the data. */
  lemma SortedLabels(data: seq<int>, unique: seq<int>, sorted: seq<int>)
    requires NoDuplicates(unique) && (forall v :: v in unique <==> v in data)
    requires Ascending(sorted) && multiset(sorted) == multiset(unique)
    ensures StrictlyAscending(RemoveBackground(sorted))
    ensures forall v :: v in RemoveBackground(sorted) <==> v != 0 && v in data
  {
    NoDuplicatesPermutation(unique, sorted);
    AscendingDistinct(sorted);
    assert forall v :: v in sorted <==> v in multiset(sorted);
    assert forall v :: v in unique <==> v in multiset(unique);
  }

  /** The label-list statements of `GenerateLabelModel` on the data `[0, 0, 3, 3, 5]`: any label list meeting the contract of
      `GenerateLabelModel` is `[3, 5]`. */
  lemma ExampleLabels(labels: seq<int>)
    requires StrictlyAscending(labels)
    requires forall v :: v in labels <==> v != 0 && v in [0, 0, 3, 3, 5]
    ensures labels == [3, 5]
  {
    StrictlyAscendingUnique(labels, [3, 5]);
  }

  /** `GenerateModelForOneLabel(binaryImage, config)`: a stub that returns nothing. */
  function GenerateModelForOneLabel<I, C, M>(binaryImage: I, config: C): (r: Option<M>)
    ensures r.None?
  {
    None
  }
}
