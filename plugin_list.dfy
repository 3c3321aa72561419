/**
 * The `plugins` list both data sources publish: one entry per plugin with
 * its deploy targets, ordered by plugin name with `sort.Slice`.
 */
module PluginList {
  import opened Terraform
  import opened StringOrder

  /** `applicationDataSourcePluginModel` / `pipedDataSourcePluginModel` (the same shape). */
  datatype PluginModel = PluginModel(name: TfString, deployTargets: seq<TfString>)

  /** The sort key: `Name.ValueString()`. */
  function Name(p: PluginModel): string {
    p.name.ValueString()
  }

  /** The entry built for plugin `name` whose remote deploy targets are `targets`. */
  function Entry(name: string, targets: seq<string>): PluginModel {
    PluginModel(Known(name), KnownAll(targets))
  }

  /** The inner append loop: each deploy target becomes `types.StringValue(dt)`, in order. */
  method StringValues(xs: seq<string>) returns (r: seq<TfString>)
    ensures |r| == |xs|
    ensures forall i :: 0 <= i < |xs| ==> r[i] == Known(xs[i])
  {
    r := [];
    for i := 0 to |xs|
      invariant |r| == i
      invariant forall k :: 0 <= k < i ==> r[k] == Known(xs[k])
    {
      r := r + [Known(xs[i])];
    }
  }

  /** Ascending by name; entries with equal names may come in either order. */
  ghost predicate SortedByName(p: seq<PluginModel>) {
    forall i, j :: 0 <= i < j < |p| ==> !Less(Name(p[j]), Name(p[i]))
  }

  ghost predicate StrictlySortedByName(p: seq<PluginModel>) {
    forall i, j :: 0 <= i < j < |p| ==> Less(Name(p[i]), Name(p[j]))
  }

  /** The first `n` entries are ascending by name. */
  ghost predicate SortedPrefix(s: seq<PluginModel>, n: int) {
    forall p, q :: 0 <= p < q < n && q < |s| ==> !Less(Name(s[q]), Name(s[p]))
  }

  /**
   * The inner loop's picture of `s[..i+1]`: sorted apart from the entry at
   * the hole `j`, which sorts strictly before everything to its right.
   */
  ghost predicate Hole(s: seq<PluginModel>, j: int, i: int) {
    && 0 <= j <= i < |s|
    && (forall p, q :: 0 <= p < q <= i && p != j && q != j ==> !Less(Name(s[q]), Name(s[p])))
    && (forall q :: j < q <= i ==> Less(Name(s[j]), Name(s[q])))
  }

  /**
   * `sort.Slice(plugins, func(i, j int) bool { return Name(i) < Name(j) })`:
   * the array ends up ordered by name and holds the same entries. Like
   * `sort.Slice`, nothing is promised about the order of equal names.
   */
  method SortByName(a: array<PluginModel>)
    modifies a
    ensures SortedByName(a[..])
    ensures multiset(a[..]) == multiset(old(a[..]))
  {
    for i := 0 to a.Length
      invariant SortedPrefix(a[..], i)
      invariant multiset(a[..]) == multiset(old(a[..]))
    {
      var j := i;
      OpenHole(a[..], i);
      while j > 0 && Less(Name(a[j]), Name(a[j - 1]))
        invariant Hole(a[..], j, i)
        invariant multiset(a[..]) == multiset(old(a[..]))
      {
        ghost var s := a[..];
        a[j - 1], a[j] := a[j], a[j - 1];
        assert a[..] == Swap(s, j);
        MoveHoleLeft(s, j, i);
        j := j - 1;
      }
      SettleHole(a[..], j, i);
    }
    SortedPrefixAll(a[..]);
  }

  /** `s` with the entries at `j - 1` and `j` exchanged. */
  function Swap(s: seq<PluginModel>, j: int): (r: seq<PluginModel>)
    requires 0 < j < |s|
    ensures |r| == |s| && multiset(r) == multiset(s)
    ensures r[j - 1] == s[j] && r[j] == s[j - 1]
    ensures forall k :: 0 <= k < |s| && k != j - 1 && k != j ==> r[k] == s[k]
  {
    s[j - 1 := s[j]][j := s[j - 1]]
  }

  /** A sorted prefix of length `i` with the next entry in the hole is the inner loop's start. */
  lemma OpenHole(s: seq<PluginModel>, i: int)
    requires 0 <= i < |s| && SortedPrefix(s, i)
    ensures Hole(s, i, i)
  {
  }

  /**
   * Exchanging the entry in the hole `j` with a left neighbour that sorts
   * after it moves the hole to `j - 1`: the inner step of `SortByName`.
   */
  lemma MoveHoleLeft(s: seq<PluginModel>, j: int, i: int)
    requires Hole(s, j, i) && 0 < j
    requires Less(Name(s[j]), Name(s[j - 1]))
    ensures Hole(Swap(s, j), j - 1, i)
  {
    var r := Swap(s, j);
    forall q | j - 1 < q <= i
      ensures Less(Name(r[j - 1]), Name(r[q]))
    {
      if q > j {
        assert r[q] == s[q];
      }
    }
  }

  /**
   * Once the entry in the hole `j` is not before its left neighbour, the
   * prefix `s[..i+1]` is sorted: the insertion step of `SortByName`.
   */
  lemma SettleHole(s: seq<PluginModel>, j: int, i: int)
    requires Hole(s, j, i)
    requires j == 0 || !Less(Name(s[j]), Name(s[j - 1]))
    ensures SortedPrefix(s, i + 1)
  {
    forall p | 0 <= p < j
      ensures !Less(Name(s[j]), Name(s[p]))
    {
      if p < j - 1 {
        NotLessTransitive(Name(s[p]), Name(s[j - 1]), Name(s[j]));
      }
    }
    forall q | j < q <= i
      ensures !Less(Name(s[q]), Name(s[j]))
    {
      LessAsymmetric(Name(s[j]), Name(s[q]));
    }
  }

  lemma SortedPrefixAll(s: seq<PluginModel>)
    requires SortedPrefix(s, |s|)
    ensures SortedByName(s)
  {
  }

  /**
   * `p` holds exactly one entry for each key of `keys`, and that entry is
   * built from the map's value for the key.
   */
  ghost predicate ListsEntries(p: seq<PluginModel>, m: map<string, seq<string>>, keys: set<string>) {
    |p| == |keys| && EntriesOfKeys(p, m, keys) && NamesDistinct(p) && CoversKeys(p, keys)
  }

  /** Every entry is the one built for a key of `keys`, from the map's value for it. */
  ghost predicate EntriesOfKeys(p: seq<PluginModel>, m: map<string, seq<string>>, keys: set<string>) {
    forall i :: 0 <= i < |p| ==> Name(p[i]) in keys && Name(p[i]) in m && p[i] == Entry(Name(p[i]), m[Name(p[i])])
  }

  /** No two entries share a name. */
  ghost predicate NamesDistinct(p: seq<PluginModel>) {
    forall i, j :: 0 <= i < j < |p| ==> Name(p[i]) != Name(p[j])
  }

  /** Every key of `keys` has an entry. */
  ghost predicate CoversKeys(p: seq<PluginModel>, keys: set<string>) {
    forall k :: k in keys ==> exists i :: 0 <= i < |p| && Name(p[i]) == k
  }

  /** Appending the entry of a key not yet listed keeps one entry per listed key. */
  lemma AppendEntry(p: seq<PluginModel>, m: map<string, seq<string>>, visited: set<string>, k: string)
    requires visited <= m.Keys && ListsEntries(p, m, visited)
    requires k in m && k !in visited
    ensures ListsEntries(p + [Entry(k, m[k])], m, visited + {k})
  {
    assert |visited + {k}| == |visited| + 1;
    AppendEntryOfKey(p, m, visited, k);
    AppendNameDistinct(p, m, visited, k);
    AppendCoversKey(p, visited, Entry(k, m[k]));
  }

  lemma AppendEntryOfKey(p: seq<PluginModel>, m: map<string, seq<string>>, visited: set<string>, k: string)
    requires EntriesOfKeys(p, m, visited) && k in m
    ensures EntriesOfKeys(p + [Entry(k, m[k])], m, visited + {k})
  {
    var p' := p + [Entry(k, m[k])];
    forall i | 0 <= i < |p'|
      ensures Name(p'[i]) in visited + {k} && Name(p'[i]) in m && p'[i] == Entry(Name(p'[i]), m[Name(p'[i])])
    {
      if i < |p| {
        assert p'[i] == p[i];
      }
    }
  }

  lemma AppendNameDistinct(p: seq<PluginModel>, m: map<string, seq<string>>, visited: set<string>, k: string)
    requires EntriesOfKeys(p, m, visited) && NamesDistinct(p) && k in m && k !in visited
    ensures NamesDistinct(p + [Entry(k, m[k])])
  {
    var p' := p + [Entry(k, m[k])];
    forall i, j | 0 <= i < j < |p'|
      ensures Name(p'[i]) != Name(p'[j])
    {
      assert p'[i] == p[i] && Name(p[i]) in visited;
      if j < |p| {
        assert p'[j] == p[j];
      }
    }
  }

  lemma AppendCoversKey(p: seq<PluginModel>, visited: set<string>, e: PluginModel)
    requires CoversKeys(p, visited)
    ensures CoversKeys(p + [e], visited + {Name(e)})
  {
    var p' := p + [e];
    forall x | x in visited + {Name(e)}
      ensures exists i :: 0 <= i < |p'| && Name(p'[i]) == x
    {
      if x == Name(e) {
        assert Name(p'[|p|]) == x;
      } else {
        var i :| 0 <= i < |p| && Name(p[i]) == x;
        assert p'[i] == p[i];
      }
    }
  }

  lemma {:induction false} DistinctCountsOnce(p: seq<PluginModel>, x: PluginModel)
    requires forall i, j :: 0 <= i < j < |p| ==> p[i] != p[j]
    ensures multiset(p)[x] <= 1
    decreases |p|
  {
    if |p| > 0 {
      assert p == [p[0]] + p[1..];
      DistinctCountsOnce(p[1..], x);
      if x == p[0] {
        assert x !in p[1..];
      }
    }
  }

  lemma RepeatedCountsTwice(q: seq<PluginModel>, i: int, j: int)
    requires 0 <= i < j < |q| && q[i] == q[j]
    ensures multiset(q)[q[i]] >= 2
  {
    assert q == q[..j] + q[j..];
    assert q[i] in q[..j];
    assert q[j..][0] == q[j];
  }

  /** A reordering of a list that holds one entry per key does too. */
  lemma ListsEntriesPermutation(p: seq<PluginModel>, q: seq<PluginModel>, m: map<string, seq<string>>, keys: set<string>)
    requires ListsEntries(p, m, keys)
    requires multiset(q) == multiset(p)
    ensures ListsEntries(q, m, keys)
  {
    assert |q| == |multiset(q)| == |multiset(p)| == |p|;
    forall i | 0 <= i < |q|
      ensures Name(q[i]) in keys && Name(q[i]) in m && q[i] == Entry(Name(q[i]), m[Name(q[i])])
    {
      assert q[i] in multiset(p);
    }
    forall i, j | 0 <= i < j < |q|
      ensures Name(q[i]) != Name(q[j])
    {
      if Name(q[i]) == Name(q[j]) {
        RepeatedCountsTwice(q, i, j);
        DistinctCountsOnce(p, q[i]);
        assert false;
      }
    }
    forall k | k in keys
      ensures exists j :: 0 <= j < |q| && Name(q[j]) == k
    {
      var i :| 0 <= i < |p| && Name(p[i]) == k;
      assert p[i] in multiset(q);
      var j :| 0 <= j < |q| && q[j] == p[i];
    }
  }

  /** Sorted by name with no name repeated means strictly ascending. */
  lemma DistinctSortedIsStrict(p: seq<PluginModel>)
    requires SortedByName(p)
    requires forall i, j :: 0 <= i < j < |p| ==> Name(p[i]) != Name(p[j])
    ensures StrictlySortedByName(p)
  {
    forall i, j | 0 <= i < j < |p|
      ensures Less(Name(p[i]), Name(p[j]))
    {
      LessTotal(Name(p[i]), Name(p[j]));
    }
  }

  function Names(p: seq<PluginModel>): (r: seq<string>)
    ensures |r| == |p| && forall i :: 0 <= i < |p| ==> r[i] == Name(p[i])
  {
    seq(|p|, i requires 0 <= i < |p| => Name(p[i]))
  }

  /** The names in a list holding one entry per key of `m` are exactly the keys. */
  lemma NamesAreKeys(p: seq<PluginModel>, m: map<string, seq<string>>)
    requires ListsEntries(p, m, m.Keys)
    ensures forall x :: x in Names(p) <==> x in m
  {
    var np := Names(p);
    forall x | x in m
      ensures x in np
    {
      var i :| 0 <= i < |p| && Name(p[i]) == x;
      assert np[i] == x;
    }
  }

  /**
   * At most one list holds one entry per key of `m` in strictly ascending
   * name order: whatever order the keys were visited in, the result is the same.
   */
  lemma ListsEntriesUnique(p: seq<PluginModel>, q: seq<PluginModel>, m: map<string, seq<string>>)
    requires ListsEntries(p, m, m.Keys) && StrictlySortedByName(p)
    requires ListsEntries(q, m, m.Keys) && StrictlySortedByName(q)
    ensures p == q
  {
    var np, nq := Names(p), Names(q);
    NamesAreKeys(p, m);
    NamesAreKeys(q, m);
    assert StrictlyIncreasing(np);
    assert StrictlyIncreasing(nq);
    StrictlyIncreasingUnique(np, nq);
    forall i | 0 <= i < |p|
      ensures p[i] == q[i]
    {
      assert np[i] == nq[i];
    }
  }
}
