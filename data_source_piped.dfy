/**
 * The `pipecd_piped` data source: looks a piped up by id and publishes its
 * name, description, project, repositories, platform providers and plugins.
 */
module PipedDataSource {
  import opened Wrappers
  import opened Terraform
  import opened Api
  import opened StringOrder
  import opened PluginList

  datatype RepositoryModel = RepositoryModel(id: TfString, remote: TfString, branch: TfString)

  datatype PlatformProviderModel = PlatformProviderModel(name: TfString, providerType: TfString)

  /** `pipedDataSourceModel`; a None list is a nil slice, published as null. */
  datatype PipedDataSourceModel = PipedDataSourceModel(
    id: TfString,
    name: TfString,
    description: TfString,
    projectId: TfString,
    repositories: Option<seq<RepositoryModel>>,
    platformProviders: Option<seq<PlatformProviderModel>>,
    plugins: Option<seq<PluginModel>>)

  /** The entries built from the piped's plugins, in the piped's order. */
  function EntriesOf(ps: seq<PipedPlugin>): (r: seq<PluginModel>)
    ensures |r| == |ps| && forall i :: 0 <= i < |ps| ==> r[i] == Entry(ps[i].name, ps[i].deployTargets)
  {
    seq(|ps|, i requires 0 <= i < |ps| => Entry(ps[i].name, ps[i].deployTargets))
  }

  /**
   * `s` is the state published for the fetched piped `p`: id, name and
   * project copied, description from `Desc`; repositories and platform
   * providers null when the piped has none and otherwise copied element by
   * element in order; plugins null when it has none and otherwise the
   * piped's plugins, duplicates kept, reordered ascending by name.
   */
  ghost predicate IsStateOf(s: PipedDataSourceModel, p: Piped) {
    && s.id == Known(p.id)
    && s.name == Known(p.name)
    && s.projectId == Known(p.projectId)
    && s.description == Known(p.desc)
    && (|p.repositories| == 0 ==> s.repositories == None)
    && (|p.repositories| != 0 ==>
          && s.repositories.Some?
          && |s.repositories.value| == |p.repositories|
          && forall i :: 0 <= i < |p.repositories| ==>
               s.repositories.value[i] == RepositoryModel(
                 Known(p.repositories[i].id), Known(p.repositories[i].remote), Known(p.repositories[i].branch)))
    && (|p.platformProviders| == 0 ==> s.platformProviders == None)
    && (|p.platformProviders| != 0 ==>
          && s.platformProviders.Some?
          && |s.platformProviders.value| == |p.platformProviders|
          && forall i :: 0 <= i < |p.platformProviders| ==>
               s.platformProviders.value[i] == PlatformProviderModel(
                 Known(p.platformProviders[i].name), Known(p.platformProviders[i].providerType)))
    && (|p.plugins| == 0 ==> s.plugins == None)
    && (|p.plugins| != 0 ==>
          && s.plugins.Some?
          && multiset(s.plugins.value) == multiset(EntriesOf(p.plugins))
          && SortedByName(s.plugins.value))
  }

  /**
   * `pipedDataSource.Read`: fetch the piped named by the configured id,
   * then publish it. A failed fetch records an error and writes no state.
   */
  method Read(config: PipedDataSourceModel, fetched: Result<Piped>)
    returns (r: HandlerResult<PipedDataSourceModel>)
    ensures r.calls == [GetPiped(config.id.ValueString())]
    ensures fetched.Failure? ==>
      r.write == Unwritten && r.diagnostics == [Error("Unable to Read PipeCD piped", fetched.error)]
    ensures fetched.Success? ==>
      r.diagnostics == [] && r.write.Written? && IsStateOf(r.write.state, fetched.value)
  {
    var calls := [GetPiped(config.id.ValueString())];
    if fetched.Failure? {
      r := HandlerResult(calls, Unwritten, [Error("Unable to Read PipeCD piped", fetched.error)]);
      return;
    }
    var p := fetched.value;
    var state := PipedDataSourceModel(Known(p.id), Known(p.name), Known(p.desc), Known(p.projectId), None, None, None);

    if |p.repositories| != 0 {
      var repos: seq<RepositoryModel> := [];
      for i := 0 to |p.repositories|
        invariant |repos| == i
        invariant forall k :: 0 <= k < i ==>
          repos[k] == RepositoryModel(Known(p.repositories[k].id), Known(p.repositories[k].remote), Known(p.repositories[k].branch))
      {
        var rp := p.repositories[i];
        repos := repos + [RepositoryModel(Known(rp.id), Known(rp.remote), Known(rp.branch))];
      }
      state := state.(repositories := Some(repos));
    }

    if |p.platformProviders| != 0 {
      var providers: seq<PlatformProviderModel> := [];
      for i := 0 to |p.platformProviders|
        invariant |providers| == i
        invariant forall k :: 0 <= k < i ==>
          providers[k] == PlatformProviderModel(Known(p.platformProviders[k].name), Known(p.platformProviders[k].providerType))
      {
        var pp := p.platformProviders[i];
        providers := providers + [PlatformProviderModel(Known(pp.name), Known(pp.providerType))];
      }
      state := state.(platformProviders := Some(providers));
    }

    if |p.plugins| != 0 {
      var plugins: seq<PluginModel> := [];
      for i := 0 to |p.plugins|
        invariant plugins == EntriesOf(p.plugins[..i])
      {
        var deployTargets := StringValues(p.plugins[i].deployTargets);
        assert deployTargets == KnownAll(p.plugins[i].deployTargets);
        assert p.plugins[..i + 1] == p.plugins[..i] + [p.plugins[i]];
        plugins := plugins + [PluginModel(Known(p.plugins[i].name), deployTargets)];
      }
      assert p.plugins[..|p.plugins|] == p.plugins;
      var a := new PluginModel[|plugins|](i requires 0 <= i < |plugins| => plugins[i]);
      assert a[..] == plugins;
      SortByName(a);
      state := state.(plugins := Some(a[..]));
    }
    r := HandlerResult(calls, Written(state), []);
  }

  ghost predicate DistinctNames(ps: seq<PipedPlugin>) {
    forall i, j :: 0 <= i < j < |ps| ==> ps[i].name != ps[j].name
  }

  /** The piped's plugins as a map from name to deploy targets (the last one wins on a repeat). */
  function TargetsByName(ps: seq<PipedPlugin>): map<string, seq<string>>
    decreases |ps|
  {
    if |ps| == 0 then map[]
    else TargetsByName(ps[..|ps| - 1])[ps[|ps| - 1].name := ps[|ps| - 1].deployTargets]
  }

  lemma {:induction false} TargetsByNameAt(ps: seq<PipedPlugin>, i: int)
    requires DistinctNames(ps) && 0 <= i < |ps|
    ensures ps[i].name in TargetsByName(ps) && TargetsByName(ps)[ps[i].name] == ps[i].deployTargets
    decreases |ps|
  {
    if i < |ps| - 1 {
      var init := ps[..|ps| - 1];
      assert init[i] == ps[i];
      assert DistinctNames(init);
      TargetsByNameAt(init, i);
    }
  }

  /** The names of the first `n` plugins. */
  function NamesUpTo(ps: seq<PipedPlugin>, n: int): set<string>
    requires 0 <= n <= |ps|
  {
    set i | 0 <= i < n :: ps[i].name
  }

  /** Taking one more plugin adds its name. */
  lemma NamesUpToStep(ps: seq<PipedPlugin>, n: int)
    requires 0 < n <= |ps|
    ensures NamesUpTo(ps, n) == NamesUpTo(ps, n - 1) + {ps[n - 1].name}
  {
  }

  lemma NamesUpToGrows(ps: seq<PipedPlugin>, n: int, n': int)
    requires 0 <= n <= n' <= |ps|
    ensures NamesUpTo(ps, n) <= NamesUpTo(ps, n')
  {
    forall x | x in NamesUpTo(ps, n)
      ensures x in NamesUpTo(ps, n')
    {
      var i :| 0 <= i < n && ps[i].name == x;
    }
  }

  /** With distinct names, a plugin's name is not among those before it. */
  lemma NamesUpToFresh(ps: seq<PipedPlugin>, n: int)
    requires DistinctNames(ps) && 0 < n <= |ps|
    ensures ps[n - 1].name !in NamesUpTo(ps, n - 1)
  {
  }

  lemma {:induction false} TargetsByNameKeys(ps: seq<PipedPlugin>)
    ensures TargetsByName(ps).Keys == NamesUpTo(ps, |ps|)
    decreases |ps|
  {
    if |ps| > 0 {
      var init := ps[..|ps| - 1];
      TargetsByNameKeys(init);
      assert NamesUpTo(init, |init|) == NamesUpTo(ps, |ps| - 1);
      assert NamesUpTo(ps, |ps|) == NamesUpTo(ps, |ps| - 1) + {ps[|ps| - 1].name};
    }
  }

  lemma TakeOneMore(s: seq<PluginModel>, n: int)
    requires 0 < n <= |s|
    ensures s[..n] == s[..n - 1] + [s[n - 1]]
  {
  }

  /** With distinct names, the first `n` entries list exactly the first `n` plugins' names. */
  lemma {:induction false} PrefixListsEntries(ps: seq<PipedPlugin>, n: int)
    requires DistinctNames(ps) && 0 <= n <= |ps|
    ensures ListsEntries(EntriesOf(ps)[..n], TargetsByName(ps), NamesUpTo(ps, n))
    decreases n
  {
    var m := TargetsByName(ps);
    var es := EntriesOf(ps);
    if n == 0 {
      assert NamesUpTo(ps, n) == {};
    } else {
      var k := ps[n - 1].name;
      var listed := NamesUpTo(ps, n - 1);
      TargetsByNameAt(ps, n - 1);
      assert ListsEntries(es[..n - 1] + [Entry(k, m[k])], m, listed + {k}) by {
        PrefixListsEntries(ps, n - 1);
        TargetsByNameKeys(ps);
        NamesUpToFresh(ps, n);
        NamesUpToGrows(ps, n - 1, |ps|);
        AppendEntry(es[..n - 1], m, listed, k);
      }
      assert es[..n] == es[..n - 1] + [Entry(k, m[k])] by {
        TakeOneMore(es, n);
      }
      NamesUpToStep(ps, n);
    }
  }

  /** With distinct names, two name-sorted reorderings of the piped's plugins are equal. */
  lemma SortedPluginsUnique(q1: seq<PluginModel>, q2: seq<PluginModel>, ps: seq<PipedPlugin>)
    requires DistinctNames(ps)
    requires multiset(q1) == multiset(EntriesOf(ps)) && SortedByName(q1)
    requires multiset(q2) == multiset(EntriesOf(ps)) && SortedByName(q2)
    ensures q1 == q2
  {
    var m := TargetsByName(ps);
    PrefixListsEntries(ps, |ps|);
    TargetsByNameKeys(ps);
    assert EntriesOf(ps)[..|ps|] == EntriesOf(ps);
    ListsEntriesPermutation(EntriesOf(ps), q1, m, m.Keys);
    ListsEntriesPermutation(EntriesOf(ps), q2, m, m.Keys);
    DistinctSortedIsStrict(q1);
    DistinctSortedIsStrict(q2);
    ListsEntriesUnique(q1, q2, m);
  }

  /**
   * When the piped's plugin names are distinct, the published state is a
   * function of the piped: the instability of `sort.Slice` cannot show.
   */
  lemma StateUniqueWhenNamesDistinct(s1: PipedDataSourceModel, s2: PipedDataSourceModel, p: Piped)
    requires DistinctNames(p.plugins)
    requires IsStateOf(s1, p) && IsStateOf(s2, p)
    ensures s1 == s2
  {
    if |p.plugins| != 0 {
      SortedPluginsUnique(s1.plugins.value, s2.plugins.value, p.plugins);
    }
    if |p.repositories| != 0 {
      assert s1.repositories.value == s2.repositories.value;
    }
    if |p.platformProviders| != 0 {
      assert s1.platformProviders.value == s2.platformProviders.value;
    }
  }
}
