/**
 * The `pipecd_application` data source: looks an application up by id and
 * publishes the fetched record as read-only attributes.
 */
module ApplicationDataSource {
  import opened Wrappers
  import opened Terraform
  import opened Api
  import opened StringOrder
  import opened PluginList

  datatype GitModel = GitModel(repositoryId: TfString, remote: TfString, branch: TfString, path: TfString, filename: TfString)

  /** `applicationDataSourceModel`; `plugins` is None for a nil slice (a null list). */
  datatype ApplicationDataSourceModel = ApplicationDataSourceModel(
    id: TfString,
    name: TfString,
    pipedId: TfString,
    projectId: TfString,
    kind: TfString,
    platformProvider: TfString,
    plugins: Option<seq<PluginModel>>,
    description: TfString,
    git: Option<GitModel>)

  /**
   * `s` is the state published for the fetched application `app`: scalar
   * and git fields copied, the id taken from the record, `platform_provider`
   * left null when the record's is empty, and `plugins` null when the record
   * has no plugin deploy targets and otherwise one entry per plugin in
   * ascending name order.
   */
  ghost predicate IsStateOf(s: ApplicationDataSourceModel, app: Application, e: KindEnum) {
    var m := app.deployTargetsByPlugin;
    && s.id == Known(app.id)
    && s.name == Known(app.name)
    && s.pipedId == Known(app.pipedId)
    && s.projectId == Known(app.projectId)
    && s.kind == Known(KindName(e, app.kind))
    && s.description == Known(app.description)
    && s.git == Some(GitModel(
         Known(app.gitPath.repo.id), Known(app.gitPath.repo.remote), Known(app.gitPath.repo.branch),
         Known(app.gitPath.path), Known(app.gitPath.configFilename)))
    && s.platformProvider == (if app.platformProvider == "" then Null else Known(app.platformProvider))
    && (|m| == 0 ==> s.plugins == None)
    && (|m| != 0 ==> s.plugins.Some? && ListsEntries(s.plugins.value, m, m.Keys) && StrictlySortedByName(s.plugins.value))
  }

  /**
   * `applicationDataSource.Read`: fetch the application named by the
   * configured id, then publish it. A failed fetch records an error and
   * writes no state.
   */
  method Read(config: ApplicationDataSourceModel, e: KindEnum, fetched: Result<Application>)
    returns (r: HandlerResult<ApplicationDataSourceModel>)
    ensures r.calls == [GetApplication(config.id.ValueString())]
    ensures fetched.Failure? ==>
      r.write == Unwritten && r.diagnostics == [Error("Unable to Read PipeCD application", fetched.error)]
    ensures fetched.Success? ==>
      r.diagnostics == [] && r.write.Written? && IsStateOf(r.write.state, fetched.value, e)
  {
    var calls := [GetApplication(config.id.ValueString())];
    if fetched.Failure? {
      r := HandlerResult(calls, Unwritten, [Error("Unable to Read PipeCD application", fetched.error)]);
      return;
    }
    var app := fetched.value;
    var state := ApplicationDataSourceModel(
      Known(app.id), Known(app.name), Known(app.pipedId), Known(app.projectId),
      Known(KindName(e, app.kind)), Null, None, Known(app.description),
      Some(GitModel(
        Known(app.gitPath.repo.id), Known(app.gitPath.repo.remote), Known(app.gitPath.repo.branch),
        Known(app.gitPath.path), Known(app.gitPath.configFilename))));

    if app.platformProvider != "" {
      state := state.(platformProvider := Known(app.platformProvider));
    }

    var m := app.deployTargetsByPlugin;
    if |m| != 0 {
      // The map is visited in no particular order, as Go's `range` does.
      var plugins: seq<PluginModel> := [];
      var visited: set<string> := {};
      while visited != m.Keys
        invariant visited <= m.Keys
        invariant ListsEntries(plugins, m, visited)
        decreases m.Keys - visited
      {
        assert m.Keys - visited != {};
        var k :| k in m.Keys - visited;
        var deployTargets := StringValues(m[k]);
        assert deployTargets == KnownAll(m[k]);
        AppendEntry(plugins, m, visited, k);
        plugins := plugins + [PluginModel(Known(k), deployTargets)];
        visited := visited + {k};
      }
      var a := new PluginModel[|plugins|](i requires 0 <= i < |plugins| => plugins[i]);
      assert a[..] == plugins;
      SortByName(a);
      ListsEntriesPermutation(plugins, a[..], m, m.Keys);
      DistinctSortedIsStrict(a[..]);
      state := state.(plugins := Some(a[..]));
    }
    r := HandlerResult(calls, Written(state), []);
  }

  /**
   * The published state is a function of the fetched record: neither the
   * order Go visits the map in nor the instability of `sort.Slice` shows.
   */
  lemma StateUnique(s1: ApplicationDataSourceModel, s2: ApplicationDataSourceModel, app: Application, e: KindEnum)
    requires IsStateOf(s1, app, e) && IsStateOf(s2, app, e)
    ensures s1 == s2
  {
    var m := app.deployTargetsByPlugin;
    if |m| != 0 {
      ListsEntriesUnique(s1.plugins.value, s2.plugins.value, m);
    }
  }

  /** With plugins `a` and `b` where `a < b`, the list is `[a, b]`, whatever order the map yields them in. */
  lemma TwoPluginsInNameOrder(s: ApplicationDataSourceModel, app: Application, e: KindEnum,
                              a: string, ta: seq<string>, b: string, tb: seq<string>)
    requires Less(a, b)
    requires app.deployTargetsByPlugin == map[a := ta, b := tb]
    requires IsStateOf(s, app, e)
    ensures s.plugins == Some([Entry(a, ta), Entry(b, tb)])
  {
    TwoEntriesListed(a, ta, b, tb);
    ListsEntriesUnique(s.plugins.value, [Entry(a, ta), Entry(b, tb)], app.deployTargetsByPlugin);
  }

  /** For `a < b`, `[a, b]` is a strictly sorted exact listing of the two-key map. */
  lemma TwoEntriesListed(a: string, ta: seq<string>, b: string, tb: seq<string>)
    requires Less(a, b)
    ensures var m := map[a := ta, b := tb];
      ListsEntries([Entry(a, ta), Entry(b, tb)], m, m.Keys) && StrictlySortedByName([Entry(a, ta), Entry(b, tb)])
  {
    var m := map[a := ta, b := tb];
    var expected := [Entry(a, ta), Entry(b, tb)];
    LessIrreflexive(a);
    assert m.Keys == {a, b};
    assert Name(expected[0]) == a && Name(expected[1]) == b;
  }

  /**
   * The recorded scenario: plugins "test_plugin" and "test_plugin_2" are
   * published in that order, each with its own deploy targets.
   */
  lemma TestPluginsOrdered(s: ApplicationDataSourceModel, app: Application, e: KindEnum)
    requires app.deployTargetsByPlugin == map["test_plugin" := ["test_target"], "test_plugin_2" := ["test_target_2"]]
    requires IsStateOf(s, app, e)
    ensures s.plugins == Some([Entry("test_plugin", ["test_target"]), Entry("test_plugin_2", ["test_target_2"])])
  {
    TestNamesOrdered();
    TwoPluginsInNameOrder(s, app, e, "test_plugin", ["test_target"], "test_plugin_2", ["test_target_2"]);
  }

  lemma TestNamesOrdered()
    ensures Less("test_plugin", "test_plugin_2")
  {
    var a, b := "test_plugin", "test_plugin_2";
    assert a == b[..|a|];
    PrefixLess(a, b);
  }
}
