/**
 * The `pipecd_application` resource: the conversion from its Terraform
 * model to an API application, and its Create, Read, Update, Delete and
 * ImportState handlers. Each remote call's outcome is an input; a handler
 * returns the requests it sent, its write to `resp.State` and its
 * diagnostics.
 */
module ApplicationResource {
  import opened Wrappers
  import opened Terraform
  import opened Api

  datatype ResourceGitModel = ResourceGitModel(repositoryId: TfString, path: TfString, filename: TfString)

  /** `applicationResourceModel`. */
  datatype ApplicationResourceModel = ApplicationResourceModel(
    id: TfString,
    name: TfString,
    pipedId: TfString,
    kind: TfString,
    platformProvider: TfString,
    description: TfString,
    git: ResourceGitModel)

  /** The schema default of `git.filename`. */
  const DefaultFilename := "app.pipecd.yaml"

  /** The planned `git.filename`: the configured value, or the default when none is configured. */
  function PlannedFilename(configured: TfString): (f: TfString)
    ensures f.Known? || f == configured
    ensures configured.Null? ==> f.ValueString() == DefaultFilename
    ensures !configured.Null? ==> f == configured
  {
    if configured.Null? then Known(DefaultFilename) else configured
  }

  /**
   * What the framework guarantees of a plan before Create or Update runs:
   * `kind` passed the validator (one of the enumeration's names), and the
   * other user-facing attributes are known, `git.filename` through its default.
   */
  ghost predicate Planned(m: ApplicationResourceModel, e: KindEnum) {
    && m.name.Known? && m.pipedId.Known? && m.platformProvider.Known? && m.description.Known?
    && m.kind.Known? && m.kind.value in e.value
    && m.git.repositoryId.Known? && m.git.path.Known? && m.git.filename.Known?
  }

  /**
   * `application()`: the API application a model stands for. Unset
   * attributes read as "", the repository carries only its id, and the
   * kind is looked up by name (an unknown name gives kind 0).
   */
  function ToApplication(m: ApplicationResourceModel, e: KindEnum): (app: Application)
    ensures app.id == m.id.ValueString() && app.name == m.name.ValueString() && app.pipedId == m.pipedId.ValueString()
    ensures app.platformProvider == m.platformProvider.ValueString() && app.description == m.description.ValueString()
    ensures app.gitPath == GitPath(GitRepository(m.git.repositoryId.ValueString(), "", ""),
                                   m.git.path.ValueString(), m.git.filename.ValueString(), "")
    ensures m.kind.ValueString() !in e.value ==> app.kind == 0
    ensures e.Valid() && m.kind.ValueString() in e.value ==> KindName(e, app.kind) == m.kind.ValueString()
    ensures app.deployTargetsByPlugin == map[] && app.projectId == ""
  {
    Application(
      m.id.ValueString(),
      m.name.ValueString(),
      m.pipedId.ValueString(),
      "",
      KindValueOf(e, m.kind.ValueString()),
      m.platformProvider.ValueString(),
      map[],
      m.description.ValueString(),
      GitPath(GitRepository(m.git.repositoryId.ValueString(), "", ""),
              m.git.path.ValueString(), m.git.filename.ValueString(), ""))
  }

  /** The add request Create builds from an application. */
  function AddRequest(app: Application): AddApplicationRequest {
    AddApplicationRequest(app.name, app.pipedId, app.gitPath, app.kind, app.platformProvider, app.description)
  }

  /** The update request Update builds from an application. */
  function UpdateRequest(app: Application): UpdateApplicationRequest {
    UpdateApplicationRequest(app.id, app.pipedId, app.platformProvider, app.gitPath)
  }

  /** The state Create and ImportState record for a fetched application under the given id. */
  function StateOfApplication(id: string, app: Application, e: KindEnum): (s: ApplicationResourceModel)
    ensures s.id == Known(id)
    ensures s.kind == Known(KindName(e, app.kind))
    ensures s.name == Known(app.name) && s.pipedId == Known(app.pipedId)
    ensures s.platformProvider == Known(app.platformProvider) && s.description == Known(app.description)
    ensures s.git == ResourceGitModel(Known(app.gitPath.repo.id), Known(app.gitPath.path), Known(app.gitPath.configFilename))
  {
    ApplicationResourceModel(
      Known(id),
      Known(app.name),
      Known(app.pipedId),
      Known(KindName(e, app.kind)),
      Known(app.platformProvider),
      Known(app.description),
      ResourceGitModel(Known(app.gitPath.repo.id), Known(app.gitPath.path), Known(app.gitPath.configFilename)))
  }

  /** An application as the resource can describe it: the given id, and only the fields the resource carries. */
  function ResourceView(id: string, app: Application): Application {
    app.(id := id, projectId := "", deployTargetsByPlugin := map[],
         gitPath := GitPath(GitRepository(app.gitPath.repo.id, "", ""), app.gitPath.path, app.gitPath.configFilename, ""))
  }

  /** The server stored what the add request asked for. */
  predicate Stores(app: Application, add: AddApplicationRequest) {
    && app.name == add.name && app.pipedId == add.pipedId && app.kind == add.kind
    && app.platformProvider == add.platformProvider && app.description == add.description
    && app.gitPath.repo.id == add.gitPath.repo.id
    && app.gitPath.path == add.gitPath.path && app.gitPath.configFilename == add.gitPath.configFilename
  }

  /**
   * Create: send the add request built from the plan; on success fetch the
   * new application by the returned id and record it under that id. A
   * failure of either call records an error and writes no state.
   */
  method Create(plan: ApplicationResourceModel, e: KindEnum, added: Result<string>, fetched: Result<Application>)
    returns (r: HandlerResult<ApplicationResourceModel>)
    ensures |r.calls| >= 1 && r.calls[0] == AddApplication(AddRequest(ToApplication(plan, e)))
    ensures added.Failure? ==>
      && r.calls == [AddApplication(AddRequest(ToApplication(plan, e)))]
      && r.write == Unwritten
      && r.diagnostics == [Error("Error creating application", "Could not create application, unexpected error: " + added.error)]
    ensures added.Success? ==> r.calls == [AddApplication(AddRequest(ToApplication(plan, e))), GetApplication(added.value)]
    ensures added.Success? && fetched.Failure? ==>
      && r.write == Unwritten
      && r.diagnostics == [Error("Error getting application", "Could not get application, unexpected error: " + fetched.error)]
    ensures added.Success? && fetched.Success? ==>
      r.write == Written(StateOfApplication(added.value, fetched.value, e)) && r.diagnostics == []
    ensures r.write.Written? <==> r.diagnostics == []
  {
    var app := ToApplication(plan, e);
    var addReq := AddRequest(app);
    var calls := [AddApplication(addReq)];
    if added.Failure? {
      r := HandlerResult(calls, Unwritten,
        [Error("Error creating application", "Could not create application, unexpected error: " + added.error)]);
      return;
    }
    calls := calls + [GetApplication(added.value)];
    if fetched.Failure? {
      r := HandlerResult(calls, Unwritten,
        [Error("Error getting application", "Could not get application, unexpected error: " + fetched.error)]);
      return;
    }
    var state := StateOfApplication(added.value, fetched.value, e);
    r := HandlerResult(calls, Written(state), []);
  }

  /** Read: the stored state is written back unchanged, with no remote call. */
  method Read(state: ApplicationResourceModel) returns (r: HandlerResult<ApplicationResourceModel>)
    ensures r.calls == [] && r.diagnostics == []
    ensures After(Some(state), r.write) == Some(state)
  {
    r := HandlerResult([], Written(state), []);
  }

  /**
   * Update: send the update request built from the plan (id, piped id,
   * platform provider and git path only); on success the state becomes the
   * plan, on failure it is left as it was.
   */
  method Update(prior: ApplicationResourceModel, plan: ApplicationResourceModel, e: KindEnum, outcome: Result<()>)
    returns (r: HandlerResult<ApplicationResourceModel>)
    ensures r.calls == [UpdateApplication(UpdateRequest(ToApplication(plan, e)))]
    ensures outcome.Success? ==> After(Some(prior), r.write) == Some(plan) && r.diagnostics == []
    ensures outcome.Failure? ==>
      && After(Some(prior), r.write) == Some(prior)
      && r.diagnostics == [Error("Error updating application", "Could not update application, unexpected error: " + outcome.error)]
  {
    var app := ToApplication(plan, e);
    var calls := [UpdateApplication(UpdateRequest(app))];
    if outcome.Failure? {
      r := HandlerResult(calls, Unwritten,
        [Error("Error updating application", "Could not update application, unexpected error: " + outcome.error)]);
      return;
    }
    r := HandlerResult(calls, Written(plan), []);
  }

  /**
   * Delete: send one delete request for the state's id; a failure records
   * an error. The handler itself never writes the state.
   */
  method Delete(state: ApplicationResourceModel, outcome: Result<()>) returns (r: HandlerResult<ApplicationResourceModel>)
    ensures r.calls == [DeleteApplication(state.id.ValueString())]
    ensures After(Some(state), r.write) == Some(state)
    ensures outcome.Success? ==> r.diagnostics == []
    ensures outcome.Failure? ==>
      r.diagnostics == [Error("Error Deleting PipeCD application", "Could not delete application, unexpected error: " + outcome.error)]
  {
    var calls := [DeleteApplication(state.id.ValueString())];
    if outcome.Failure? {
      r := HandlerResult(calls, Unwritten,
        [Error("Error Deleting PipeCD application", "Could not delete application, unexpected error: " + outcome.error)]);
      return;
    }
    r := HandlerResult(calls, Unwritten, []);
  }

  /**
   * ImportState: fetch the application with the import id and record it
   * under that id; a failed fetch records an error and writes no state.
   */
  method ImportState(importId: string, e: KindEnum, fetched: Result<Application>)
    returns (r: HandlerResult<ApplicationResourceModel>)
    ensures r.calls == [GetApplication(importId)]
    ensures fetched.Failure? ==>
      && r.write == Unwritten
      && r.diagnostics == [Error("Error reading application", "Could not read application, unexpected error: " + fetched.error)]
    ensures fetched.Success? ==>
      r.write == Written(StateOfApplication(importId, fetched.value, e)) && r.diagnostics == []
  {
    var calls := [GetApplication(importId)];
    if fetched.Failure? {
      r := HandlerResult(calls, Unwritten,
        [Error("Error reading application", "Could not read application, unexpected error: " + fetched.error)]);
      return;
    }
    r := HandlerResult(calls, Written(StateOfApplication(importId, fetched.value, e)), []);
  }

  /**
   * Converting a recorded state back gives the fetched application as the
   * resource describes it, provided its kind is a named enumerator.
   */
  lemma StateThenApplication(id: string, app: Application, e: KindEnum)
    requires e.Valid() && app.kind in e.name
    ensures ToApplication(StateOfApplication(id, app, e), e) == ResourceView(id, app)
  {
    var s := StateOfApplication(id, app, e);
    assert s.kind.value == e.name[app.kind];
    assert KindValueOf(e, s.kind.value) == app.kind;
  }

  /**
   * If the server stores what Create's add request asked for, the state
   * Create records is the plan with the new id: Create is a round trip for
   * every planned attribute.
   */
  lemma CreateRecordsPlan(plan: ApplicationResourceModel, e: KindEnum, newId: string, app: Application)
    requires e.Valid() && Planned(plan, e)
    requires Stores(app, AddRequest(ToApplication(plan, e)))
    ensures StateOfApplication(newId, app, e) == plan.(id := Known(newId))
  {
    var s := StateOfApplication(newId, app, e);
    assert KindName(e, app.kind) == plan.kind.value;
    assert s.git == plan.git;
  }

  /** Update never sends name, kind or description: plans that differ only there send the same request. */
  lemma UpdateIgnoresImmutable(p1: ApplicationResourceModel, p2: ApplicationResourceModel, e: KindEnum)
    requires p1.id == p2.id && p1.pipedId == p2.pipedId && p1.platformProvider == p2.platformProvider && p1.git == p2.git
    ensures UpdateRequest(ToApplication(p1, e)) == UpdateRequest(ToApplication(p2, e))
  {
  }

  /** A plan whose filename was left unset sends the default filename in Create's add request. */
  lemma DefaultFilenameSent(plan: ApplicationResourceModel, e: KindEnum)
    requires plan.git.filename == PlannedFilename(Null)
    ensures AddRequest(ToApplication(plan, e)).gitPath.configFilename == DefaultFilename
  {
  }
}
