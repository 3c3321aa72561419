/**
 * The `pipecd_piped` resource: the conversion from its Terraform model to
 * an API piped, and its Create, Read, Update, Delete and ImportState
 * handlers. Each remote call's outcome is an input; a handler returns the
 * requests it sent, its write to `resp.State` and its diagnostics.
 */
module PipedResource {
  import opened Wrappers
  import opened Terraform
  import opened Api

  /** `pipedResourceModel`. */
  datatype PipedResourceModel = PipedResourceModel(id: TfString, name: TfString, description: TfString, apiKey: TfString)

  /** `piped()`: the API piped a model stands for; unset attributes read as "", the lists are empty. */
  function ToPiped(m: PipedResourceModel): (p: Piped)
    ensures p.id == m.id.ValueString() && p.name == m.name.ValueString() && p.desc == m.description.ValueString()
    ensures p.projectId == "" && p.repositories == [] && p.platformProviders == [] && p.plugins == []
  {
    Piped(m.id.ValueString(), m.name.ValueString(), m.description.ValueString(), "", [], [], [])
  }

  /** The state Create records: id and key from the registration, name and description as sent. */
  function RegisteredState(p: Piped, registered: RegisterPipedResponse): (s: PipedResourceModel)
    ensures s.id == Known(registered.id) && s.apiKey == Known(registered.key)
    ensures s.name == Known(p.name) && s.description == Known(p.desc)
  {
    PipedResourceModel(Known(registered.id), Known(p.name), Known(p.desc), Known(registered.key))
  }

  /** The state ImportState records: the import id, the fetched name and description, and an unknown key. */
  function ImportedState(importId: string, p: Piped): (s: PipedResourceModel)
    ensures s.id == Known(importId) && s.apiKey == Unknown
    ensures s.name == Known(p.name) && s.description == Known(p.desc)
  {
    PipedResourceModel(Known(importId), Known(p.name), Known(p.desc), Unknown)
  }

  /**
   * Create: register a piped with the plan's name and description only; on
   * success record the returned id and key with the name and description
   * sent. A failure records an error and writes no state.
   */
  method Create(plan: PipedResourceModel, registered: Result<RegisterPipedResponse>)
    returns (r: HandlerResult<PipedResourceModel>)
    ensures r.calls == [RegisterPiped(plan.name.ValueString(), plan.description.ValueString())]
    ensures registered.Failure? ==>
      && r.write == Unwritten
      && r.diagnostics == [Error("Error creating piped", "Could not create piped, unexpected error: " + registered.error)]
    ensures registered.Success? ==>
      r.write == Written(RegisteredState(ToPiped(plan), registered.value)) && r.diagnostics == []
  {
    var piped := ToPiped(plan);
    var calls := [RegisterPiped(piped.name, piped.desc)];
    if registered.Failure? {
      r := HandlerResult(calls, Unwritten,
        [Error("Error creating piped", "Could not create piped, unexpected error: " + registered.error)]);
      return;
    }
    var state := PipedResourceModel(Known(registered.value.id), Known(piped.name), Known(piped.desc), Known(registered.value.key));
    r := HandlerResult(calls, Written(state), []);
  }

  /** Read: the stored state is written back unchanged, with no remote call. */
  method Read(state: PipedResourceModel) returns (r: HandlerResult<PipedResourceModel>)
    ensures r.calls == [] && r.diagnostics == []
    ensures After(Some(state), r.write) == Some(state)
  {
    r := HandlerResult([], Written(state), []);
  }

  /**
   * Update: send the plan's id, name and description; on success the state
   * becomes the plan, on failure it is left as it was.
   */
  method Update(prior: PipedResourceModel, plan: PipedResourceModel, outcome: Result<()>)
    returns (r: HandlerResult<PipedResourceModel>)
    ensures r.calls == [UpdatePiped(plan.id.ValueString(), plan.name.ValueString(), plan.description.ValueString())]
    ensures outcome.Success? ==> After(Some(prior), r.write) == Some(plan) && r.diagnostics == []
    ensures outcome.Failure? ==>
      && After(Some(prior), r.write) == Some(prior)
      && r.diagnostics == [Error("Error updating piped", "Could not update piped, unexpected error: " + outcome.error)]
  {
    var piped := ToPiped(plan);
    var calls := [UpdatePiped(piped.id, piped.name, piped.desc)];
    if outcome.Failure? {
      r := HandlerResult(calls, Unwritten,
        [Error("Error updating piped", "Could not update piped, unexpected error: " + outcome.error)]);
      return;
    }
    r := HandlerResult(calls, Written(plan), []);
  }

  /**
   * Delete: pipeds cannot be deleted, so send a disable request for the
   * state's id. On success the resource leaves the state; on failure it
   * stays, with an error.
   */
  method Delete(state: PipedResourceModel, outcome: Result<()>) returns (r: HandlerResult<PipedResourceModel>)
    ensures r.calls == [DisablePiped(state.id.ValueString())]
    ensures outcome.Success? ==> After(Some(state), r.write) == None && r.diagnostics == []
    ensures outcome.Failure? ==>
      && After(Some(state), r.write) == Some(state)
      && r.diagnostics == [Error("Error Disabling PipeCD piped", "Could not disable piped, unexpected error: " + outcome.error)]
  {
    var calls := [DisablePiped(state.id.ValueString())];
    if outcome.Failure? {
      r := HandlerResult(calls, Unwritten,
        [Error("Error Disabling PipeCD piped", "Could not disable piped, unexpected error: " + outcome.error)]);
      return;
    }
    r := HandlerResult(calls, Removed, []);
  }

  /**
   * ImportState: fetch the piped with the import id and record it under
   * that id with an unknown key; a failed fetch records an error and
   * writes no state.
   */
  method ImportState(importId: string, fetched: Result<Piped>) returns (r: HandlerResult<PipedResourceModel>)
    ensures r.calls == [GetPiped(importId)]
    ensures fetched.Failure? ==>
      && r.write == Unwritten
      && r.diagnostics == [Error("Error reading piped", "Could not read piped, unexpected error: " + fetched.error)]
    ensures fetched.Success? ==> r.write == Written(ImportedState(importId, fetched.value)) && r.diagnostics == []
  {
    var calls := [GetPiped(importId)];
    if fetched.Failure? {
      r := HandlerResult(calls, Unwritten,
        [Error("Error reading piped", "Could not read piped, unexpected error: " + fetched.error)]);
      return;
    }
    var state := PipedResourceModel(Known(importId), Known(fetched.value.name), Known(fetched.value.desc), Unknown);
    r := HandlerResult(calls, Written(state), []);
  }

  /**
   * With a known name and description in the plan, Create records the plan
   * with the registration's id and key in place of the computed attributes.
   */
  lemma CreateKeepsPlan(plan: PipedResourceModel, registered: RegisterPipedResponse)
    requires plan.name.Known? && plan.description.Known?
    ensures RegisteredState(ToPiped(plan), registered) == plan.(id := Known(registered.id), apiKey := Known(registered.key))
  {
  }

  /**
   * Importing the id Create received, when the control plane returns the
   * name and description Create sent, records Create's state except that
   * the key, which the control plane does not reveal again, is unknown.
   */
  lemma ImportAfterCreate(plan: PipedResourceModel, registered: RegisterPipedResponse, fetched: Piped)
    requires fetched.name == plan.name.ValueString() && fetched.desc == plan.description.ValueString()
    ensures ImportedState(registered.id, fetched) == RegisteredState(ToPiped(plan), registered).(apiKey := Unknown)
  {
  }

  /** Converting an imported state back gives the fetched piped's id, name and description. */
  lemma ImportedThenPiped(importId: string, p: Piped)
    ensures ToPiped(ImportedState(importId, p)) == p.(id := importId, projectId := "", repositories := [], platformProviders := [], plugins := [])
  {
  }
}
