# PipeCD Terraform provider — verified model

A Dafny model of the logic the PipeCD Terraform provider applies on its own,
between the Terraform plugin framework and the PipeCD control-plane API:

- **Provider configuration.** `PipeCDProvider.Configure` rejects unknown `host`/`api_key` values. It resolves each
  setting from the provider block or, when that is null, from `PIPECD_HOST`/`PIPECD_API_KEY`. It rejects empty
  results, and connects only when no client exists yet. It publishes the client to data sources and resources.
  The provider registers two data sources and two resources.
- **Data sources.** `pipecd_application` and `pipecd_piped` fetch a record and publish it as Terraform state. Some
  attributes are set only under a condition (a platform provider only when non-empty, lists only when non-empty).
  The plugins (an unordered map for applications, a list for pipeds) become a list sorted by plugin name, with an
  in-place insertion sort standing for `sort.Slice`.
- **Resources.** `pipecd_application` and `pipecd_piped` implement Create, Read, Update, Delete and ImportState. Each
  handler builds a request from the plan or state, then writes state only when the call succeeds.

Every remote call is an input outcome (`Result`), and the dial is too. A handler returns a `HandlerResult`:
- the API requests it sent, in order;
- what it did to `resp.State`: `Unwritten`, `Written(state)` or `Removed`;
- its diagnostics.

`Terraform.After` turns that write into the resource's state over `Option<State>`.

Framework string values are `TfString = Null | Unknown | Known(s)`. `ValueString()` gives "" for null and unknown,
as in the framework.

The application-kind enumeration is a parameter `KindEnum`, a pair of tables mirroring `ApplicationKind_name` and
`ApplicationKind_value`:
- looking up a missing name gives 0 (Go's map zero value);
- naming a value outside the table gives its decimal digits (the protobuf `String()` convention).

Go's string `<` compares UTF-8 bytes. For strings of code points that is lexicographic order on code points, which
is `StringOrder.Less`.

Files:
- `wrappers.dfy`: `Option`, `Result`.
- `terraform.dfy`: framework values.
- `api.dfy`: API records, requests and the kind enumeration.
- `string_order.dfy`: string order and its lemmas.
- `plugin_list.dfy`: the plugin list, its sort and the uniqueness argument.
- `data_source_application.dfy`, `data_source_piped.dfy`: the data sources.
- `provider.dfy`: the provider.
- `resource_application.dfy`, `resource_piped.dfy`: the resources.

## Model

| member | source | states |
|---|---|---|
| ApplicationDataSource.Read | internal/provider/data_source_application.go:158-217 | Exactly one request, a get of the configured id. A failed fetch gives error "Unable to Read PipeCD application" and no state. Otherwise no diagnostics, and the written state is the fetched application's state (`IsStateOf`): id, name, piped id, project id, kind name and description copied; git repository id, remote and branch from `GitPath.Repo`, plus path and filename; platform provider null unless non-empty; plugins null for an empty map, otherwise one entry per map key with that key's targets in order, strictly ascending by name. |
| ApplicationDataSource.StateUnique | internal/provider/data_source_application.go:198-213 | The published state is determined by the fetched application: neither Go's map order nor `sort.Slice`'s instability can show. |
| ApplicationDataSource.TwoPluginsInNameOrder | internal/provider/data_source_application.go:199-212 | For a two-plugin map with `a < b`, the list is exactly `[a, b]` with their own targets, whatever order the map yields. |
| ApplicationDataSource.TestPluginsOrdered | internal/provider/data_source_application_test.go:135-141 | The recorded scenario: "test_plugin" is published before "test_plugin_2", each with its own target. |
| ApplicationDataSource.TestNamesOrdered | internal/provider/data_source_application.go:210-212 | "test_plugin" sorts before "test_plugin_2" (a proper prefix sorts first). |
| PipedDataSource.Read | internal/provider/data_source_piped.go:149-219 | Exactly one request, a get of the configured id. A failed fetch gives error "Unable to Read PipeCD piped" and no state. Otherwise the state has id, name and project copied and description from `Desc`; repositories and platform providers are null when empty, otherwise copied element by element in order; plugins are null when empty, otherwise a permutation of the piped's plugins (duplicates kept, targets in order) sorted by name. |
| PipedDataSource.EntriesOf | internal/provider/data_source_piped.go:199-207 | One entry per plugin, same order, with each plugin's name and its deploy targets in order. |
| PipedDataSource.TargetsByNameAt | internal/provider/data_source_piped.go:199-207 | With distinct plugin names, each plugin's name maps to its own deploy targets. |
| PipedDataSource.PrefixListsEntries | internal/provider/data_source_piped.go:199-207 | With distinct names, the entries built from the plugins list exactly the name-to-targets map, one per name. |
| PipedDataSource.SortedPluginsUnique | internal/provider/data_source_piped.go:210-212 | With distinct names, any two name-sorted permutations of the plugin entries are equal. |
| PipedDataSource.StateUniqueWhenNamesDistinct | internal/provider/data_source_piped.go:169-215 | When plugin names are distinct, the published state is determined by the fetched piped. |
| PluginList.StringValues | internal/provider/data_source_application.go:201-204 | The target list has the same length, and each element is the known value of the source string at the same index. |
| PluginList.SortByName | internal/provider/data_source_application.go:210-212 | After the in-place sort the array is ascending by name and a permutation of its old contents. |
| PluginList.AppendEntry | internal/provider/data_source_application.go:200-208 | Appending the entry for an unvisited key keeps the list an exact listing of the visited keys. |
| PluginList.ListsEntriesPermutation | internal/provider/data_source_application.go:210-212 | A permutation of an exact listing of a map's keys is again an exact listing. |
| PluginList.DistinctSortedIsStrict | internal/provider/data_source_application.go:210-212 | A name-sorted list with distinct names is strictly ascending. |
| PluginList.ListsEntriesUnique | internal/provider/data_source_application.go:199-212 | Two strictly ascending exact listings of a map are equal: the sorted plugin list is unique. |
| StringOrder.LessIrreflexive | internal/provider/data_source_application.go:211 | No name sorts before itself. |
| StringOrder.LessAsymmetric | internal/provider/data_source_application.go:211 | Two names are never each before the other. |
| StringOrder.LessTransitive | internal/provider/data_source_application.go:211 | Name order is transitive. |
| StringOrder.LessTotal | internal/provider/data_source_application.go:211 | Of two different names, one sorts before the other. |
| StringOrder.NotLessTransitive | internal/provider/data_source_piped.go:212 | "Not before" is transitive, which the sort's hole invariant needs. |
| StringOrder.PrefixLess | internal/provider/data_source_application.go:211 | A proper prefix sorts before the longer name. |
| StringOrder.StrictlyIncreasingUnique | internal/provider/data_source_application.go:210-212 | Two strictly ascending name lists with the same members are equal. |
| Api.KindValueOf | internal/provider/resource_application.go:188 | An unknown kind name gives 0; for a valid enumeration a known name gives a value whose name is that name again. |
| Terraform.KnownAll | internal/provider/data_source_application.go:201-204 | Same length, each element the known value of the source string at that index. |
| Provider.PipeCDProvider.Configure | internal/provider/provider.go:69-167 | Unknown host and/or key each give an attribute error, and Configure stops with no dial and no client change. Otherwise host and key are the config values unless null, else the environment's. Each empty one is reported, with no dial. An existing client is reused without dialling. Otherwise it dials with the resolved host and key: a failure gives "Unable to Create PipeCD API Client" and the client stays nil; success stores the client. The client is published to data sources and resources exactly when there are no diagnostics. |
| Provider.PipeCDProvider.constructor | internal/provider/provider.go:183-189 | A new provider has the given version and no client. |
| Provider.DataSources | internal/provider/provider.go:169-174 | Two distinct data sources are registered. |
| Provider.DataSourcesComplete | internal/provider/provider.go:169-174 | The application and piped data sources are both registered. |
| Provider.Resources | internal/provider/provider.go:176-181 | Two distinct resources are registered. |
| Provider.ResourcesComplete | internal/provider/provider.go:176-181 | The application and piped resources are both registered. |
| ApplicationResource.PlannedFilename | internal/provider/resource_application.go:168-173 | An unset `git.filename` is planned as "app.pipecd.yaml"; a set one is kept. |
| ApplicationResource.DefaultFilenameSent | internal/provider/resource_application.go:172 | A plan whose filename was left unset sends "app.pipecd.yaml" in Create's add request. |
| ApplicationResource.ToApplication | internal/provider/resource_application.go:180-199 | The application carries the model's id, name, piped id, platform provider and description ("" when unset). Its git path is the model's path and filename, with a repository that has only the model's repository id. An unknown kind name gives kind 0, and a known one gives a kind named by it. There are no plugins and no project. |
| ApplicationResource.StateOfApplication | internal/provider/resource_application.go:242-254 | The id is the one given. Name, piped id, platform provider, description, repository id, path and filename are the fetched application's, all known. The kind is the fetched kind's name. |
| ApplicationResource.Create | internal/provider/resource_application.go:201-257 | The first request is the add request built from the plan: name, piped id, git path, kind, platform provider and description. A failed add gives "Error creating application" and no state. Otherwise the new id is fetched; a failed get gives "Error getting application" and no state. Otherwise the state is the fetched application under the add response's id. State is written exactly when there are no diagnostics. |
| ApplicationResource.Read | internal/provider/resource_application.go:259-269 | No request, no diagnostics, state unchanged. |
| ApplicationResource.Update | internal/provider/resource_application.go:271-293 | One update request with the plan's id, piped id, platform provider and git path. On success the state becomes the plan. On failure the state is unchanged and the error is "Error updating application". |
| ApplicationResource.Delete | internal/provider/resource_application.go:295-314 | One delete request with the state's id; a failure gives "Error Deleting PipeCD application"; the handler leaves the state as it is. |
| ApplicationResource.ImportState | internal/provider/resource_application.go:65-93 | One get request with the import id. A failure gives "Error reading application" and no state. Otherwise the state is the fetched application under the import id. |
| ApplicationResource.StateThenApplication | internal/provider/resource_application.go:78-90 | Converting a recorded state back gives the fetched application as the resource describes it (its other fields dropped), when its kind is named. |
| ApplicationResource.CreateRecordsPlan | internal/provider/resource_application.go:209-254 | When the kind passed its validator, the plan's attributes are known and the server stores what the add request asked, Create records exactly the plan with the new id. |
| ApplicationResource.UpdateIgnoresImmutable | internal/provider/resource_application.go:278-283 | Plans that differ only in name, kind or description send the same update request. |
| PipedResource.ToPiped | internal/provider/resource_piped.go:112-119 | The piped carries the model's id, name and description ("" when unset), and nothing else. |
| PipedResource.RegisteredState | internal/provider/resource_piped.go:144-149 | Id and key from the registration response; name and description as sent. |
| PipedResource.ImportedState | internal/provider/resource_piped.go:66-71 | The import id, the fetched name and description, and an unknown key. |
| PipedResource.Create | internal/provider/resource_piped.go:121-152 | One register request with the plan's name and description only. A failure gives "Error creating piped" and no state. Otherwise the state has the response's id and key and the name and description sent. |
| PipedResource.Read | internal/provider/resource_piped.go:154-164 | No request, no diagnostics, state unchanged. |
| PipedResource.Update | internal/provider/resource_piped.go:166-192 | One update request with the plan's id, name and description. On success the state becomes the plan. On failure the state is unchanged and the error is "Error updating piped". |
| PipedResource.Delete | internal/provider/resource_piped.go:194-219 | One disable request with the state's id. On success the resource leaves the state. On failure it stays, with "Error Disabling PipeCD piped". |
| PipedResource.ImportState | internal/provider/resource_piped.go:53-74 | One get request with the import id. A failure gives "Error reading piped" and no state. Otherwise the state is the import id, the fetched name and description, and an unknown key. |
| PipedResource.CreateKeepsPlan | internal/provider/resource_piped_test.go:73-76 | With a known name and description, Create records the plan with the registration's id and key. |
| PipedResource.ImportAfterCreate | internal/provider/resource_piped.go:53-74 | Importing the id Create received, when the control plane echoes name and description, records Create's state with the key unknown. |
| PipedResource.ImportedThenPiped | internal/provider/resource_piped.go:66-71 | Converting an imported state back gives the fetched piped's id, name and description. |

## Left out

- gRPC dialling, TLS configuration and per-request credentials: the dial is an input outcome, and a client is an opaque handle.
- The control-plane API and its server: every call's outcome is an input; no server behaviour is modelled.
- `Schema` and `Metadata`, plan modifiers such as `UseStateForUnknown` and `RequiresReplace`, and the framework's `Get`/`Set` conversion, with their diagnostics. The kind validator and the filename default appear only as `ApplicationResource.Planned` and `ApplicationResource.PlannedFilename`.
- Whatever the framework does after a handler returns. For example, it drops an application from state after a Delete without errors; `ApplicationResource.Delete` states only that the handler itself writes nothing.
- The detail texts of the provider's attribute errors: the model keeps the attribute and the summary only.
- The kind enumeration's tables, which come from an external package: they are a parameter, assumed to be inverse bijections where a lemma needs it.
- Logging (`tflog`, and the `log.Printf` warning in the piped Delete): a side effect only.
- `main.go`, the resources' `Configure` (a type assertion on the provider data) and the tests' harness and mocks.
- Go's nil-pointer panics on a missing part of a response: a nil `Application` or `Piped` in a get response (data sources and imports), a nil `GitPath` or `GitPath.Repo`, a nil deploy-target entry in an application's plugin map, and a nil element in a piped's repositories, platform providers or plugins. The model's records always carry every part, so these panics cannot occur in it.
- PipedDataSource.Read: the order of plugins with equal names is not stated, because `sort.Slice` is not stable.
