# Diagnostic logs: request decisions and the ModelAgentId client type

This project models two pieces of a security-monitoring platform's code.

**The diagnostic-logs settings page** of the dashboard (module `DiagnosticLogs`,
file `diagnostic_logs.dfy`). The page's route action reads the submitted form.
It refuses an agent-logs submission that selects no host and no cluster. It
refuses a submission without an action type. Otherwise, for `agentLogs` or
`consoleLogs` it builds the matching generate request and maps its outcome to
the message it returns. Any other action type issues nothing and ends in the
success notification and `null` (`UnknownActionSucceeds`). Such a type is, for
example, two `actionType` values, which join to "agentLogs,agentLogs". The model
also covers:

- the loader's error-or-data record;
- the filter that hides the `in-the-internet` and `out-the-internet`
  pseudo-nodes from the host and cluster pickers;
- what each log table shows: the load error or its rows;
- the rule for the Download cell.

Everything here is pure. `Action(form, outcome)` returns three things: the
request it issues, whether the success notification is shown, and the returned
message. The network call is an abstract `Outcome` parameter. The error handler
is a function of the HTTP status and the body's optional message.

**The generated Go model `ModelAgentId` and `NullableModelAgentId`** (module
`ServerClient`, file `model_agent_id.dfy`). `ModelAgentId` is a class with one
field, `NodeId`. `NullableModelAgentId` is a class with fields `value` and
`isSet`. The methods that change these fields in Go are methods with `modifies`
clauses here. The nil-safe getters are functions that take a nullable
reference. A pure `NullableState` datatype of transition functions specifies
each mutating method, and lemmas state the properties of those transitions.
`Wrappers` (file `wrappers.dfy`) holds the `Option` type.

Two points about the action are easy to misread:

- The action checks for an empty agent selection before it checks for a
  missing action type. `ValidationOrderIrrelevant` proves that the order makes
  no difference.
- The action returns the generic failure message only when the request
  resolves to an ApiError whose value has a defined `message`. A request that
  succeeds, or resolves to an ApiError whose value has no `message`, ends in
  the success notification and returns `null`. `IssuedWithoutMessageSucceeds`
  proves this.

## Model

| member | source | states |
|---|---|---|
| `DiagnosticLogs.JoinEmpty` | deepfence_frontend/apps/dashboard/src/features/settings/pages/DiagnosticLogs.tsx:73 | The comma-joined action type is '' exactly when no value, or one empty value, was submitted |
| `DiagnosticLogs.JoinCommaFree` | deepfence_frontend/apps/dashboard/src/features/settings/pages/DiagnosticLogs.tsx:73 | A non-empty value without ',' is the joined action type exactly when it was submitted alone |
| `DiagnosticLogs.ActionTypeKnown` | deepfence_frontend/apps/dashboard/src/features/settings/pages/DiagnosticLogs.tsx:64-76 | 'agentLogs' or 'consoleLogs' is read back exactly when it is the only `actionType` value |
| `DiagnosticLogs.Tag` | deepfence_frontend/apps/dashboard/src/features/settings/pages/DiagnosticLogs.tsx:87-99 | Tagging keeps the length, and entry i is identifier i with the given node type |
| `DiagnosticLogs.ErrorHandler` | deepfence_frontend/apps/dashboard/src/features/settings/pages/DiagnosticLogs.tsx:111-121 | Gives an error value exactly for status 400 or 409, always with a defined message: the body's, or '' when absent |
| `DiagnosticLogs.Action` | deepfence_frontend/apps/dashboard/src/features/settings/pages/DiagnosticLogs.tsx:69-156 | A request is issued iff the action type is consoleLogs, or agentLogs with some host or cluster. The generic failure is returned iff a request was issued and it resolved to an ApiError with a defined message. Any other outcome of an issued request gives the toast and null. The select-host/cluster message is returned iff the type is agentLogs and nothing is selected. The success toast is shown iff nothing is returned |
| `DiagnosticLogs.EmptyAgentSelectionRejected` | deepfence_frontend/apps/dashboard/src/features/settings/pages/DiagnosticLogs.tsx:75-81 | agentLogs with no host and no cluster returns the select-host/cluster message, issues nothing and shows no toast |
| `DiagnosticLogs.MissingActionRejected` | deepfence_frontend/apps/dashboard/src/features/settings/pages/DiagnosticLogs.tsx:82-84 | No action type (nothing or '' submitted) returns the no-action message and issues nothing |
| `DiagnosticLogs.MissingActionIff` | deepfence_frontend/apps/dashboard/src/features/settings/pages/DiagnosticLogs.tsx:73-84 | The no-action message is returned exactly when the `actionType` values are none or a single '' |
| `DiagnosticLogs.ValidationOrderIrrelevant` | deepfence_frontend/apps/dashboard/src/features/settings/pages/DiagnosticLogs.tsx:75-84 | Making the two validation checks in either order gives the same verdict |
| `DiagnosticLogs.AgentRequestShape` | deepfence_frontend/apps/dashboard/src/features/settings/pages/DiagnosticLogs.tsx:86-110 | A valid agent submission issues one agent request. Its node_ids are the hosts tagged Host in order, then the clusters tagged Cluster in order. Its length is the sum and its tail is 10000 |
| `DiagnosticLogs.IssuedWithoutMessageSucceeds` | deepfence_frontend/apps/dashboard/src/features/settings/pages/DiagnosticLogs.tsx:147-155 | An issued request that succeeds, or resolves to an ApiError without a message, shows the toast and returns null |
| `DiagnosticLogs.ConsoleRequestShape` | deepfence_frontend/apps/dashboard/src/features/settings/pages/DiagnosticLogs.tsx:123-132 | consoleLogs issues exactly the console request with tail 10000 and no node identifiers |
| `DiagnosticLogs.UnknownActionSucceeds` | deepfence_frontend/apps/dashboard/src/features/settings/pages/DiagnosticLogs.tsx:85-155 | A non-empty, unknown action type issues nothing, shows the success toast and returns null |
| `DiagnosticLogs.ConsoleFormRequest` | deepfence_frontend/apps/dashboard/src/features/settings/pages/DiagnosticLogs.tsx:334-345 | The console panel's form always issues the console request |
| `DiagnosticLogs.AgentFormRequest` | deepfence_frontend/apps/dashboard/src/features/settings/pages/DiagnosticLogs.tsx:373-432 | The agent panel's form is refused iff nothing is selected. Otherwise it issues the agent request built from its selections |
| `DiagnosticLogs.RejectedStatusReportsFailure` | deepfence_frontend/apps/dashboard/src/features/settings/pages/DiagnosticLogs.tsx:111-151 | Status 400 or 409 on an issued request returns the generic failure and no toast, whatever the body's message |
| `DiagnosticLogs.BusyAgentReportsFailure` | deepfence_frontend/apps/dashboard/src/features/settings/pages/DiagnosticLogs.tsx:133-151 | Status 409 with body message "busy", or with '', returns the generic failure |
| `DiagnosticLogs.KeepSelectable` | deepfence_frontend/apps/dashboard/src/features/settings/pages/DiagnosticLogs.tsx:395-398 | No kept option has an excluded id. Every kept option comes from the input. Every non-excluded input option is kept |
| `DiagnosticLogs.KeepSelectableAppend` | deepfence_frontend/apps/dashboard/src/features/settings/pages/DiagnosticLogs.tsx:417-420 | Filtering distributes over concatenation, so it keeps the original order |
| `DiagnosticLogs.KeepSelectableCount` | deepfence_frontend/apps/dashboard/src/features/settings/pages/DiagnosticLogs.tsx:157 | Each option occurs in the result as often as in the input, or not at all when its id is an excluded pseudo-node |
| `DiagnosticLogs.KeepSelectableUnchanged` | deepfence_frontend/apps/dashboard/src/features/settings/pages/DiagnosticLogs.tsx:396-398 | The filter returns its input unchanged exactly when no option has an excluded id |
| `DiagnosticLogs.KeepSelectableIdempotent` | deepfence_frontend/apps/dashboard/src/features/settings/pages/DiagnosticLogs.tsx:418-420 | Filtering twice gives the same as filtering once |
| `DiagnosticLogs.HostItems` | deepfence_frontend/apps/dashboard/src/features/settings/pages/DiagnosticLogs.tsx:395-405 | Host picker entries never have an excluded value. Every non-excluded host gets its (nodeId, hostName) entry. Every entry comes from some host. Entry i is the (nodeId, hostName) of the i-th kept host, so directory order and duplicates are kept |
| `DiagnosticLogs.ClusterItems` | deepfence_frontend/apps/dashboard/src/features/settings/pages/DiagnosticLogs.tsx:417-427 | The same for the cluster picker with (clusterId, clusterName), including entry i being the i-th kept cluster's |
| `DiagnosticLogs.GetDiagnosticLogs` | deepfence_frontend/apps/dashboard/src/features/settings/pages/DiagnosticLogs.tsx:41-56 | The loader yields exactly one of message and data. The message is present iff the request failed, and it is then 'Error in getting diagnostic logs'. On success, data is the response |
| `DiagnosticLogs.ShowTable` | deepfence_frontend/apps/dashboard/src/features/settings/pages/DiagnosticLogs.tsx:220-238 | A table shows the message iff it is a non-empty string. Otherwise it shows its own list, or [] when data or the list is absent |
| `DiagnosticLogs.LoadedTables` | deepfence_frontend/apps/dashboard/src/features/settings/pages/DiagnosticLogs.tsx:300-318 | After loading, each table shows the load error iff the request failed. Otherwise it shows console_logs or agent_logs, defaulting to [] |
| `DiagnosticLogs.AgentDownloadCell` | deepfence_frontend/apps/dashboard/src/features/settings/pages/DiagnosticLogs.tsx:273-279 | The agent Download cell is 'No logs' exactly when the entry's message is ''. Otherwise it is a link without a target |
| `DiagnosticLogs.ConsoleDownloadCell` | deepfence_frontend/apps/dashboard/src/features/settings/pages/DiagnosticLogs.tsx:190-205 | The console Download cell is always a link whose click opens url_link, or '' when absent |
| `ServerClient.ModelAgentId.constructor` | deepfence_server_client/model_model_agent_id.go:22-24 | The zero value ModelAgentId{} has NodeId '' |
| `ServerClient.NewModelAgentId` | deepfence_server_client/model_model_agent_id.go:30-34 | Returns a new value whose NodeId is the argument |
| `ServerClient.NewModelAgentIdWithDefaults` | deepfence_server_client/model_model_agent_id.go:39-42 | Returns a new value whose NodeId is '' |
| `ServerClient.GetNodeId` | deepfence_server_client/model_model_agent_id.go:45-52 | '' for a nil receiver, NodeId otherwise |
| `ServerClient.GetNodeIdOk` | deepfence_server_client/model_model_agent_id.go:56-61 | (nil, false) for a nil receiver. Otherwise (address of the receiver's NodeId, true) |
| `ServerClient.GetNodeIdOkAgrees` | deepfence_server_client/model_model_agent_id.go:54-61 | When GetNodeIdOk reports true, its pointer holds what GetNodeId returns |
| `ServerClient.ModelAgentId.SetNodeId` | deepfence_server_client/model_model_agent_id.go:64-66 | Afterwards NodeId and GetNodeId are v. Only the NodeId field may change |
| `ServerClient.ModelAgentId.ToMap` | deepfence_server_client/model_model_agent_id.go:76-80 | The map has exactly the key "node_id", bound to NodeId. The error is always nil |
| `ServerClient.NullableModelAgentId.constructor` | deepfence_server_client/model_model_agent_id.go:82-85 | The zero value holds nil and is not set |
| `ServerClient.NullableModelAgentId.Get` | deepfence_server_client/model_model_agent_id.go:87-89 | Returns the held value |
| `ServerClient.NullableModelAgentId.IsSet` | deepfence_server_client/model_model_agent_id.go:96-98 | Returns the set flag |
| `ServerClient.NullableModelAgentId.Set` | deepfence_server_client/model_model_agent_id.go:91-94 | Afterwards Get() is val, even nil, and IsSet() is true |
| `ServerClient.NullableModelAgentId.Unset` | deepfence_server_client/model_model_agent_id.go:100-103 | Afterwards Get() is nil and IsSet() is false. From the unset state it changes nothing |
| `ServerClient.NullableModelAgentId.UnmarshalJSON` | deepfence_server_client/model_model_agent_id.go:113-116 | Afterwards IsSet() is true even when decoding fails. The value is what the decoding stored. The error is the decoding's |
| `ServerClient.NewNullableModelAgentId` | deepfence_server_client/model_model_agent_id.go:105-107 | Returns a new wrapper whose Get() is val, even nil, and whose IsSet() is true |
| `ServerClient.SetOverwrites` | deepfence_server_client/model_model_agent_id.go:91-94 | After Set the value is val and the flag is up, whatever the earlier state was |
| `ServerClient.UnsetIdempotent` | deepfence_server_client/model_model_agent_id.go:100-103 | Unset clears both fields, and Unset after Unset is the same as one Unset |
| `ServerClient.UnmarshalMarksSet` | deepfence_server_client/model_model_agent_id.go:113-116 | The flag is up after UnmarshalJSON on either decoding result. On success the value is the decoded one |

## Left out

- Network calls through the request helper and the generated API client are not modelled. A generate request's result is the `Outcome` parameter, and the loader's is the `LoadOutcome` parameter. For statuses other than 400 and 409, the error handler returns nothing. What the request helper then resolves to is not modelled; it is covered only through the arbitrary `Outcome`.
- Reading the error body and the form data are not modelled: the body is a given optional message and the form a given `FormData`. A form value that is a file rather than a string is not modelled. On status 400 or 409, a body that fails to parse as JSON, or is JSON `null`, makes the error handler reject or throw. That failure path is not modelled: `ErrorHandler` always returns an error value for these statuses.
- The success toast is a flag in `ActionResult`. Its display is not modelled.
- React rendering is not modelled: suspense and deferred data, column definitions and widths, pagination, headings, and the local selection state.
- The spinner shown while the host and cluster directories load is not modelled. Its condition comes from the directory hooks, which are not part of this model. The code shows it only while both queries are not idle.
- The 15000 ms revalidation timer of the agent table is a background activity and is not modelled.
- Created-at formatting is not modelled, because its formatting helper is not part of this model.
- The anchor creation and `click()` behind the console download link are not modelled. Only the link's target is.
- The agent panel's display of the loader message and the action's message is not modelled.
- MarshalJSON of both Go types is not modelled; it wraps the JSON library. Only the map that ToMap gives it is modelled.
- ServerClient.NullableModelAgentId.UnmarshalJSON: JSON decoding is not modelled. The caller supplies what the decoding stored in `value` and its error. Decoding a JSON object into a non-nil `value` writes into the held ModelAgentId in place. That changes its NodeId for every alias, including references from GetNodeIdOk. The frame admits this change, but the contract does not say what the held object becomes.
- ServerClient.ModelAgentId.SetNodeId: a call on a nil receiver panics in Go. A Dafny method or member function cannot be called on null. The same holds for `Set`, `Unset` and `UnmarshalJSON`, which have pointer receivers. It also holds for `ToMap`, `Get` and `IsSet`, which have value receivers and panic when called through a nil pointer. These panics are not modelled.
- DiagnosticLogs.HandledOutcome: assumes that for status 400 or 409 the request helper resolves to the ApiError its error handler returned. The request helper is not part of this model. `RejectedStatusReportsFailure` and `BusyAgentReportsFailure` rest on this assumption.
- ServerClient.ModelAgentId.ToMap: the map's value has type `interface{}` in Go. Here it is a string, which is the only value ToMap ever stores.
- The icon component of the dashboard is static markup with no logic.
