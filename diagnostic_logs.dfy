/**
 * The request-decision logic of the diagnostic-logs settings page: the route
 * action that validates the submitted form, builds the generate-logs request
 * and turns its outcome into the message shown to the user; the loader that
 * yields either an error message or the fetched log links; the filter that
 * hides the two internet pseudo-nodes from the host and cluster pickers; and
 * the rules by which the two tables choose what to show.
 *
 * The network calls are not modelled: the outcome of a request is a parameter.
 */
module DiagnosticLogs {
  import opened Wrappers

  // ---------------------------------------------------------------------------
  // Constants of the page
  // ---------------------------------------------------------------------------

  const ConsoleLogsAction: string := "consoleLogs"
  const AgentLogsAction: string := "agentLogs"

  /** Number of trailing log lines every generate request asks for. */
  const Tail: int := 10000

  const SelectHostOrClusterMessage: string := "Please select at least one host/cluster"
  const NoActionMessage: string := "You have not triggered any action"
  const GenerationFailedMessage: string := "Something went wrong on generating the logs"
  const LoadFailedMessage: string := "Error in getting diagnostic logs"

  /** Pseudo-nodes standing for the internet; never offered in the pickers. */
  const ExcludedNodes: seq<string> := ["in-the-internet", "out-the-internet"]

  // ---------------------------------------------------------------------------
  // The submitted form and the actionType it carries
  // ---------------------------------------------------------------------------

  /** Every value submitted under `actionType`, `nodeIds[]` and `clusterIds[]`, in order. */
  datatype FormData = FormData(actionType: seq<string>, nodeIds: seq<string>, clusterIds: seq<string>)

  /** A JavaScript array's `toString()`: the elements joined with ','. */
  function Join(xs: seq<string>): string
  {
    if |xs| == 0 then ""
    else if |xs| == 1 then xs[0]
    else xs[0] + "," + Join(xs[1..])
  }

  /** The action type the route reads: all `actionType` values, joined. */
  function ActionType(form: FormData): string
  {
    Join(form.actionType)
  }

  /** Joining two or more values always puts a ',' right after the first one. */
  lemma JoinMany(xs: seq<string>)
    requires |xs| >= 2
    ensures |Join(xs)| > |xs[0]| && Join(xs)[|xs[0]|] == ','
  {
    assert Join(xs) == xs[0] + "," + Join(xs[1..]);
  }

  /** The joined action type is empty exactly when nothing, or one empty value, was submitted. */
  lemma JoinEmpty(xs: seq<string>)
    ensures Join(xs) == "" <==> xs == [] || xs == [""]
  {
    if |xs| >= 2 {
      JoinMany(xs);
    }
  }

  /** A non-empty value without ',' is the joined action type exactly when it was the only value submitted. */
  lemma JoinCommaFree(xs: seq<string>, s: string)
    requires s != "" && ',' !in s
    ensures Join(xs) == s <==> xs == [s]
  {
    if |xs| >= 2 {
      JoinMany(xs);
      assert Join(xs)[|xs[0]|] in Join(xs);
    }
  }

  /** The two known action types are read back exactly when they were submitted alone. */
  lemma ActionTypeKnown(form: FormData)
    ensures ActionType(form) == AgentLogsAction <==> form.actionType == [AgentLogsAction]
    ensures ActionType(form) == ConsoleLogsAction <==> form.actionType == [ConsoleLogsAction]
  {
    JoinCommaFree(form.actionType, AgentLogsAction);
    JoinCommaFree(form.actionType, ConsoleLogsAction);
  }

  /** The form posted by the console panel: only its hidden `actionType` field. */
  function ConsoleForm(): FormData
  {
    FormData([ConsoleLogsAction], [], [])
  }

  /** The form posted by the agent panel with the selected hosts and clusters. */
  function AgentForm(hosts: seq<string>, clusters: seq<string>): FormData
  {
    FormData([AgentLogsAction], hosts, clusters)
  }

  // ---------------------------------------------------------------------------
  // The generate-logs requests
  // ---------------------------------------------------------------------------

  datatype NodeType = Host | Cluster

  /** One targeted node of an agent request: `{node_id, node_type}`. */
  datatype NodeIdentifier = NodeIdentifier(nodeId: string, nodeType: NodeType)

  datatype GenerateRequest =
    | GenerateAgentLogs(nodeIds: seq<NodeIdentifier>, tail: int)
    | GenerateConsoleLogs(tail: int)

  /** Tags every identifier with the node type, keeping their order. */
  function Tag(ids: seq<string>, t: NodeType): (r: seq<NodeIdentifier>)
    ensures |r| == |ids|
    ensures forall i :: 0 <= i < |ids| ==> r[i] == NodeIdentifier(ids[i], t)
  {
    if ids == [] then [] else [NodeIdentifier(ids[0], t)] + Tag(ids[1..], t)
  }

  /** The request an action type asks for, if it is one of the two known ones. */
  function BuildRequest(actionType: string, form: FormData): Option<GenerateRequest>
  {
    if actionType == AgentLogsAction then
      Some(GenerateAgentLogs(Tag(form.nodeIds, Host) + Tag(form.clusterIds, Cluster), Tail))
    else if actionType == ConsoleLogsAction then
      Some(GenerateConsoleLogs(Tail))
    else
      None
  }

  // ---------------------------------------------------------------------------
  // Request outcomes and the error handler
  // ---------------------------------------------------------------------------

  /** The value an ApiError carries: `{message?: string}`. */
  datatype ApiErrorValue = ApiErrorValue(message: Option<string>)

  /**
   * What the request helper resolves to: a success, or an ApiError whose
   * value's `message` is given when present.
   */
  datatype Outcome = Ok | ApiErr(message: Option<string>)

  /**
   * The error handler both generate requests install, on an HTTP error status
   * and the `message` of the parsed error body: for 400 and 409 an error value
   * whose message is the body's, or '' when the body has none; for any other
   * status it gives nothing back.
   */
  function ErrorHandler(status: int, bodyMessage: Option<string>): (r: Option<ApiErrorValue>)
    ensures r.Some? <==> status == 400 || status == 409
    ensures r.Some? ==> r.value.message.Some?
    ensures r.Some? && bodyMessage.Some? ==> r.value.message.value == bodyMessage.value
    ensures r.Some? && bodyMessage.None? ==> r.value.message.value == ""
  {
    if status == 400 || status == 409 then
      Some(ApiErrorValue(Some(bodyMessage.GetOr(""))))
    else
      None
  }

  /** The outcome of a request whose error handler returned the error value `e`. */
  function HandledOutcome(e: ApiErrorValue): Outcome
  {
    ApiErr(e.message)
  }

  // ---------------------------------------------------------------------------
  // The route action
  // ---------------------------------------------------------------------------

  /**
   * Everything one submission does: the request it issues (if any), whether
   * the success notification is shown, and the message it returns (`null`
   * is `None`).
   */
  datatype ActionResult = ActionResult(request: Option<GenerateRequest>, successToast: bool, returned: Option<string>)

  /** The two validation checks, in the order the action makes them. */
  function Validate(form: FormData): Option<string>
  {
    var t := ActionType(form);
    if t == AgentLogsAction && |form.nodeIds| == 0 && |form.clusterIds| == 0 then
      Some(SelectHostOrClusterMessage)
    else if t == "" then
      Some(NoActionMessage)
    else
      None
  }

  /** The same two checks made in the other order. */
  function ValidateNoActionFirst(form: FormData): Option<string>
  {
    var t := ActionType(form);
    if t == "" then
      Some(NoActionMessage)
    else if t == AgentLogsAction && |form.nodeIds| == 0 && |form.clusterIds| == 0 then
      Some(SelectHostOrClusterMessage)
    else
      None
  }

  /**
   * The route action on a submitted form, where `outcome` is what the
   * request it issues resolves to (ignored when it issues none).
   */
  function Action(form: FormData, outcome: Outcome): (r: ActionResult)
    ensures r.request.Some? <==>
              ActionType(form) == ConsoleLogsAction ||
              (ActionType(form) == AgentLogsAction && (|form.nodeIds| > 0 || |form.clusterIds| > 0))
    ensures r.returned == Some(GenerationFailedMessage) <==>
              r.request.Some? && outcome.ApiErr? && outcome.message.Some?
    ensures r.successToast <==> r.returned.None?
    ensures r.request.Some? && !(outcome.ApiErr? && outcome.message.Some?) ==>
              r.successToast && r.returned.None?
    ensures r.returned == Some(SelectHostOrClusterMessage) <==>
              ActionType(form) == AgentLogsAction && form.nodeIds == [] && form.clusterIds == []
  {
    match Validate(form)
    case Some(m) => ActionResult(None, false, Some(m))
    case None =>
      var request := BuildRequest(ActionType(form), form);
      // `let result = null`, then the request helper's outcome if one is issued
      var result := if request.Some? then Some(outcome) else None;
      if result.Some? && result.value.ApiErr? && result.value.message.Some? then
        ActionResult(request, false, Some(GenerationFailedMessage))
      else
        ActionResult(request, true, None)
  }

  /** An agent submission with no host and no cluster is refused before any request. */
  lemma EmptyAgentSelectionRejected(form: FormData, outcome: Outcome)
    requires ActionType(form) == AgentLogsAction
    requires form.nodeIds == [] && form.clusterIds == []
    ensures Action(form, outcome) == ActionResult(None, false, Some(SelectHostOrClusterMessage))
  {
  }

  /** A submission without an action type is refused before any request. */
  lemma MissingActionRejected(form: FormData, outcome: Outcome)
    requires form.actionType == [] || form.actionType == [""]
    ensures Action(form, outcome) == ActionResult(None, false, Some(NoActionMessage))
  {
    JoinEmpty(form.actionType);
  }

  /** The missing-action message is returned exactly when the action type joins to ''. */
  lemma MissingActionIff(form: FormData, outcome: Outcome)
    ensures Action(form, outcome).returned == Some(NoActionMessage) <==>
              form.actionType == [] || form.actionType == [""]
  {
    JoinEmpty(form.actionType);
  }

  /** The agent check needs the non-empty 'agentLogs', so the check order does not matter. */
  lemma ValidationOrderIrrelevant(form: FormData)
    ensures Validate(form) == ValidateNoActionFirst(form)
  {
  }

  /**
   * A valid agent submission issues one request: the hosts tagged Host in
   * their order, then the clusters tagged Cluster in their order, tail 10000.
   */
  lemma AgentRequestShape(form: FormData, outcome: Outcome)
    requires ActionType(form) == AgentLogsAction
    requires form.nodeIds != [] || form.clusterIds != []
    ensures Action(form, outcome).request.Some?
    ensures Action(form, outcome).request.value.GenerateAgentLogs?
    ensures Action(form, outcome).request.value.tail == Tail
    ensures var ids := Action(form, outcome).request.value.nodeIds;
              && |ids| == |form.nodeIds| + |form.clusterIds|
              && (forall i :: 0 <= i < |form.nodeIds| ==> ids[i] == NodeIdentifier(form.nodeIds[i], Host))
              && (forall j :: 0 <= j < |form.clusterIds| ==>
                    ids[|form.nodeIds| + j] == NodeIdentifier(form.clusterIds[j], Cluster))
  {
    var hosts, clusters := Tag(form.nodeIds, Host), Tag(form.clusterIds, Cluster);
    var ids := Action(form, outcome).request.value.nodeIds;
    assert ids == hosts + clusters;
    forall j | 0 <= j < |form.clusterIds|
      ensures ids[|form.nodeIds| + j] == NodeIdentifier(form.clusterIds[j], Cluster)
    {
      assert ids[|hosts| + j] == clusters[j];
    }
  }

  /**
   * An issued request that succeeds, or fails with an ApiError whose value
   * has no message, ends in the success notification and returns null.
   */
  lemma IssuedWithoutMessageSucceeds(form: FormData)
    requires Action(form, Ok).request.Some?
    ensures Action(form, Ok) == ActionResult(Action(form, Ok).request, true, None)
    ensures Action(form, ApiErr(None)) == ActionResult(Action(form, Ok).request, true, None)
  {
  }

  /** A console submission issues a request carrying only tail 10000. */
  lemma ConsoleRequestShape(form: FormData, outcome: Outcome)
    requires ActionType(form) == ConsoleLogsAction
    ensures Action(form, outcome).request == Some(GenerateConsoleLogs(Tail))
  {
  }

  /** An unknown non-empty action type issues nothing and ends in the success return. */
  lemma UnknownActionSucceeds(form: FormData, outcome: Outcome)
    requires ActionType(form) != "" && ActionType(form) != AgentLogsAction && ActionType(form) != ConsoleLogsAction
    ensures Action(form, outcome) == ActionResult(None, true, None)
  {
  }

  /** The console panel's form issues the console request. */
  lemma ConsoleFormRequest(outcome: Outcome)
    ensures Action(ConsoleForm(), outcome).request == Some(GenerateConsoleLogs(Tail))
  {
    ActionTypeKnown(ConsoleForm());
  }

  /** The agent panel's form is refused exactly when nothing is selected, and otherwise issues an agent request. */
  lemma AgentFormRequest(hosts: seq<string>, clusters: seq<string>, outcome: Outcome)
    ensures Action(AgentForm(hosts, clusters), outcome).returned == Some(SelectHostOrClusterMessage) <==>
              hosts == [] && clusters == []
    ensures hosts != [] || clusters != [] ==>
              Action(AgentForm(hosts, clusters), outcome).request ==
                Some(GenerateAgentLogs(Tag(hosts, Host) + Tag(clusters, Cluster), Tail))
  {
    ActionTypeKnown(AgentForm(hosts, clusters));
  }

  /**
   * When an issued request fails with status 400 or 409, whatever the body's
   * message (absent, '' or any text), the action reports the generic failure.
   */
  lemma RejectedStatusReportsFailure(form: FormData, status: int, bodyMessage: Option<string>)
    requires Action(form, Ok).request.Some?
    requires status == 400 || status == 409
    ensures ErrorHandler(status, bodyMessage).Some?
    ensures Action(form, HandledOutcome(ErrorHandler(status, bodyMessage).value)) ==
              ActionResult(Action(form, Ok).request, false, Some(GenerationFailedMessage))
  {
  }

  /** The scenario of a busy node: status 409 with body `{message: "busy"}`, or with an empty message. */
  lemma BusyAgentReportsFailure()
    ensures Action(AgentForm(["host-1"], []), HandledOutcome(ErrorHandler(409, Some("busy")).value)).returned ==
              Some(GenerationFailedMessage)
    ensures Action(AgentForm(["host-1"], []), HandledOutcome(ErrorHandler(409, Some("")).value)).returned ==
              Some(GenerationFailedMessage)
  {
    ActionTypeKnown(AgentForm(["host-1"], []));
  }

  // ---------------------------------------------------------------------------
  // Host and cluster pickers
  // ---------------------------------------------------------------------------

  /** `EXCLUDES_NODES.includes(id)`. */
  predicate IsExcluded(id: string)
  {
    id in ExcludedNodes
  }

  /** The options whose identifier (given by `id`) is not an excluded pseudo-node, in order. */
  function KeepSelectable<T>(options: seq<T>, id: T -> string): (r: seq<T>)
    ensures |r| <= |options|
    ensures forall i :: 0 <= i < |r| ==> !IsExcluded(id(r[i]))
    ensures forall x :: x in r ==> x in options
    ensures forall x :: x in options && !IsExcluded(id(x)) ==> x in r
  {
    if options == [] then []
    else (if IsExcluded(id(options[0])) then [] else [options[0]]) + KeepSelectable(options[1..], id)
  }

  /** Filtering commutes with concatenation, so the kept options stay in their original order. */
  lemma {:induction false} KeepSelectableAppend<T>(a: seq<T>, b: seq<T>, id: T -> string)
    ensures KeepSelectable(a + b, id) == KeepSelectable(a, id) + KeepSelectable(b, id)
  {
    if a == [] {
      assert a + b == b;
    } else {
      assert (a + b)[0] == a[0];
      assert (a + b)[1..] == a[1..] + b;
      KeepSelectableAppend(a[1..], b, id);
    }
  }

  /** Every option that is not excluded is kept as often as it occurs; excluded ones never. */
  lemma {:induction false} KeepSelectableCount<T>(options: seq<T>, id: T -> string, x: T)
    ensures multiset(KeepSelectable(options, id))[x] ==
              if IsExcluded(id(x)) then 0 else multiset(options)[x]
  {
    if options != [] {
      KeepSelectableCount(options[1..], id, x);
      assert options == [options[0]] + options[1..];
      assert multiset(options) == multiset([options[0]]) + multiset(options[1..]);
    }
  }

  /** The filter leaves the options unchanged exactly when none of them is excluded. */
  lemma {:induction false} KeepSelectableUnchanged<T>(options: seq<T>, id: T -> string)
    ensures KeepSelectable(options, id) == options <==> forall i :: 0 <= i < |options| ==> !IsExcluded(id(options[i]))
  {
    if options != [] {
      KeepSelectableUnchanged(options[1..], id);
      if IsExcluded(id(options[0])) {
        assert |KeepSelectable(options, id)| < |options|;
      } else {
        assert forall i :: 1 <= i < |options| ==> options[i] == options[1..][i - 1];
      }
    }
  }

  /** Filtering twice is filtering once. */
  lemma {:induction false} KeepSelectableIdempotent<T>(options: seq<T>, id: T -> string)
    ensures KeepSelectable(KeepSelectable(options, id), id) == KeepSelectable(options, id)
  {
    KeepSelectableUnchanged(KeepSelectable(options, id), id);
  }

  /** A host of the host directory: `{nodeId, hostName}`. */
  datatype HostOption = HostOption(nodeId: string, hostName: string)

  /** A cluster of the cluster directory: `{clusterId, clusterName}`. */
  datatype ClusterOption = ClusterOption(clusterId: string, clusterName: string)

  /** One entry of a picker: the value submitted and the text shown. */
  datatype SelectItem = SelectItem(value: string, text: string)

  function HostId(h: HostOption): string { h.nodeId }

  function ClusterId(c: ClusterOption): string { c.clusterId }

  /** The entries of the host picker. */
  function HostItems(hosts: seq<HostOption>): (r: seq<SelectItem>)
    ensures forall i :: 0 <= i < |r| ==> !IsExcluded(r[i].value)
    ensures forall h :: h in hosts && !IsExcluded(h.nodeId) ==> SelectItem(h.nodeId, h.hostName) in r
    ensures forall item :: item in r ==> exists h :: h in hosts && item == SelectItem(h.nodeId, h.hostName)
    ensures var kept := KeepSelectable(hosts, HostId);
              && |r| == |kept|
              && forall i :: 0 <= i < |kept| ==> r[i] == SelectItem(kept[i].nodeId, kept[i].hostName)
  {
    var kept := KeepSelectable(hosts, HostId);
    var r := seq(|kept|, i requires 0 <= i < |kept| => SelectItem(kept[i].nodeId, kept[i].hostName));
    assert forall h :: h in hosts && !IsExcluded(h.nodeId) ==> h in kept by {
      forall h | h in hosts && !IsExcluded(h.nodeId) ensures h in kept {
        assert HostId(h) == h.nodeId;
      }
    }
    assert forall i :: 0 <= i < |kept| ==> r[i] == SelectItem(kept[i].nodeId, kept[i].hostName) && kept[i] in hosts;
    assert forall h :: h in kept ==> SelectItem(h.nodeId, h.hostName) in r by {
      forall h | h in kept ensures SelectItem(h.nodeId, h.hostName) in r {
        var i :| 0 <= i < |kept| && kept[i] == h;
        assert r[i] == SelectItem(h.nodeId, h.hostName);
      }
    }
    r
  }

  /** The entries of the cluster picker. */
  function ClusterItems(clusters: seq<ClusterOption>): (r: seq<SelectItem>)
    ensures forall i :: 0 <= i < |r| ==> !IsExcluded(r[i].value)
    ensures forall c :: c in clusters && !IsExcluded(c.clusterId) ==> SelectItem(c.clusterId, c.clusterName) in r
    ensures forall item :: item in r ==> exists c :: c in clusters && item == SelectItem(c.clusterId, c.clusterName)
    ensures var kept := KeepSelectable(clusters, ClusterId);
              && |r| == |kept|
              && forall i :: 0 <= i < |kept| ==> r[i] == SelectItem(kept[i].clusterId, kept[i].clusterName)
  {
    var kept := KeepSelectable(clusters, ClusterId);
    var r := seq(|kept|, i requires 0 <= i < |kept| => SelectItem(kept[i].clusterId, kept[i].clusterName));
    assert forall c :: c in clusters && !IsExcluded(c.clusterId) ==> c in kept by {
      forall c | c in clusters && !IsExcluded(c.clusterId) ensures c in kept {
        assert ClusterId(c) == c.clusterId;
      }
    }
    assert forall i :: 0 <= i < |kept| ==> r[i] == SelectItem(kept[i].clusterId, kept[i].clusterName) && kept[i] in clusters;
    assert forall c :: c in kept ==> SelectItem(c.clusterId, c.clusterName) in r by {
      forall c | c in kept ensures SelectItem(c.clusterId, c.clusterName) in r {
        var i :| 0 <= i < |kept| && kept[i] == c;
        assert r[i] == SelectItem(c.clusterId, c.clusterName);
      }
    }
    r
  }

  // ---------------------------------------------------------------------------
  // The loader and the two tables
  // ---------------------------------------------------------------------------

  /** One generated log bundle; every field of the generated type is optional. */
  datatype DiagnosticLogsLink = DiagnosticLogsLink(
    logLabel: Option<string>, createdAt: Option<int>, message: Option<string>, urlLink: Option<string>)

  datatype GetDiagnosticLogsResponse = GetDiagnosticLogsResponse(
    consoleLogs: Option<seq<DiagnosticLogsLink>>, agentLogs: Option<seq<DiagnosticLogsLink>>)

  /** What the request for the log links resolves to. */
  datatype LoadOutcome = Loaded(response: GetDiagnosticLogsResponse) | LoadFailed

  /** The loader's record: `{message?, data?}`. */
  datatype LoaderData = LoaderData(message: Option<string>, data: Option<GetDiagnosticLogsResponse>)

  /** The loader: an error message when the request fails, the response otherwise, never both. */
  function GetDiagnosticLogs(outcome: LoadOutcome): (r: LoaderData)
    ensures r.message.Some? <==> r.data.None?
    ensures r.message.Some? <==> outcome.LoadFailed?
    ensures r.message.Some? ==> r.message.value == LoadFailedMessage
    ensures outcome.Loaded? ==> r.data == Some(outcome.response)
  {
    match outcome
    case LoadFailed => LoaderData(Some(LoadFailedMessage), None)
    case Loaded(response) => LoaderData(None, Some(response))
  }

  datatype LogTable = ConsoleTable | AgentTable

  /** A table's body: the error text in place of the table, or its rows. */
  datatype TableView = ErrorText(text: string) | Rows(logs: seq<DiagnosticLogsLink>)

  /** The logs a table shows from the loaded data: its list, or [] when data or the list is absent. */
  function TableLogs(data: Option<GetDiagnosticLogsResponse>, table: LogTable): seq<DiagnosticLogsLink>
  {
    match data
    case None => []
    case Some(response) =>
      match table
      case ConsoleTable => response.consoleLogs.GetOr([])
      case AgentTable => response.agentLogs.GetOr([])
  }

  /** A table shows the loader's message when it is a non-empty string, and its rows otherwise. */
  function ShowTable(d: LoaderData, table: LogTable): (v: TableView)
    ensures v.ErrorText? <==> d.message.Some? && d.message.value != ""
    ensures v.ErrorText? ==> v.text == d.message.value
    ensures v.Rows? ==> v.logs == TableLogs(d.data, table)
  {
    if d.message.Some? && d.message.value != "" then ErrorText(d.message.value)
    else Rows(TableLogs(d.data, table))
  }

  /** After loading, both tables show the load error exactly when the request failed, and their own list otherwise. */
  lemma LoadedTables(outcome: LoadOutcome, table: LogTable)
    ensures outcome.LoadFailed? ==> ShowTable(GetDiagnosticLogs(outcome), table) == ErrorText(LoadFailedMessage)
    ensures outcome.Loaded? && table.ConsoleTable? ==>
              ShowTable(GetDiagnosticLogs(outcome), table) == Rows(outcome.response.consoleLogs.GetOr([]))
    ensures outcome.Loaded? && table.AgentTable? ==>
              ShowTable(GetDiagnosticLogs(outcome), table) == Rows(outcome.response.agentLogs.GetOr([]))
  {
  }

  /**
   * A table's Download cell: the text 'No logs', or a 'Click to download'
   * link. `target` is the URL a click opens (the console table's link sets it
   * through its click handler); `None` for a link that opens nothing.
   */
  datatype DownloadCell = NoLogs | ClickToDownload(target: Option<string>)

  /** The agent table's Download cell: 'No logs' exactly when the entry's message is ''. */
  function AgentDownloadCell(link: DiagnosticLogsLink): (c: DownloadCell)
    ensures c.NoLogs? <==> link.message == Some("")
    ensures c.ClickToDownload? ==> c.target.None?
  {
    if link.message == Some("") then NoLogs else ClickToDownload(None)
  }

  /** The console table's Download cell: always a link whose click opens the entry's URL, or '' when it has none. */
  function ConsoleDownloadCell(link: DiagnosticLogsLink): (c: DownloadCell)
    ensures c.ClickToDownload?
    ensures c.target == Some(link.urlLink.GetOr(""))
  {
    ClickToDownload(Some(link.urlLink.GetOr("")))
  }
}
