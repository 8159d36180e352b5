/**
 * The Jira adapter server: a lazily connected Jira client, a dispatcher that
 * routes a tool name to one handler, and seven handlers that shape a request,
 * make one or two remote calls and project the response.
 *
 * The remote Jira service is an oracle `JiraService` from a call to its
 * decoded JSON response (or the exception the client library raises); the
 * client records every call it makes in a ghost log.
 */
module JiraServer {
  import opened Py
  import Collect

  // ---------------------------------------------------------------------
  // Configuration and connection
  // ---------------------------------------------------------------------

  datatype JiraConfig = JiraConfig(url: string, username: string, apiToken: string, cloud: bool)

  /** `os.getenv(key, default)` over the process environment. */
  function EnvOr(env: map<string, string>, key: string, default: string): string
  {
    if key in env then env[key] else default
  }

  /** The configuration read from the environment; `JIRA_CLOUD` defaults to "true". */
  function ConfigFromEnv(env: map<string, string>): (c: JiraConfig)
    ensures "JIRA_CLOUD" !in env ==> c.cloud
    ensures "JIRA_CLOUD" in env ==> (c.cloud <==> LowerAscii(env["JIRA_CLOUD"]) == "true")
    ensures c.url == "" <==> "JIRA_URL" !in env || env["JIRA_URL"] == ""
  {
    JiraConfig(
      EnvOr(env, "JIRA_URL", ""),
      EnvOr(env, "JIRA_USERNAME", ""),
      EnvOr(env, "JIRA_API_TOKEN", ""),
      LowerAscii(EnvOr(env, "JIRA_CLOUD", "true")) == "true")
  }

  const CredentialsMessage := "JIRA_URL, JIRA_USERNAME, and JIRA_API_TOKEN must be set"

  predicate MissingCredentials(c: JiraConfig)
  {
    c.url == "" || c.username == "" || c.apiToken == ""
  }

  // ---------------------------------------------------------------------
  // Remote calls and replies
  // ---------------------------------------------------------------------

  /** One call on the Jira client library. */
  datatype JiraCall =
    | Jql(jql: Value, limit: Value)
    | IssueById(key: Value)
    | NewIssue(fields: map<string, Value>)
    | UpdateIssueField(key: Value, fields: map<string, Value>)
    | IssueAddComment(key: Value, comment: Value)
    | GetIssueTransitions(key: Value)
    | SetIssueStatus(key: Value, transitionId: Value)
    | ListProjects

  /** The remote service: what each call returns, or raises. */
  type JiraService = JiraCall -> Result<Value>

  /** One element of the search projection. */
  datatype IssueRow = IssueRow(key: Value, summary: Value, status: Value, assignee: Value,
                               priority: Value, created: Value, updated: Value)

  /** The validated issue record that the get-issue handler serialises. */
  datatype JiraIssue = JiraIssue(key: string, summary: string, description: Option<string>,
                                 status: string, assignee: Option<string>, reporter: string,
                                 created: string, updated: string, priority: Option<string>,
                                 issueType: string, project: string)

  datatype ProjectRow = ProjectRow(key: Value, name: Value, id: Value)

  /** The single text content a handler returns; the list variants stand for their JSON text. */
  datatype JiraReply =
    | Text(text: string)
    | IssueList(issues: seq<IssueRow>)
    | IssueDetail(issue: JiraIssue)
    | ProjectList(projects: seq<ProjectRow>)

  /** `issue.get("fields", {})` for a dict issue. */
  function FieldsOf(issue: Value): Value
    requires issue.Dict?
  {
    ArgOr(issue.entries, "fields", EmptyDict)
  }

  /** `fields.get(key)` is truthy. */
  predicate Supplied(fields: map<string, Value>, key: string)
  {
    key in fields && Truthy(fields[key])
  }

  // ---------------------------------------------------------------------
  // jira_search_issues
  // ---------------------------------------------------------------------

  /** What a search row holds, field by field, including the per-field defaults. */
  ghost predicate SearchRowAgrees(issue: Value, row: IssueRow)
  {
    && issue.Dict? && "key" in issue.entries && row.key == issue.entries["key"]
    && FieldsOf(issue).Dict?
    && var f := FieldsOf(issue).entries;
    && row.summary == ArgOr(f, "summary", Str(""))
    && row.created == ArgOr(f, "created", Str(""))
    && row.updated == ArgOr(f, "updated", Str(""))
    && ("status" !in f ==> row.status == Str(""))
    && ("status" in f ==> f["status"].Dict? && row.status == ArgOr(f["status"].entries, "name", Str("")))
    && (!Supplied(f, "assignee") ==> row.assignee == Str("Unassigned"))
    && (Supplied(f, "assignee") ==>
          f["assignee"].Dict? && row.assignee == ArgOr(f["assignee"].entries, "displayName", Str("Unassigned")))
    && (!Supplied(f, "priority") ==> row.priority == Str(""))
    && (Supplied(f, "priority") ==>
          f["priority"].Dict? && row.priority == ArgOr(f["priority"].entries, "name", Str("")))
  }

  /**
   * The shapes the search loop can read: a dict issue with a "key", whose fields are a dict,
   * with a dict "status" when present and a dict "assignee"/"priority" when supplied.
   */
  ghost predicate SearchShaped(issue: Value)
  {
    && issue.Dict? && "key" in issue.entries
    && FieldsOf(issue).Dict?
    && var f := FieldsOf(issue).entries;
    && ("status" in f ==> f["status"].Dict?)
    && (Supplied(f, "assignee") ==> f["assignee"].Dict?)
    && (Supplied(f, "priority") ==> f["priority"].Dict?)
  }

  /** The body of the search loop for one issue. */
  function FormatIssue(issue: Value): (r: Result<IssueRow>)
    ensures r.Success? <==> SearchShaped(issue)
    ensures r.Success? ==> SearchRowAgrees(issue, r.value)
    ensures issue.Dict? && "key" !in issue.entries ==> r == Failure(KeyError("key"))
  {
    var fields :- GetOr(issue, "fields", EmptyDict);
    var key :- Index(issue, "key");
    var summary :- GetOr(fields, "summary", Str(""));
    var status :- GetNested(fields, "status", "name", Str(""));
    var assigneeSet :- GetOr(fields, "assignee", Null);
    var assignee :- if Truthy(assigneeSet) then GetNested(fields, "assignee", "displayName", Str("Unassigned"))
                    else Success(Str("Unassigned"));
    var prioritySet :- GetOr(fields, "priority", Null);
    var priority :- if Truthy(prioritySet) then GetNested(fields, "priority", "name", Str(""))
                    else Success(Str(""));
    var created :- GetOr(fields, "created", Str(""));
    var updated :- GetOr(fields, "updated", Str(""));
    Success(IssueRow(key, summary, status, assignee, priority, created, updated))
  }

  /** The search loop: one row per returned issue, appended in order. */
  method FormatIssues(issues: seq<Value>) returns (r: Result<seq<IssueRow>>)
    ensures r == Collect.MapAll(FormatIssue, issues)
  {
    var formatted: seq<IssueRow> := [];
    var i := 0;
    while i < |issues|
      invariant 0 <= i <= |issues|
      invariant Collect.MapAll(FormatIssue, issues[..i]) == Success(formatted)
    {
      var row := FormatIssue(issues[i]);
      assert issues[..i + 1][..i] == issues[..i];
      if row.Failure? {
        Collect.PrefixFailure(FormatIssue, issues, i + 1);
        return Failure(row.error);
      }
      formatted := formatted + [row.value];
      i := i + 1;
    }
    assert issues[..i] == issues;
    r := Success(formatted);
  }

  /** A successful search projection keeps the count and order of the issues and applies the defaults. */
  lemma {:induction false} SearchProjection(issues: seq<Value>, rows: seq<IssueRow>)
    requires Collect.MapAll(FormatIssue, issues) == Success(rows)
    ensures |rows| == |issues|
    ensures forall k :: 0 <= k < |rows| ==> SearchRowAgrees(issues[k], rows[k])
  {
    Collect.Pointwise(FormatIssue, issues);
  }

  function SearchIssuesReply(args: map<string, Value>, service: JiraService): Result<JiraReply>
  {
    var jql :- Arg(args, "jql");
    var results :- service(Jql(jql, ArgOr(args, "max_results", Int(50))));
    var issues :- GetOr(results, "issues", List([]));
    var items :- Iterate(issues);
    var rows :- Collect.MapAll(FormatIssue, items);
    Success(IssueList(rows))
  }

  function SearchIssuesCalls(args: map<string, Value>): seq<JiraCall>
  {
    if "jql" in args then [Jql(args["jql"], ArgOr(args, "max_results", Int(50)))] else []
  }

  /**
   * One query with the caller's limit (50 when omitted); a successful reply
   * lists one row per returned issue, in order.
   */
  lemma SearchIssuesContract(args: map<string, Value>, service: JiraService)
    requires "jql" in args
    ensures SearchIssuesCalls(args) ==
              [Jql(args["jql"], if "max_results" in args then args["max_results"] else Int(50))]
    ensures SearchIssuesReply(args, service).Success? ==>
              var resp := service(Jql(args["jql"], ArgOr(args, "max_results", Int(50))));
              var rows := SearchIssuesReply(args, service).value.issues;
              && resp.Success? && resp.value.Dict?
              && var items := Iterate(ArgOr(resp.value.entries, "issues", List([]))).value;
              && |rows| == |items|
              && forall k :: 0 <= k < |rows| ==> SearchRowAgrees(items[k], rows[k])
  {
    var reply := SearchIssuesReply(args, service);
    if reply.Success? {
      var resp := service(Jql(args["jql"], ArgOr(args, "max_results", Int(50))));
      var items := Iterate(ArgOr(resp.value.entries, "issues", List([]))).value;
      SearchProjection(items, reply.value.issues);
    }
  }

  // ---------------------------------------------------------------------
  // jira_get_issue
  // ---------------------------------------------------------------------

  /** `Optional[str]` accepts a str or None. */
  function OptionalStr(v: Value): Option<string>
    requires v.Str? || v.Null?
  {
    if v.Str? then Some(v.s) else None
  }

  /** The JSON value of an optional field: the string, or null. */
  function FromOptional(o: Option<string>): Value
  {
    match o
    case Some(s) => Str(s)
    case None => Null
  }

  /** The name of a pydantic field when its input is not acceptable. */
  function Rejected(name: string, v: Value, optional: bool): seq<string>
  {
    if v.Str? || (optional && v.Null?) then [] else [name]
  }

  /** `fields.get(outer, {}).get(inner, default)` for fields whose `outer` entry, when present, is a dict. */
  function NestedOr(f: map<string, Value>, outer: string, inner: string, default: Value): Value
    requires outer in f ==> f[outer].Dict?
  {
    if outer in f then ArgOr(f[outer].entries, inner, default) else default
  }

  /** `fields.get(key, {}).get(inner, "") if fields.get(key) else None` */
  function SuppliedOr(f: map<string, Value>, key: string, inner: string): Value
    requires Supplied(f, key) ==> f[key].Dict?
  {
    if Supplied(f, key) then ArgOr(f[key].entries, inner, Str("")) else Null
  }

  /** The fields read for summary to reporter have the shape those reads need. */
  ghost predicate FirstShaped(f: map<string, Value>)
  {
    && ("status" in f ==> f["status"].Dict?) && ("reporter" in f ==> f["reporter"].Dict?)
    && (Supplied(f, "assignee") ==> f["assignee"].Dict?)
  }

  /** The fields read for created to project have the shape those reads need. */
  ghost predicate LastShaped(f: map<string, Value>)
  {
    && ("issuetype" in f ==> f["issuetype"].Dict?) && ("project" in f ==> f["project"].Dict?)
    && (Supplied(f, "priority") ==> f["priority"].Dict?)
  }

  /** The issue has the shape the detail projection reads without a KeyError or AttributeError. */
  ghost predicate DetailShaped(issue: Value)
  {
    && issue.Dict? && "key" in issue.entries && FieldsOf(issue).Dict?
    && FirstShaped(FieldsOf(issue).entries) && LastShaped(FieldsOf(issue).entries)
  }

  ghost function FirstInputs(f: map<string, Value>): seq<Value>
    requires FirstShaped(f)
  {
    [ArgOr(f, "summary", Str("")), ArgOr(f, "description", Str("")),
     NestedOr(f, "status", "name", Str("")), SuppliedOr(f, "assignee", "displayName"),
     NestedOr(f, "reporter", "displayName", Str(""))]
  }

  ghost function LastInputs(f: map<string, Value>): seq<Value>
    requires LastShaped(f)
  {
    [ArgOr(f, "created", Str("")), ArgOr(f, "updated", Str("")), SuppliedOr(f, "priority", "name"),
     NestedOr(f, "issuetype", "name", Str("")), NestedOr(f, "project", "key", Str(""))]
  }

  /** The eleven values the detail projection hands to the `JiraIssue` model, in field order. */
  ghost function DetailInputs(issue: Value): (v: seq<Value>)
    requires DetailShaped(issue)
    ensures |v| == 11
  {
    var f := FieldsOf(issue).entries;
    [issue.entries["key"]] + FirstInputs(f) + LastInputs(f)
  }

  /**
   * Every input is acceptable to the model: a str, or a str or None for the
   * optional description, assignee and priority (positions 2, 4 and 8).
   */
  predicate Acceptable(v: seq<Value>)
    requires |v| == 11
  {
    && v[0].Str? && v[1].Str? && (v[2].Str? || v[2].Null?) && v[3].Str?
    && (v[4].Str? || v[4].Null?) && v[5].Str? && v[6].Str? && v[7].Str?
    && (v[8].Str? || v[8].Null?) && v[9].Str? && v[10].Str?
  }

  /** The JSON values a detail record was built from, in field order. */
  function AsInputs(d: JiraIssue): seq<Value>
  {
    [Str(d.key), Str(d.summary), FromOptional(d.description), Str(d.status), FromOptional(d.assignee),
     Str(d.reporter), Str(d.created), Str(d.updated), FromOptional(d.priority), Str(d.issueType),
     Str(d.project)]
  }

  const IssueFieldNames: set<string> :=
    {"key", "summary", "description", "status", "assignee", "reporter", "created", "updated",
     "priority", "issue_type", "project"}

  /**
   * pydantic validation of the `JiraIssue` model over the eleven inputs in
   * field order: it accepts exactly the acceptable inputs and keeps them
   * unchanged; otherwise it names the rejected fields.
   */
  function ValidateIssue(v: seq<Value>): (r: Result<JiraIssue>)
    requires |v| == 11
    ensures r.Success? <==> Acceptable(v)
    ensures r.Success? ==> AsInputs(r.value) == v
    ensures r.Failure? ==>
              && r.error.ValidationError? && r.error.model == "JiraIssue"
              && r.error.fields != [] && forall n :: n in r.error.fields ==> n in IssueFieldNames
  {
    if Acceptable(v) then
      Success(JiraIssue(v[0].s, v[1].s, OptionalStr(v[2]), v[3].s, OptionalStr(v[4]),
                        v[5].s, v[6].s, v[7].s, OptionalStr(v[8]), v[9].s, v[10].s))
    else
      Failure(ValidationError("JiraIssue",
        Rejected("key", v[0], false) + Rejected("summary", v[1], false)
        + Rejected("description", v[2], true) + Rejected("status", v[3], false)
        + Rejected("assignee", v[4], true) + Rejected("reporter", v[5], false)
        + Rejected("created", v[6], false) + Rejected("updated", v[7], false)
        + Rejected("priority", v[8], true) + Rejected("issue_type", v[9], false)
        + Rejected("project", v[10], false)))
  }

  /** The reads for summary, description, status, assignee and reporter, in source order. */
  function FirstReads(fields: Value): (r: Result<seq<Value>>)
    ensures r.Success? <==> fields.Dict? && FirstShaped(fields.entries)
    ensures r.Success? ==> r.value == FirstInputs(fields.entries)
  {
    var summary :- GetOr(fields, "summary", Str(""));
    var description := GetOr(fields, "description", Str("")).value;
    var status :- GetNested(fields, "status", "name", Str(""));
    var assigneeSet := GetOr(fields, "assignee", Null).value;
    var assignee :- if Truthy(assigneeSet) then GetNested(fields, "assignee", "displayName", Str(""))
                    else Success(Null);
    var reporter :- GetNested(fields, "reporter", "displayName", Str(""));
    Success([summary, description, status, assignee, reporter])
  }

  /** The reads for created, updated, priority, issue type and project, in source order. */
  function LastReads(fields: Value): (r: Result<seq<Value>>)
    ensures r.Success? <==> fields.Dict? && LastShaped(fields.entries)
    ensures r.Success? ==> r.value == LastInputs(fields.entries)
  {
    var created :- GetOr(fields, "created", Str(""));
    var updated := GetOr(fields, "updated", Str("")).value;
    var prioritySet := GetOr(fields, "priority", Null).value;
    var priority :- if Truthy(prioritySet) then GetNested(fields, "priority", "name", Str(""))
                    else Success(Null);
    var issueType :- GetNested(fields, "issuetype", "name", Str(""));
    var project :- GetNested(fields, "project", "key", Str(""));
    Success([created, updated, priority, issueType, project])
  }

  /** The reads of the detail projection, in the order the source makes them. */
  function DetailFetch(issue: Value): (r: Result<seq<Value>>)
    ensures issue.Dict? && "key" !in issue.entries ==> r == Failure(KeyError("key"))
    ensures r.Success? <==> DetailShaped(issue)
    ensures r.Success? ==> r.value == DetailInputs(issue)
  {
    var fields :- GetOr(issue, "fields", EmptyDict);
    var key :- Index(issue, "key");
    var first :- FirstReads(fields);
    var last :- LastReads(fields);
    Success([key] + first + last)
  }

  /**
   * The detail projection of one issue. A well-shaped issue projects exactly
   * when every value is a str (or None for the optional fields); otherwise
   * pydantic rejects it with a ValidationError naming fields of the model.
   * On success every field is its input with its default.
   */
  function IssueDetailsOf(issue: Value): (r: Result<JiraIssue>)
    ensures issue.Dict? && "key" !in issue.entries ==> r == Failure(KeyError("key"))
    ensures r.Success? ==> DetailShaped(issue) && AsInputs(r.value) == DetailInputs(issue)
    ensures DetailShaped(issue) ==> (r.Success? <==> Acceptable(DetailInputs(issue)))
    ensures DetailShaped(issue) && !Acceptable(DetailInputs(issue)) ==>
              r.Failure? && r.error.ValidationError? && r.error.model == "JiraIssue"
  {
    var v :- DetailFetch(issue);
    ValidateIssue(v)
  }

  /**
   * The two projections of the same issue disagree on a missing assignee or
   * priority: the detail record leaves them absent, the search row says
   * "Unassigned" and "".
   */
  lemma DetailAndSearchDefaultsDiffer(issue: Value)
    requires IssueDetailsOf(issue).Success? && FormatIssue(issue).Success?
    requires var f := FieldsOf(issue).entries; !Supplied(f, "assignee") && !Supplied(f, "priority")
    ensures IssueDetailsOf(issue).value.assignee == None
    ensures FormatIssue(issue).value.assignee == Str("Unassigned")
    ensures IssueDetailsOf(issue).value.priority == None
    ensures FormatIssue(issue).value.priority == Str("")
  {
  }

  function GetIssueReply(args: map<string, Value>, service: JiraService): Result<JiraReply>
  {
    var key :- Arg(args, "issue_key");
    var issue :- service(IssueById(key));
    var details :- IssueDetailsOf(issue);
    Success(IssueDetail(details))
  }

  function GetIssueCalls(args: map<string, Value>): seq<JiraCall>
  {
    if "issue_key" in args then [IssueById(args["issue_key"])] else []
  }

  // ---------------------------------------------------------------------
  // jira_create_issue
  // ---------------------------------------------------------------------

  /** A `{"name": v}` reference object. */
  function NameRef(v: Value): Value
  {
    Dict(map["name" := v])
  }

  const RequiredCreateKeys: set<string> := {"project", "summary", "issuetype"}
  const OptionalCreateKeys: set<string> := {"description", "priority", "assignee"}

  /** The entry an optional argument contributes: none when it is not supplied. */
  function Optional(args: map<string, Value>, key: string, reference: bool): map<string, Value>
  {
    if key !in args then map[] else map[key := if reference then NameRef(args[key]) else args[key]]
  }

  /** The field map the create handler sends, as a whole. */
  function CreateFields(args: map<string, Value>): Result<map<string, Value>>
  {
    var projectKey :- Arg(args, "project_key");
    var summary :- Arg(args, "summary");
    var required := map["project" := Dict(map["key" := projectKey]),
                        "summary" := summary,
                        "issuetype" := NameRef(ArgOr(args, "issue_type", Str("Task")))];
    Success(required + Optional(args, "description", false) + Optional(args, "priority", true)
            + Optional(args, "assignee", true))
  }

  /** The create handler's field map, grown key by key. */
  method BuildCreateFields(args: map<string, Value>) returns (r: Result<map<string, Value>>)
    ensures r == CreateFields(args)
  {
    var projectKey :- Arg(args, "project_key");
    var summary :- Arg(args, "summary");
    var fields := map["project" := Dict(map["key" := projectKey]),
                      "summary" := summary,
                      "issuetype" := NameRef(ArgOr(args, "issue_type", Str("Task")))];
    ghost var sent := fields;
    if "description" in args {
      fields := fields["description" := args["description"]];
    }
    assert fields == sent + Optional(args, "description", false);
    sent := fields;
    if "priority" in args {
      fields := fields["priority" := NameRef(args["priority"])];
    }
    assert fields == sent + Optional(args, "priority", true);
    sent := fields;
    if "assignee" in args {
      fields := fields["assignee" := NameRef(args["assignee"])];
    }
    assert fields == sent + Optional(args, "assignee", true);
    r := Success(fields);
  }

  /**
   * Create needs project_key and then summary; given both, the field map
   * holds the project, the summary and the issue type (Task when omitted).
   */
  lemma CreateFieldsRequired(args: map<string, Value>)
    ensures "project_key" !in args ==> CreateFields(args) == Failure(KeyError("project_key"))
    ensures "project_key" in args && "summary" !in args ==> CreateFields(args) == Failure(KeyError("summary"))
    ensures "project_key" in args && "summary" in args ==>
              && CreateFields(args).Success?
              && var m := CreateFields(args).value;
              && "project" in m && m["project"] == Dict(map["key" := args["project_key"]])
              && "summary" in m && m["summary"] == args["summary"]
              && "issuetype" in m
              && m["issuetype"] == NameRef(if "issue_type" in args then args["issue_type"] else Str("Task"))
  {
  }

  /**
   * Description, priority and assignee are in the create field map exactly
   * when supplied, so no priority default is ever sent; priority and assignee
   * are sent as `{name: ...}` references.
   */
  lemma CreateFieldsOptional(args: map<string, Value>)
    requires "project_key" in args && "summary" in args
    ensures var m := CreateFields(args).value;
            && m.Keys == RequiredCreateKeys + (args.Keys * OptionalCreateKeys)
            && ("priority" in m <==> "priority" in args)
            && ("description" in args ==> m["description"] == args["description"])
            && ("priority" in args ==> m["priority"] == NameRef(args["priority"]))
            && ("assignee" in args ==> m["assignee"] == NameRef(args["assignee"]))
  {
    var required := map["project" := Dict(map["key" := args["project_key"]]),
                        "summary" := args["summary"],
                        "issuetype" := NameRef(ArgOr(args, "issue_type", Str("Task")))];
    var d, p, a := Optional(args, "description", false), Optional(args, "priority", true),
                   Optional(args, "assignee", true);
    assert CreateFields(args).value == required + d + p + a;
  }

  function CreatedText(result: Value): Result<JiraReply>
  {
    var key :- Index(result, "key");
    var link :- Index(result, "self");
    Success(Text("Created issue: " + Show(key) + "\nURL: " + Show(link)))
  }

  function CreateIssueReply(args: map<string, Value>, service: JiraService): Result<JiraReply>
  {
    var fields :- CreateFields(args);
    var result :- service(NewIssue(fields));
    CreatedText(result)
  }

  function CreateIssueCalls(args: map<string, Value>): seq<JiraCall>
  {
    match CreateFields(args)
    case Success(fields) => [NewIssue(fields)]
    case Failure(_) => []
  }

  // ---------------------------------------------------------------------
  // jira_update_issue
  // ---------------------------------------------------------------------

  const UpdatableKeys: set<string> := {"summary", "description", "priority", "assignee"}

  /** `if key in fields: update_fields[key] = ...` for one of the four updatable keys. */
  function UpdateStep(fields: Value, acc: map<string, Value>, key: string): Result<map<string, Value>>
  {
    var present :- Contains(fields, key);
    if !present then Success(acc)
    else
      var v :- Index(fields, key);
      Success(acc[key := if key == "priority" || key == "assignee" then NameRef(v) else v])
  }

  /** The update map, one updatable key after the other. */
  function UpdateFields(fields: Value): Result<map<string, Value>>
  {
    var m1 :- UpdateStep(fields, map[], "summary");
    var m2 :- UpdateStep(fields, m1, "description");
    var m3 :- UpdateStep(fields, m2, "priority");
    UpdateStep(fields, m3, "assignee")
  }

  /** The update handler's field map, grown key by key. */
  method BuildUpdateFields(fields: Value) returns (r: Result<map<string, Value>>)
    ensures r == UpdateFields(fields)
  {
    var updateFields: map<string, Value> := map[];
    var hasSummary :- Contains(fields, "summary");
    if hasSummary {
      var v :- Index(fields, "summary");
      updateFields := updateFields["summary" := v];
    }
    var hasDescription := Contains(fields, "description").value;
    if hasDescription {
      var v :- Index(fields, "description");
      updateFields := updateFields["description" := v];
    }
    var hasPriority := Contains(fields, "priority").value;
    if hasPriority {
      var v :- Index(fields, "priority");
      updateFields := updateFields["priority" := NameRef(v)];
    }
    var hasAssignee := Contains(fields, "assignee").value;
    if hasAssignee {
      var v :- Index(fields, "assignee");
      updateFields := updateFields["assignee" := NameRef(v)];
    }
    r := Success(updateFields);
  }

  /** The whitelist: exactly the supplied updatable keys, priority and assignee as references. */
  function Whitelisted(d: map<string, Value>): map<string, Value>
  {
    map k | k in d.Keys * UpdatableKeys ::
      if k == "priority" || k == "assignee" then NameRef(d[k]) else d[k]
  }

  /**
   * For a dict of fields the update map keeps exactly the supplied keys among
   * summary, description, priority and assignee, drops every other key and
   * wraps priority and assignee; a non-container is a TypeError.
   */
  lemma {:induction false} UpdateFieldsWhitelist(fields: Value)
    ensures fields.Dict? ==> UpdateFields(fields) == Success(Whitelisted(fields.entries))
    ensures fields.Null? || fields.Bool? || fields.Int? ==>
              UpdateFields(fields) == Failure(TypeError("argument of type '" + TypeName(fields) + "' is not iterable"))
    ensures UpdateFields(fields).Success? ==> UpdateFields(fields).value.Keys <= UpdatableKeys
  {
    if fields.Dict? {
      var d := fields.entries;
      var m1 := if "summary" in d then map["summary" := d["summary"]] else map[];
      assert UpdateStep(fields, map[], "summary") == Success(m1);
      var m2 := if "description" in d then m1["description" := d["description"]] else m1;
      assert UpdateStep(fields, m1, "description") == Success(m2);
      var m3 := if "priority" in d then m2["priority" := NameRef(d["priority"])] else m2;
      assert UpdateStep(fields, m2, "priority") == Success(m3);
      var m4 := if "assignee" in d then m3["assignee" := NameRef(d["assignee"])] else m3;
      assert UpdateStep(fields, m3, "assignee") == Success(m4);
      assert m4.Keys == d.Keys * UpdatableKeys;
      assert m4 == Whitelisted(d);
    }
  }

  function UpdateIssueReply(args: map<string, Value>, service: JiraService): Result<JiraReply>
  {
    var key :- Arg(args, "issue_key");
    var fields :- Arg(args, "fields");
    var update :- UpdateFields(fields);
    var ignored :- service(UpdateIssueField(key, update));
    Success(Text("Updated issue: " + Show(key)))
  }

  function UpdateIssueCalls(args: map<string, Value>): seq<JiraCall>
  {
    if "issue_key" in args && "fields" in args && UpdateFields(args["fields"]).Success? then
      [UpdateIssueField(args["issue_key"], UpdateFields(args["fields"]).value)]
    else []
  }

  /**
   * Update sends one call carrying only the whitelisted keys of a dict of
   * fields; fields that cannot be searched with `in` raise before any call.
   */
  lemma UpdateIssueContract(args: map<string, Value>, service: JiraService)
    requires "issue_key" in args && "fields" in args
    ensures args["fields"].Dict? ==>
              UpdateIssueCalls(args) == [UpdateIssueField(args["issue_key"], Whitelisted(args["fields"].entries))]
    ensures args["fields"].Dict? && service(UpdateIssueField(args["issue_key"], Whitelisted(args["fields"].entries))).Success? ==>
              UpdateIssueReply(args, service) == Success(Text("Updated issue: " + Show(args["issue_key"])))
    ensures args["fields"].Null? || args["fields"].Bool? || args["fields"].Int? ==>
              && UpdateIssueCalls(args) == []
              && UpdateIssueReply(args, service).Failure?
  {
    UpdateFieldsWhitelist(args["fields"]);
  }

  // ---------------------------------------------------------------------
  // jira_add_comment
  // ---------------------------------------------------------------------

  function AddCommentReply(args: map<string, Value>, service: JiraService): Result<JiraReply>
  {
    var key :- Arg(args, "issue_key");
    var comment :- Arg(args, "comment");
    var ignored :- service(IssueAddComment(key, comment));
    Success(Text("Added comment to issue: " + Show(key)))
  }

  function AddCommentCalls(args: map<string, Value>): seq<JiraCall>
  {
    if "issue_key" in args && "comment" in args then [IssueAddComment(args["issue_key"], args["comment"])]
    else []
  }

  /** Add-comment makes one call with the key and comment it was given and echoes the key. */
  lemma AddCommentContract(args: map<string, Value>, service: JiraService)
    requires "issue_key" in args
    ensures "comment" !in args ==>
              AddCommentCalls(args) == [] && AddCommentReply(args, service) == Failure(KeyError("comment"))
    ensures "comment" in args ==>
              && AddCommentCalls(args) == [IssueAddComment(args["issue_key"], args["comment"])]
              && (service(IssueAddComment(args["issue_key"], args["comment"])).Success? ==>
                    AddCommentReply(args, service) == Success(Text("Added comment to issue: " + Show(args["issue_key"]))))
  {
  }

  // ---------------------------------------------------------------------
  // jira_transition_issue
  // ---------------------------------------------------------------------

  /** `transition["to"]["name"].lower() == target_status.lower()` */
  function MatchStep(t: Value, target: Value): Result<bool>
  {
    var to :- Index(t, "to");
    var name :- Index(to, "name");
    var lowered :- Lower(name);
    var wanted :- Lower(target);
    Success(lowered == wanted)
  }

  /** The transition id the scan settles on: the first match's id, or None. */
  function Scan(ts: seq<Value>, target: Value): Result<Value>
    decreases |ts|
  {
    if ts == [] then Success(Null)
    else
      var hit :- MatchStep(ts[0], target);
      if hit then Index(ts[0], "id") else Scan(ts[1..], target)
  }

  /** The scan loop, which stops at the first match. */
  method FindTransitionId(ts: seq<Value>, target: Value) returns (r: Result<Value>)
    ensures r == Scan(ts, target)
  {
    var transitionId := Null;
    var i := 0;
    while i < |ts|
      invariant 0 <= i <= |ts|
      invariant Scan(ts[i..], target) == Scan(ts, target)
      invariant transitionId == Null
    {
      assert ts[i..][0] == ts[i] && ts[i..][1..] == ts[i + 1..];
      var hit := MatchStep(ts[i], target);
      if hit.Failure? {
        return Failure(hit.error);
      }
      if hit.value {
        var id := Index(ts[i], "id");
        if id.Failure? {
          return Failure(id.error);
        }
        transitionId := id.value;
        break;
      }
      i := i + 1;
    }
    r := Success(transitionId);
  }

  /** A transition as Jira lists it: an id and a target status with a string name. */
  predicate WellFormedTransition(t: Value)
  {
    && t.Dict? && "id" in t.entries && "to" in t.entries
    && t.entries["to"].Dict? && "name" in t.entries["to"].entries
    && t.entries["to"].entries["name"].Str?
  }

  function TargetName(t: Value): string
    requires WellFormedTransition(t)
  {
    t.entries["to"].entries["name"].s
  }

  function TransitionId(t: Value): Value
    requires WellFormedTransition(t)
  {
    t.entries["id"]
  }

  predicate AllWellFormed(ts: seq<Value>)
  {
    forall k :: 0 <= k < |ts| ==> WellFormedTransition(ts[k])
  }

  /** The target name of transition k equals the requested status, ignoring ASCII case. */
  predicate MatchesAt(ts: seq<Value>, k: int, status: string)
    requires 0 <= k < |ts| && WellFormedTransition(ts[k])
  {
    LowerAscii(TargetName(ts[k])) == LowerAscii(status)
  }

  /** The scan settles on the id of the first matching transition; later matches are ignored. */
  lemma {:induction false} ScanFirstMatch(ts: seq<Value>, status: string, k: int)
    requires 0 <= k < |ts| && (forall j :: 0 <= j <= k ==> WellFormedTransition(ts[j])) && MatchesAt(ts, k, status)
    requires forall j :: 0 <= j < k ==> !MatchesAt(ts, j, status)
    ensures Scan(ts, Str(status)) == Success(TransitionId(ts[k]))
    decreases k
  {
    if k > 0 {
      var rest := ts[1..];
      assert !MatchesAt(ts, 0, status);
      forall j | 0 <= j < |rest| ensures rest[j] == ts[j + 1] { }
      forall j | 0 <= j <= k - 1 ensures rest[j] == ts[j + 1] && WellFormedTransition(rest[j]) { }
      forall j | 0 <= j < k - 1 ensures !MatchesAt(rest, j, status) {
        assert !MatchesAt(ts, j + 1, status);
      }
      ScanFirstMatch(rest, status, k - 1);
    }
  }

  /** With no matching transition the scan settles on None. */
  lemma {:induction false} ScanNoMatch(ts: seq<Value>, status: string)
    requires AllWellFormed(ts)
    requires forall j :: 0 <= j < |ts| ==> !MatchesAt(ts, j, status)
    ensures Scan(ts, Str(status)) == Success(Null)
    decreases |ts|
  {
    if ts != [] {
      var rest := ts[1..];
      assert !MatchesAt(ts, 0, status);
      forall j | 0 <= j < |rest| ensures rest[j] == ts[j + 1] && !MatchesAt(rest, j, status) {
        assert !MatchesAt(ts, j + 1, status);
      }
      ScanNoMatch(rest, status);
    }
  }

  datatype TransitionDecision = Apply(transitionId: Value) | Refuse(message: string)

  /** `t["to"]["name"]` */
  function StatusName(t: Value): Result<Value>
  {
    var to :- Index(t, "to");
    Index(to, "name")
  }

  /** Apply the scanned id if it is truthy; otherwise refuse, listing every target name. */
  function Decide(ts: seq<Value>, target: Value): Result<TransitionDecision>
  {
    var tid :- Scan(ts, target);
    if Truthy(tid) then Success(Apply(tid))
    else
      var names :- Collect.MapAll(StatusName, ts);
      var listed :- Join(", ", names);
      Success(Refuse("Cannot transition to '" + Show(target) + "'. Available statuses: " + listed))
  }

  function TargetNames(ts: seq<Value>): (names: seq<string>)
    requires AllWellFormed(ts)
    ensures |names| == |ts|
  {
    seq(|ts|, k requires 0 <= k < |ts| => TargetName(ts[k]))
  }

  function RefusalText(status: string, ts: seq<Value>): string
    requires AllWellFormed(ts)
  {
    "Cannot transition to '" + status + "'. Available statuses: " + JoinStrings(", ", TargetNames(ts))
  }

  /** With a match, the decision is to apply the first match's id (when that id is truthy). */
  lemma DecideFirstMatch(ts: seq<Value>, status: string, k: int)
    requires 0 <= k < |ts| && (forall j :: 0 <= j <= k ==> WellFormedTransition(ts[j])) && MatchesAt(ts, k, status)
    requires forall j :: 0 <= j < k ==> !MatchesAt(ts, j, status)
    requires Truthy(TransitionId(ts[k]))
    ensures Decide(ts, Str(status)) == Success(Apply(TransitionId(ts[k])))
  {
    ScanFirstMatch(ts, status, k);
  }

  /** Without a match, the refusal lists every target name in the original order. */
  lemma DecideNoMatch(ts: seq<Value>, status: string)
    requires AllWellFormed(ts)
    requires forall j :: 0 <= j < |ts| ==> !MatchesAt(ts, j, status)
    ensures Decide(ts, Str(status)) == Success(Refuse(RefusalText(status, ts)))
  {
    ScanNoMatch(ts, status);
    Collect.Pointwise(StatusName, ts);
    var names := Collect.MapAll(StatusName, ts).value;
    forall k | 0 <= k < |ts| ensures names[k] == Str(TargetName(ts[k])) {
      assert StatusName(ts[k]) == Success(names[k]);
    }
    assert seq(|names|, i requires 0 <= i < |names| => names[i].s) == TargetNames(ts);
  }

  /** The scan and, on a refusal, the listing, over the response to get_issue_transitions. */
  function DecisionFor(response: Result<Value>, target: Value): Result<TransitionDecision>
  {
    var transitions :- response;
    var listed :- Index(transitions, "transitions");
    var ts :- Iterate(listed);
    Decide(ts, target)
  }

  function TransitionReply(args: map<string, Value>, service: JiraService): Result<JiraReply>
  {
    var key :- Arg(args, "issue_key");
    var target :- Arg(args, "status");
    var decision :- DecisionFor(service(GetIssueTransitions(key)), target);
    match decision
    case Refuse(message) => Success(Text(message))
    case Apply(tid) =>
      var ignored :- service(SetIssueStatus(key, tid));
      Success(Text("Transitioned issue " + Show(key) + " to status: " + Show(target)))
  }

  function TransitionCalls(args: map<string, Value>, service: JiraService): seq<JiraCall>
  {
    if "issue_key" !in args || "status" !in args then []
    else
      var lookup := GetIssueTransitions(args["issue_key"]);
      match DecisionFor(service(lookup), args["status"])
      case Success(Apply(tid)) => [lookup, SetIssueStatus(args["issue_key"], tid)]
      case _ => [lookup]
  }

  /** A Jira reply listing the given transitions. */
  predicate ListsTransitions(response: Result<Value>, ts: seq<Value>)
  {
    response.Success? && response.value.Dict? && "transitions" in response.value.entries
    && response.value.entries["transitions"] == List(ts)
  }

  /**
   * A case-insensitive match sets the status exactly once, with the first
   * match's id, and the confirmation echoes the caller's spelling.
   */
  lemma TransitionOnMatch(args: map<string, Value>, service: JiraService, ts: seq<Value>, k: int)
    requires "issue_key" in args && "status" in args && args["status"].Str?
    requires ListsTransitions(service(GetIssueTransitions(args["issue_key"])), ts)
    requires 0 <= k < |ts| && (forall j :: 0 <= j <= k ==> WellFormedTransition(ts[j]))
    requires MatchesAt(ts, k, args["status"].s)
    requires forall j :: 0 <= j < k ==> !MatchesAt(ts, j, args["status"].s)
    requires Truthy(TransitionId(ts[k]))
    ensures TransitionCalls(args, service) ==
              [GetIssueTransitions(args["issue_key"]), SetIssueStatus(args["issue_key"], TransitionId(ts[k]))]
    ensures var written := service(SetIssueStatus(args["issue_key"], TransitionId(ts[k])));
            && (written.Success? ==>
                  TransitionReply(args, service) ==
                  Success(Text("Transitioned issue " + Show(args["issue_key"]) + " to status: " + args["status"].s)))
            && (written.Failure? ==> TransitionReply(args, service) == Failure(written.error))
  {
    DecideFirstMatch(ts, args["status"].s, k);
  }

  /** Without a match, only the transitions are fetched and the refusal is an ordinary reply. */
  lemma TransitionWithoutMatch(args: map<string, Value>, service: JiraService, ts: seq<Value>)
    requires "issue_key" in args && "status" in args && args["status"].Str?
    requires ListsTransitions(service(GetIssueTransitions(args["issue_key"])), ts)
    requires AllWellFormed(ts)
    requires forall j :: 0 <= j < |ts| ==> !MatchesAt(ts, j, args["status"].s)
    ensures TransitionCalls(args, service) == [GetIssueTransitions(args["issue_key"])]
    ensures TransitionReply(args, service) == Success(Text(RefusalText(args["status"].s, ts)))
  {
    DecideNoMatch(ts, args["status"].s);
  }

  // ---------------------------------------------------------------------
  // jira_get_projects
  // ---------------------------------------------------------------------

  function FormatProject(project: Value): (r: Result<ProjectRow>)
    ensures r.Success? <==> project.Dict? && "key" in project.entries && "name" in project.entries
                            && "id" in project.entries
    ensures r.Success? ==> r.value == ProjectRow(project.entries["key"], project.entries["name"],
                                                 project.entries["id"])
  {
    var key :- Index(project, "key");
    var name :- Index(project, "name");
    var id :- Index(project, "id");
    Success(ProjectRow(key, name, id))
  }

  /** The projects loop: one row per project, appended in order. */
  method FormatProjects(projects: seq<Value>) returns (r: Result<seq<ProjectRow>>)
    ensures r == Collect.MapAll(FormatProject, projects)
  {
    var formatted: seq<ProjectRow> := [];
    var i := 0;
    while i < |projects|
      invariant 0 <= i <= |projects|
      invariant Collect.MapAll(FormatProject, projects[..i]) == Success(formatted)
    {
      var row := FormatProject(projects[i]);
      assert projects[..i + 1][..i] == projects[..i];
      if row.Failure? {
        Collect.PrefixFailure(FormatProject, projects, i + 1);
        return Failure(row.error);
      }
      formatted := formatted + [row.value];
      i := i + 1;
    }
    assert projects[..i] == projects;
    r := Success(formatted);
  }

  /** A successful projects listing has one row per project, in order, with its key, name and id. */
  lemma {:induction false} ProjectsProjection(projects: seq<Value>, rows: seq<ProjectRow>)
    requires Collect.MapAll(FormatProject, projects) == Success(rows)
    ensures |rows| == |projects|
    ensures forall k :: 0 <= k < |rows| ==>
              projects[k].Dict? && "key" in projects[k].entries && "name" in projects[k].entries
              && "id" in projects[k].entries
              && rows[k] == ProjectRow(projects[k].entries["key"],
                                                         projects[k].entries["name"],
                                                         projects[k].entries["id"])
  {
    Collect.Pointwise(FormatProject, projects);
  }

  function GetProjectsReply(service: JiraService): Result<JiraReply>
  {
    var projects :- service(ListProjects);
    var items :- Iterate(projects);
    var rows :- Collect.MapAll(FormatProject, items);
    Success(ProjectList(rows))
  }

  // ---------------------------------------------------------------------
  // The dispatcher
  // ---------------------------------------------------------------------

  datatype JiraTool =
    | JiraSearchIssues | JiraGetIssue | JiraCreateIssue | JiraUpdateIssue
    | JiraAddComment | JiraTransitionIssue | JiraGetProjects

  function ToolName(t: JiraTool): string
  {
    match t
    case JiraSearchIssues => "jira_search_issues"
    case JiraGetIssue => "jira_get_issue"
    case JiraCreateIssue => "jira_create_issue"
    case JiraUpdateIssue => "jira_update_issue"
    case JiraAddComment => "jira_add_comment"
    case JiraTransitionIssue => "jira_transition_issue"
    case JiraGetProjects => "jira_get_projects"
  }

  /** The `if name == ...` chain: the one tool a name selects, or none. */
  function ToolNamed(name: string): (r: Option<JiraTool>)
    ensures r.Some? ==> ToolName(r.value) == name
    ensures r.None? <==> forall t: JiraTool :: ToolName(t) != name
  {
    if name == "jira_search_issues" then Some(JiraSearchIssues)
    else if name == "jira_get_issue" then Some(JiraGetIssue)
    else if name == "jira_create_issue" then Some(JiraCreateIssue)
    else if name == "jira_update_issue" then Some(JiraUpdateIssue)
    else if name == "jira_add_comment" then Some(JiraAddComment)
    else if name == "jira_transition_issue" then Some(JiraTransitionIssue)
    else if name == "jira_get_projects" then Some(JiraGetProjects)
    else None
  }

  function HandlerReply(t: JiraTool, args: map<string, Value>, service: JiraService): Result<JiraReply>
  {
    match t
    case JiraSearchIssues => SearchIssuesReply(args, service)
    case JiraGetIssue => GetIssueReply(args, service)
    case JiraCreateIssue => CreateIssueReply(args, service)
    case JiraUpdateIssue => UpdateIssueReply(args, service)
    case JiraAddComment => AddCommentReply(args, service)
    case JiraTransitionIssue => TransitionReply(args, service)
    case JiraGetProjects => GetProjectsReply(service)
  }

  function HandlerCalls(t: JiraTool, args: map<string, Value>, service: JiraService): seq<JiraCall>
  {
    match t
    case JiraSearchIssues => SearchIssuesCalls(args)
    case JiraGetIssue => GetIssueCalls(args)
    case JiraCreateIssue => CreateIssueCalls(args)
    case JiraUpdateIssue => UpdateIssueCalls(args)
    case JiraAddComment => AddCommentCalls(args)
    case JiraTransitionIssue => TransitionCalls(args, service)
    case JiraGetProjects => [ListProjects]
  }

  /** The `except Exception as e` boundary: an exception becomes an `Error: ...` text. */
  function Render(r: Result<JiraReply>): JiraReply
  {
    match r
    case Success(reply) => reply
    case Failure(e) => Text("Error: " + Message(e))
  }

  /** What the `try` block answers for a connected server. */
  function TryReply(name: string, args: map<string, Value>, service: JiraService): (reply: JiraReply)
    ensures ToolNamed(name).None? ==> reply == Text("Unknown tool: " + name)
    ensures ToolNamed(name).Some? && HandlerReply(ToolNamed(name).value, args, service).Failure? ==>
              reply == Text("Error: " + Message(HandlerReply(ToolNamed(name).value, args, service).error))
    ensures ToolNamed(name).Some? && HandlerReply(ToolNamed(name).value, args, service).Success? ==>
              reply == HandlerReply(ToolNamed(name).value, args, service).value
  {
    match ToolNamed(name)
    case None => Text("Unknown tool: " + name)
    case Some(t) => Render(HandlerReply(t, args, service))
  }

  function TryCalls(name: string, args: map<string, Value>, service: JiraService): seq<JiraCall>
  {
    match ToolNamed(name)
    case None => []
    case Some(t) => HandlerCalls(t, args, service)
  }

  /** Every tool's own name routes to that tool's handler, for both the answer and the calls made. */
  lemma Routes(t: JiraTool, args: map<string, Value>, service: JiraService)
    ensures ToolNamed(ToolName(t)) == Some(t)
    ensures TryReply(ToolName(t), args, service) == Render(HandlerReply(t, args, service))
    ensures TryCalls(ToolName(t), args, service) == HandlerCalls(t, args, service)
  {
  }

  // ---------------------------------------------------------------------
  // The client and the server object
  // ---------------------------------------------------------------------

  /** The Jira client library object, reduced to its settings and a record of the calls made. */
  class JiraClient {
    const url: string
    const username: string
    const password: string
    const cloud: bool
    const service: JiraService
    ghost var log: seq<JiraCall>

    constructor (url: string, username: string, password: string, cloud: bool, service: JiraService)
      ensures this.url == url && this.username == username && this.password == password
      ensures this.cloud == cloud && this.service == service && log == []
    {
      this.url, this.username, this.password, this.cloud := url, username, password, cloud;
      this.service := service;
      log := [];
    }

    /** Makes one remote call. */
    method Call(c: JiraCall) returns (r: Result<Value>)
      modifies this
      ensures log == old(log) + [c] && r == service(c)
    {
      r := service(c);
      log := log + [c];
    }
  }

  class JiraMcpServer {
    const env: map<string, string>
    const service: JiraService
    var client: JiraClient?

    ghost predicate Valid()
      reads this, client
    {
      client != null ==> client.service == service
    }

    constructor (env: map<string, string>, service: JiraService)
      ensures this.env == env && this.service == service && client == null && Valid()
    {
      this.env, this.service := env, service;
      client := null;
    }

    /** `_connect_to_jira`: reads the configuration, checks the credentials, builds the client. */
    method Connect() returns (r: Result<()>)
      modifies this
      ensures var c := ConfigFromEnv(env);
              if MissingCredentials(c) then
                r == Failure(ValueError(CredentialsMessage)) && client == old(client)
              else
                && r.Success? && client != null && fresh(client)
                && client.url == c.url && client.username == c.username
                && client.password == c.apiToken && client.cloud == c.cloud
                && client.service == service && client.log == []
    {
      var config := ConfigFromEnv(env);
      if MissingCredentials(config) {
        return Failure(ValueError(CredentialsMessage));
      }
      client := new JiraClient(config.url, config.username, config.apiToken, config.cloud, service);
      r := Success(());
    }

    method SearchIssues(args: map<string, Value>) returns (r: Result<JiraReply>)
      requires client != null
      modifies client
      ensures r == SearchIssuesReply(args, client.service)
      ensures client.log == old(client.log) + SearchIssuesCalls(args)
    {
      var jql :- Arg(args, "jql");
      var maxResults := ArgOr(args, "max_results", Int(50));
      var results :- client.Call(Jql(jql, maxResults));
      var issues :- GetOr(results, "issues", List([]));
      var items :- Iterate(issues);
      var rows :- FormatIssues(items);
      r := Success(IssueList(rows));
    }

    method GetIssue(args: map<string, Value>) returns (r: Result<JiraReply>)
      requires client != null
      modifies client
      ensures r == GetIssueReply(args, client.service)
      ensures client.log == old(client.log) + GetIssueCalls(args)
    {
      var key :- Arg(args, "issue_key");
      var issue :- client.Call(IssueById(key));
      var details :- IssueDetailsOf(issue);
      r := Success(IssueDetail(details));
    }

    method CreateIssue(args: map<string, Value>) returns (r: Result<JiraReply>)
      requires client != null
      modifies client
      ensures r == CreateIssueReply(args, client.service)
      ensures client.log == old(client.log) + CreateIssueCalls(args)
    {
      var fields :- BuildCreateFields(args);
      var result :- client.Call(NewIssue(fields));
      r := CreatedText(result);
    }

    method UpdateIssue(args: map<string, Value>) returns (r: Result<JiraReply>)
      requires client != null
      modifies client
      ensures r == UpdateIssueReply(args, client.service)
      ensures client.log == old(client.log) + UpdateIssueCalls(args)
    {
      var key :- Arg(args, "issue_key");
      var fields :- Arg(args, "fields");
      var update :- BuildUpdateFields(fields);
      var ignored :- client.Call(UpdateIssueField(key, update));
      r := Success(Text("Updated issue: " + Show(key)));
    }

    method AddComment(args: map<string, Value>) returns (r: Result<JiraReply>)
      requires client != null
      modifies client
      ensures r == AddCommentReply(args, client.service)
      ensures client.log == old(client.log) + AddCommentCalls(args)
    {
      var key :- Arg(args, "issue_key");
      var comment :- Arg(args, "comment");
      var ignored :- client.Call(IssueAddComment(key, comment));
      r := Success(Text("Added comment to issue: " + Show(key)));
    }

    method TransitionIssue(args: map<string, Value>) returns (r: Result<JiraReply>)
      requires client != null
      modifies client
      ensures r == TransitionReply(args, client.service)
      ensures client.log == old(client.log) + TransitionCalls(args, client.service)
    {
      var key :- Arg(args, "issue_key");
      var target :- Arg(args, "status");
      var transitions :- client.Call(GetIssueTransitions(key));
      var listed :- Index(transitions, "transitions");
      var ts :- Iterate(listed);
      var transitionId :- FindTransitionId(ts, target);
      if !Truthy(transitionId) {
        var names :- Collect.MapAll(StatusName, ts);
        var available :- Join(", ", names);
        return Success(Text("Cannot transition to '" + Show(target) + "'. Available statuses: " + available));
      }
      var ignored :- client.Call(SetIssueStatus(key, transitionId));
      r := Success(Text("Transitioned issue " + Show(key) + " to status: " + Show(target)));
    }

    method GetProjects() returns (r: Result<JiraReply>)
      requires client != null
      modifies client
      ensures r == GetProjectsReply(client.service)
      ensures client.log == old(client.log) + [ListProjects]
    {
      var projects :- client.Call(ListProjects);
      var items :- Iterate(projects);
      var rows :- FormatProjects(items);
      r := Success(ProjectList(rows));
    }

    method Handle(t: JiraTool, args: map<string, Value>) returns (r: Result<JiraReply>)
      requires client != null
      modifies client
      ensures r == HandlerReply(t, args, client.service)
      ensures client.log == old(client.log) + HandlerCalls(t, args, client.service)
    {
      match t {
        case JiraSearchIssues => r := SearchIssues(args);
        case JiraGetIssue => r := GetIssue(args);
        case JiraCreateIssue => r := CreateIssue(args);
        case JiraUpdateIssue => r := UpdateIssue(args);
        case JiraAddComment => r := AddComment(args);
        case JiraTransitionIssue => r := TransitionIssue(args);
        case JiraGetProjects => r := GetProjects();
      }
    }

    /**
     * `call_tool`: connects on first use, outside the `try`, so a missing
     * credential escapes as a ValueError; inside the `try`, an unknown name
     * answers `Unknown tool: ...` and a handler exception answers `Error: ...`.
     */
    method CallTool(name: string, args: map<string, Value>) returns (out: Outcome<JiraReply>)
      requires Valid()
      modifies this, client
      ensures Valid()
      ensures old(client) != null ==> client == old(client)
      ensures out.Raised? <==> old(client) == null && MissingCredentials(ConfigFromEnv(env))
      ensures out.Raised? ==> out.error == ValueError(CredentialsMessage) && client == null
      ensures out.Answered? ==>
                && client != null
                && (old(client) == null ==> fresh(client))
                && out.reply == TryReply(name, args, service)
                && client.log == (if old(client) == null then [] else old(client.log))
                                 + TryCalls(name, args, service)
    {
      if client == null {
        var connected := Connect();
        if connected.Failure? {
          return Raised(connected.error);
        }
      }
      match ToolNamed(name) {
        case None =>
          out := Answered(Text("Unknown tool: " + name));
        case Some(t) =>
          var r := Handle(t, args);
          out := Answered(Render(r));
      }
    }
  }
}
