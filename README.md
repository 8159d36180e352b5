# jira-confluence-mcp, modelled in Dafny

The repository ships two Model Context Protocol (MCP) servers, one for Jira
and one for Confluence. Each server exposes a fixed set of named tools. A call
`call_tool(name, arguments)` connects lazily to the Atlassian REST client,
read from the environment, on first use. It then routes the name to one
handler. The handler shapes a request from the argument dictionary, makes one
or two calls on the client, and turns the response into a single text reply:
a sentence, the JSON of one projected record (get-issue, get-page), or the
JSON of a list of projected records.

The model has four modules:

- `Py` holds the parts of Python the handlers rely on:
  - the JSON values that arguments and responses carry, and the exceptions a
    handler can raise, with their `str()` text;
  - `d[k]`, `d.get(k, default)`, `k in v`, `for x in v`, `str.lower`,
    `str.join` and f-string rendering.
- `Collect` is the "walk the items, append one projected record each" loop,
  written as a function `MapAll`. Its lemmas cover count, order, per-item
  agreement and the first failing item.
- `JiraServer` models `src/jira_server.py`. It has:
  - the configuration and connection;
  - the seven tool handlers, each as a specification function (the reply,
    and the list of client calls made) and as a method on the server class
    that makes those calls through a client object;
  - the loops (search projection, transition lookup, project projection) as
    methods proved against their specification functions;
  - the dispatcher `CallTool`.
- `ConfluenceServer` models `src/confluence_server.py` in the same shape, with
  its eight tools.

The remote service is a parameter. It maps each client call to the decoded
JSON response, or to the exception the client library raises. The client
object keeps a ghost log of the calls it made. For Confluence, the host's
`os.path.exists` and `os.path.basename` are a second parameter, `Host`.

## Model

| member | source | states |
|---|---|---|
| `Py.LowerAscii` | src/jira_server.py:355 | `.lower()` keeps the length, leaves no upper-case ASCII letter, keeps every other character, and maps each upper-case letter to its lower-case partner |
| `Py.LowerAsciiIdempotent` | src/jira_server.py:355 | lower-casing a lower-cased string changes nothing |
| `Py.LowerAsciiEqualIff` | src/jira_server.py:355 | `a.lower() == b.lower()` holds iff `a` and `b` have the same length and agree at every position ignoring ASCII case, which is what the transition match compares |
| `Py.FirstNonStr` | src/jira_server.py:363 | `', '.join` rejects the first item that is not a str: the position returned holds a non-str, and every earlier item is a str |
| `Collect.PrefixFailure` | src/jira_server.py:242-253 | once the append loop fails on some prefix of the items, the whole loop fails with the same exception |
| `Collect.Pointwise` | src/jira_server.py:242-253 | the append loop succeeds iff every item projects; on success it has one record per item, in order, each the projection of its item |
| `Collect.FirstFailure` | src/jira_server.py:242-253 | a failed append loop reports the exception of the first item that failed, and every earlier item projected |
| `JiraServer.ConfigFromEnv` | src/jira_server.py:217-222 | `cloud` is true when JIRA_CLOUD is unset, and otherwise iff its lower-cased value is "true"; the url is empty iff JIRA_URL is unset or empty |
| `JiraServer.JiraMcpServer.constructor` | src/jira_server.py:42-45 | a new server has no client |
| `JiraServer.JiraClient.constructor` | src/jira_server.py:227-232 | the client keeps the url, the username, the API token as password, the cloud flag, and an empty call log |
| `JiraServer.JiraMcpServer.Connect` | src/jira_server.py:215-232 | a missing url, username or token raises ValueError("JIRA_URL, JIRA_USERNAME, and JIRA_API_TOKEN must be set") and leaves the client unset; otherwise a fresh client built from the configuration |
| `JiraServer.FormatIssue` | src/jira_server.py:244-253 | a search row is produced exactly when the issue is a dict with a key, its fields (default {}) are a dict, a present status is a dict and a truthy assignee or priority is a dict; a dict without a key raises KeyError 'key'; summary, created and updated default to "", the status name to "", the assignee to "Unassigned" when absent or falsy, the priority name to "" |
| `JiraServer.FormatIssues` | src/jira_server.py:242-253 | the search loop's result is exactly `MapAll(FormatIssue, issues)`: all rows in order, or the first exception |
| `JiraServer.SearchProjection` | src/jira_server.py:242-253 | a successful search projection has one row per issue, in order, each agreeing with its issue |
| `JiraServer.SearchIssuesContract` | src/jira_server.py:234-258 | search makes one JQL call with `max_results` defaulting to 50; a successful reply has one row per element of the response's `issues` (default `[]`), in order |
| `JiraServer.IssueDetailsOf` | src/jira_server.py:264-279 | a dict issue without "key" raises KeyError('key'); on success every one of the eleven fields is the value read for it with its default (summary, description, created, updated ""; status, reporter, issue type, project via name/displayName/key, "" when absent; assignee and priority None when absent or falsy); a well-shaped issue succeeds iff every value is a str (or None for the three optional fields), and otherwise fails with a `JiraIssue` ValidationError |
| `JiraServer.DetailFetch` | src/jira_server.py:264-278 | the reads succeed iff the issue is a dict with a key, its fields a dict, and every nested object read is a dict; they then yield the eleven inputs in field order |
| `JiraServer.FirstReads` | src/jira_server.py:269-273 | the reads of summary to reporter succeed iff the nested objects they read are dicts, and yield those values with their defaults |
| `JiraServer.LastReads` | src/jira_server.py:274-278 | the reads of created to project succeed iff the nested objects they read are dicts, and yield those values with their defaults |
| `JiraServer.ValidateIssue` | src/jira_server.py:26-38 | the `JiraIssue` model accepts exactly str values (str or None for description, assignee and priority) and keeps them unchanged; otherwise a ValidationError naming at least one of its fields and no others |
| `JiraServer.DetailAndSearchDefaultsDiffer` | src/jira_server.py:249-276 | for an issue without assignee and priority, get-issue reports None for both where search reports "Unassigned" and "" |
| `JiraServer.BuildCreateFields` | src/jira_server.py:288-301 | the create map built key by key equals `CreateFields(args)` |
| `JiraServer.CreateFieldsRequired` | src/jira_server.py:288-292 | a missing project_key or summary raises KeyError; otherwise the map holds `project: {key}`, `summary`, and `issuetype: {name}` with "Task" as the default |
| `JiraServer.CreateFieldsOptional` | src/jira_server.py:294-301 | the map's keys are the three required ones plus exactly the optional keys supplied; priority is present iff supplied, so no default priority is ever sent; priority and assignee are wrapped as `{name: ...}` |
| `JiraServer.BuildUpdateFields` | src/jira_server.py:315-323 | the update map built key by key equals `UpdateFields(fields)` |
| `JiraServer.UpdateFieldsWhitelist` | src/jira_server.py:315-323 | for a dict of fields the update map is its restriction to summary, description, priority and assignee, with priority and assignee wrapped as `{name: ...}`; for None, a bool or an int it raises "argument of type 'T' is not iterable"; the keys never leave the whitelist |
| `JiraServer.UpdateIssueContract` | src/jira_server.py:310-330 | a dict of fields gives one update call carrying the whitelisted map and the reply "Updated issue: <key>"; a non-iterable `fields` raises before any call |
| `JiraServer.AddCommentContract` | src/jira_server.py:332-342 | a missing comment raises KeyError('comment') with no call; otherwise exactly one add-comment call with the given key and comment, and the reply echoes the key |
| `JiraServer.FindTransitionId` | src/jira_server.py:353-357 | the transition loop with its `break` returns exactly `Scan(ts, target)` |
| `JiraServer.ScanFirstMatch` | src/jira_server.py:353-357 | when transitions 0..k are well formed (later ones are never read) and transition k is the first whose target name equals the status ignoring ASCII case, the scan yields transition k's id |
| `JiraServer.ScanNoMatch` | src/jira_server.py:353-357 | when no target name matches, the scan yields None |
| `JiraServer.DecideFirstMatch` | src/jira_server.py:353-359 | a first match with a truthy id decides to apply that id |
| `JiraServer.DecideNoMatch` | src/jira_server.py:359-365 | without a match the decision is the refusal "Cannot transition to '<status>'. Available statuses: " followed by every target name, in order, joined by ", " |
| `JiraServer.TransitionOnMatch` | src/jira_server.py:344-371 | on a first match the handler makes exactly two calls: get the transitions, then set the issue status with the matched id; when setting the status succeeds the reply echoes the caller's spelling of the status, and when it fails the handler raises that exception; transitions after k are never read |
| `JiraServer.TransitionWithoutMatch` | src/jira_server.py:344-365 | without a match the only call is get-transitions (no status change), and the reply is the refusal text |
| `JiraServer.FormatProject` | src/jira_server.py:379-383 | a project row succeeds iff the project is a dict with key, name and id, and then it holds those three values |
| `JiraServer.FormatProjects` | src/jira_server.py:377-383 | the projects loop's result is exactly `MapAll(FormatProject, projects)` |
| `JiraServer.ProjectsProjection` | src/jira_server.py:377-383 | a successful projects listing has one row per project, in order, with its key, name and id |
| `JiraServer.ToolNamed` | src/jira_server.py:196-210 | the dispatcher selects the one tool whose name is given, and selects none iff no tool has that name |
| `JiraServer.TryReply` | src/jira_server.py:195-213 | an unknown name answers "Unknown tool: <name>"; a known name answers what its handler returns, or "Error: <str(e)>" when the handler raises |
| `JiraServer.Routes` | src/jira_server.py:196-213 | each tool's own name selects that tool, so the dispatcher answers with that tool's handler (rendered) and makes exactly that handler's calls |
| `JiraServer.JiraMcpServer.SearchIssues` | src/jira_server.py:234-258 | the search reply is `SearchIssuesReply`, and the client log grows by the one JQL call when `jql` is given, and by nothing otherwise |
| `JiraServer.JiraMcpServer.GetIssue` | src/jira_server.py:260-284 | the get-issue reply is `GetIssueReply`, and the log grows by the one issue fetch when `issue_key` is given |
| `JiraServer.JiraMcpServer.CreateIssue` | src/jira_server.py:286-308 | the create reply is `CreateIssueReply`, and the log grows by the single create call or by nothing |
| `JiraServer.JiraMcpServer.UpdateIssue` | src/jira_server.py:310-330 | the update reply is `UpdateIssueReply`, and the log grows by the single update call or by nothing |
| `JiraServer.JiraMcpServer.AddComment` | src/jira_server.py:332-342 | the add-comment reply is `AddCommentReply`, and the log grows by the single comment call or by nothing |
| `JiraServer.JiraMcpServer.TransitionIssue` | src/jira_server.py:344-371 | the transition reply is `TransitionReply`, and the log grows by the get-transitions call, followed by the set-status call only when one is applied |
| `JiraServer.JiraMcpServer.GetProjects` | src/jira_server.py:373-388 | the projects reply is `GetProjectsReply`, and the log grows by the one projects call |
| `JiraServer.JiraMcpServer.Handle` | src/jira_server.py:196-209 | each tool runs its own handler: the reply and the calls are that handler's |
| `JiraServer.JiraMcpServer.CallTool` | src/jira_server.py:191-213 | the connection happens before the `try`, so missing credentials escape as ValueError (raised iff there is no client and credentials are missing); otherwise the answer is `TryReply` and the log grows by exactly `TryCalls` |
| `ConfluenceServer.ConfigFromEnv` | src/confluence_server.py:240-245 | `cloud` is true when CONFLUENCE_CLOUD is unset, and otherwise iff its lower-cased value is "true"; the url is empty iff CONFLUENCE_URL is unset or empty |
| `ConfluenceServer.ConfluenceMcpServer.constructor` | src/confluence_server.py:41-44 | a new server has no client |
| `ConfluenceServer.ConfluenceClient.constructor` | src/confluence_server.py:250-255 | the client keeps the url, the username, the API token as password, the cloud flag, and an empty call log |
| `ConfluenceServer.ConfluenceMcpServer.Connect` | src/confluence_server.py:238-255 | a missing url, username or token raises ValueError("CONFLUENCE_URL, CONFLUENCE_USERNAME, and CONFLUENCE_API_TOKEN must be set"); otherwise a fresh client built from the configuration |
| `ConfluenceServer.HitOf` | src/confluence_server.py:267-271 | reading a result's content succeeds iff it has id, title, type, space.key and _links.webui, and the hit holds those values |
| `ConfluenceServer.FormatHit` | src/confluence_server.py:265-272 | a hit succeeds iff the result has content.id, .title, .type, .space.key and ._links.webui; it holds those values, and its url is the client url followed by the webui link |
| `ConfluenceServer.FormatHits` | src/confluence_server.py:264-272 | the search loop's result is exactly `MapAll` of the hit projection |
| `ConfluenceServer.SearchProjection` | src/confluence_server.py:264-272 | a successful search projection has one hit per result, in order, with its id, space and url |
| `ConfluenceServer.SearchContentContract` | src/confluence_server.py:257-277 | search makes one CQL call with `limit` defaulting to 25; a successful reply has one hit per element of the response's `results` (default `[]`), in order |
| `ConfluenceServer.ProjectPage` | src/confluence_server.py:284-297 | the page record, built first and then given the content when the page has it, equals `PageInfoOf(base, page)` |
| `ConfluenceServer.PageContentIffStorage` | src/confluence_server.py:284-297 | a projected page has content iff the page has body.storage, and the content is body.storage.value; id, title, space key, version number, author, version date and url come from their paths |
| `ConfluenceServer.PageFieldPaths` | src/confluence_server.py:286-294 | the record built before any content holds id, title, space.key, version.number, version.by.displayName and version.when from the page, and the url is the client url followed by _links.webui |
| `ConfluenceServer.StorageContentIff` | src/confluence_server.py:296-297 | content is found iff the page has body.storage, and it is body.storage.value |
| `ConfluenceServer.PageProjects` | src/confluence_server.py:284-297 | a page with every required path, whose body (if any) is a dict, projects without an exception |
| `ConfluenceServer.HeaderProjects` | src/confluence_server.py:286-294 | a page with every required path builds its record without an exception |
| `ConfluenceServer.StorageProjects` | src/confluence_server.py:296-297 | a dict page whose body (if any) is a dict, and whose storage (if any) has a value, inserts its content without an exception |
| `ConfluenceServer.GetPageContract` | src/confluence_server.py:279-302 | get-page fetches once, with `expand` defaulting to "body.storage,version"; a successful reply carries content iff the fetched page has body.storage |
| `ConfluenceServer.CreatePageContract` | src/confluence_server.py:304-316 | create sends the given space, title and body, and None as parent when no parent_id is given |
| `ConfluenceServer.TitleToSend` | src/confluence_server.py:335 | `title or current["title"]`: a truthy title is sent as given, and a falsy one (None or "") is replaced by the current page's title |
| `ConfluenceServer.UpdateReadsBeforeWrite` | src/confluence_server.py:323-343 | update reads the current page, then writes once with the given or current title, the given content, and a version comment defaulting to "Updated via MCP" |
| `ConfluenceServer.UpdateWithoutAnyTitle` | src/confluence_server.py:331-336 | with a falsy title and a current page without a title, update raises KeyError('title') after the read and makes no write |
| `ConfluenceServer.UpdateReadFails` | src/confluence_server.py:331-338 | a failed read ends the update with that exception and no write |
| `ConfluenceServer.DeletePageContract` | src/confluence_server.py:345-354 | delete calls remove-page once with the given id, and on success echoes the id; a remote failure is passed on |
| `ConfluenceServer.FormatSpace` | src/confluence_server.py:364-369 | a space row succeeds iff the space has key, name, id and type, and then it holds those values |
| `ConfluenceServer.FormatSpaces` | src/confluence_server.py:362-369 | the spaces loop's result is exactly `MapAll(FormatSpace, spaces)` |
| `ConfluenceServer.SpaceProjects` | src/confluence_server.py:364-369 | a projected space row carries the space's key, name, id and type |
| `ConfluenceServer.SpacesProjection` | src/confluence_server.py:362-369 | a successful spaces listing has one row per space, in order, each agreeing with its space |
| `ConfluenceServer.GetSpacesContract` | src/confluence_server.py:356-374 | a successful spaces reply has one row per element of the response's `results`, in order |
| `ConfluenceServer.FormatChild` | src/confluence_server.py:387-391 | a child row succeeds iff the child has id, title and _links.webui; its url is the client url followed by the webui link |
| `ConfluenceServer.FormatChildren` | src/confluence_server.py:385-391 | the children loop's result is exactly `MapAll` of the child projection |
| `ConfluenceServer.ChildrenProjection` | src/confluence_server.py:385-391 | a successful children listing has one row per child, in order, with its id, title and url |
| `ConfluenceServer.GetPageChildrenContract` | src/confluence_server.py:376-396 | children asks for child pages of type "page" with `limit` defaulting to 25; a successful reply has one row per child, in order |
| `ConfluenceServer.AttachmentMissingFile` | src/confluence_server.py:398-408 | a file that does not exist answers "Error: File not found: <path>" and uploads nothing |
| `ConfluenceServer.AttachmentExistingFile` | src/confluence_server.py:398-414 | an existing file is uploaded exactly once, with the given path and page id, and a comment defaulting to "" |
| `ConfluenceServer.ToolNamed` | src/confluence_server.py:217-233 | the dispatcher selects the one tool whose name is given, and selects none iff no tool has that name |
| `ConfluenceServer.TryReply` | src/confluence_server.py:216-236 | an unknown name answers "Unknown tool: <name>"; a known name answers what its handler returns, or "Error: <str(e)>" when the handler raises |
| `ConfluenceServer.Routes` | src/confluence_server.py:217-236 | each tool's own name selects that tool, so the dispatcher answers with that tool's handler (rendered) and makes exactly that handler's calls |
| `ConfluenceServer.ConfluenceMcpServer.SearchContent` | src/confluence_server.py:257-277 | the search reply is `SearchContentReply`, and the log grows by the one CQL call when `cql` is given |
| `ConfluenceServer.ConfluenceMcpServer.GetPage` | src/confluence_server.py:279-302 | the get-page reply is `GetPageReply`, and the log grows by the one page fetch when `page_id` is given |
| `ConfluenceServer.ConfluenceMcpServer.CreatePage` | src/confluence_server.py:304-321 | the create reply is `CreatePageReply`, and the log grows by the one create call when space_key, title and content are given |
| `ConfluenceServer.ConfluenceMcpServer.UpdatePage` | src/confluence_server.py:323-343 | the update reply is `UpdatePageReply`, and the log grows by the read, then the write when the title could be chosen |
| `ConfluenceServer.ConfluenceMcpServer.DeletePage` | src/confluence_server.py:345-354 | the delete reply is `DeletePageReply`, and the log grows by the one remove call when `page_id` is given |
| `ConfluenceServer.ConfluenceMcpServer.GetSpaces` | src/confluence_server.py:356-374 | the spaces reply is `GetSpacesReply`, and the log grows by the one spaces call with `limit` defaulting to 25 |
| `ConfluenceServer.ConfluenceMcpServer.GetPageChildren` | src/confluence_server.py:376-396 | the children reply is `GetPageChildrenReply`, and the log grows by the one children call when `page_id` is given |
| `ConfluenceServer.ConfluenceMcpServer.AddAttachment` | src/confluence_server.py:398-419 | the attachment reply is `AddAttachmentReply`, and the log grows by the upload only when the file exists |
| `ConfluenceServer.ConfluenceMcpServer.Handle` | src/confluence_server.py:217-232 | each tool runs its own handler: the reply and the calls are that handler's |
| `ConfluenceServer.ConfluenceMcpServer.CallTool` | src/confluence_server.py:212-236 | the connection happens before the `try`, so missing credentials escape as ValueError; otherwise the answer is `TryReply` and the log grows by exactly `TryCalls` |

## Left out

- The MCP transport is not modelled: `run`, `main`, the stdio server, asyncio scheduling and the `list_tools` schemas. Only the tool names the dispatcher compares against are kept.
- The Atlassian client library is not part of this model. Each client call is an opaque function of its arguments. The client library's own URL normalisation and its HTTP behaviour are not modelled. The adapters use the client's `url` as it is, and in the model that `url` is the configured URL.
- Environment loading (`load_dotenv`, `os.getenv`) is an input map from variable names to strings.
- Confluence's `os.path.exists` and `os.path.basename` are an input oracle (`Host`), since the file system is outside the model.
- `json.dumps(..., indent=2)` and `model_dump_json(indent=2)` are not modelled as text. A reply carries the projected records instead, so key order and indentation are not modelled.
- A `for` loop over a dict visits its keys in insertion order, which a Dafny map does not keep. `Py.Iterate` yields one placeholder string per key instead. Every loop body in both servers fails on a string element with a message that does not depend on the string, so replies do not change.
- `Py.Show`: f-string rendering of a list or a dict is the placeholder "[...]" or "{...}", not Python's repr. Floats are not among the JSON values.
- `Py.Message`: a pydantic ValidationError renders as its error count, model name and failing field names. The full pydantic text, including input values and documentation links, is not modelled.
- `Py.LowerAscii`: `str.lower` lower-cases ASCII letters only. Unicode case mapping is not modelled.
- The `ConfluencePage` model class is declared in `src/confluence_server.py` but no handler uses it, so it has no counterpart. The Jira `JiraIssue` model is modelled, as `JiraServer.IssueDetailsOf`'s validation.
- The Jira transition handler passes the transition id as `set_issue_status`'s second argument. What the client library does with it is outside the model.
