/**
 * The Confluence adapter server: a lazily connected Confluence client, a
 * dispatcher that routes a tool name to one handler, and eight handlers that
 * shape a request, make one or two remote calls and project the response.
 *
 * The remote Confluence service is an oracle `ConfluenceService` from a call
 * to its decoded JSON response (or the exception the client library raises);
 * the client records every call it makes in a ghost log. The host's file
 * system is a second oracle, `Host`, for `os.path.exists` and
 * `os.path.basename`.
 */
module ConfluenceServer {
  import opened Py
  import Collect

  // ---------------------------------------------------------------------
  // Configuration and connection
  // ---------------------------------------------------------------------

  datatype ConfluenceConfig = ConfluenceConfig(url: string, username: string, apiToken: string, cloud: bool)

  /** `os.getenv(key, default)` over the process environment. */
  function EnvOr(env: map<string, string>, key: string, default: string): string
  {
    if key in env then env[key] else default
  }

  /** The configuration read from the environment; `CONFLUENCE_CLOUD` defaults to "true". */
  function ConfigFromEnv(env: map<string, string>): (c: ConfluenceConfig)
    ensures "CONFLUENCE_CLOUD" !in env ==> c.cloud
    ensures "CONFLUENCE_CLOUD" in env ==> (c.cloud <==> LowerAscii(env["CONFLUENCE_CLOUD"]) == "true")
    ensures c.url == "" <==> "CONFLUENCE_URL" !in env || env["CONFLUENCE_URL"] == ""
  {
    ConfluenceConfig(
      EnvOr(env, "CONFLUENCE_URL", ""),
      EnvOr(env, "CONFLUENCE_USERNAME", ""),
      EnvOr(env, "CONFLUENCE_API_TOKEN", ""),
      LowerAscii(EnvOr(env, "CONFLUENCE_CLOUD", "true")) == "true")
  }

  const CredentialsMessage :=
    "CONFLUENCE_URL, CONFLUENCE_USERNAME, and CONFLUENCE_API_TOKEN must be set"

  predicate MissingCredentials(c: ConfluenceConfig)
  {
    c.url == "" || c.username == "" || c.apiToken == ""
  }

  // ---------------------------------------------------------------------
  // Remote calls, host oracle and replies
  // ---------------------------------------------------------------------

  /** One call on the Confluence client library (create_page and update_page are PostPage and PutPage). */
  datatype ConfluenceCall =
    | Cql(cql: Value, limit: Value)
    | GetPageById(pageId: Value, expand: Value)
    | PostPage(space: Value, title: Value, body: Value, parentId: Value)
    | PutPage(pageId: Value, title: Value, body: Value, versionComment: Value)
    | RemovePage(pageId: Value)
    | GetAllSpaces(limit: Value)
    | GetPageChildByType(pageId: Value, kind: Value, limit: Value)
    | AttachFile(path: Value, pageId: Value, comment: Value)

  /** The remote service: what each call returns, or raises. */
  type ConfluenceService = ConfluenceCall -> Result<Value>

  /** The host's `os.path.exists` and `os.path.basename`, either of which may raise on a non-path. */
  datatype Host = Host(pathExists: Value -> Result<bool>, basename: Value -> Result<string>)

  datatype SearchHit = SearchHit(id: Value, title: Value, kind: Value, space: Value, url: string)

  datatype PageInfo = PageInfo(id: Value, title: Value, space: Value, version: Value,
                               createdBy: Value, createdDate: Value, url: string,
                               content: Option<Value>)

  datatype SpaceRow = SpaceRow(key: Value, name: Value, id: Value, kind: Value)

  datatype ChildRow = ChildRow(id: Value, title: Value, url: string)

  /** The single text content a handler returns; the structured variants stand for their JSON text. */
  datatype ConfluenceReply =
    | Text(text: string)
    | Hits(hits: seq<SearchHit>)
    | Page(page: PageInfo)
    | Spaces(spaces: seq<SpaceRow>)
    | Children(children: seq<ChildRow>)

  // ---------------------------------------------------------------------
  // confluence_search_content
  // ---------------------------------------------------------------------

  /** The hit read from a result's `content` dict. */
  function HitOf(base: string, content: Value): (r: Result<SearchHit>)
    ensures r.Success? <==>
              && At(content, ["id"]).Some? && At(content, ["title"]).Some?
              && At(content, ["type"]).Some? && At(content, ["space", "key"]).Some?
              && At(content, ["_links", "webui"]).Some?
    ensures r.Success? ==>
              r.value == SearchHit(At(content, ["id"]).value, At(content, ["title"]).value,
                                   At(content, ["type"]).value, At(content, ["space", "key"]).value,
                                   base + Show(At(content, ["_links", "webui"]).value))
  {
    var id :- Index(content, "id");
    var title :- Index(content, "title");
    var kind :- Index(content, "type");
    var space :- Index(content, "space");
    var key :- Index(space, "key");
    var links :- Index(content, "_links");
    var webui :- Index(links, "webui");
    Success(SearchHit(id, title, kind, key, base + Show(webui)))
  }

  /** The body of the search loop for one result; `base` is the client's url. */
  function FormatHit(base: string, result: Value): (r: Result<SearchHit>)
    ensures r.Success? <==>
              && At(result, ["content", "id"]).Some? && At(result, ["content", "title"]).Some?
              && At(result, ["content", "type"]).Some? && At(result, ["content", "space", "key"]).Some?
              && At(result, ["content", "_links", "webui"]).Some?
    ensures r.Success? ==>
              r.value == SearchHit(At(result, ["content", "id"]).value,
                                   At(result, ["content", "title"]).value,
                                   At(result, ["content", "type"]).value,
                                   At(result, ["content", "space", "key"]).value,
                                   base + Show(At(result, ["content", "_links", "webui"]).value))
  {
    var content :- Index(result, "content");
    assert At(result, ["content", "space", "key"]) == At(content, ["space", "key"]);
    assert At(result, ["content", "_links", "webui"]) == At(content, ["_links", "webui"]);
    HitOf(base, content)
  }

  function HitFormatter(base: string): Value -> Result<SearchHit>
  {
    result => FormatHit(base, result)
  }

  /** The search loop: one hit per result, appended in order. */
  method FormatHits(base: string, results: seq<Value>) returns (r: Result<seq<SearchHit>>)
    ensures r == Collect.MapAll(HitFormatter(base), results)
  {
    var formatted: seq<SearchHit> := [];
    var i := 0;
    while i < |results|
      invariant 0 <= i <= |results|
      invariant Collect.MapAll(HitFormatter(base), results[..i]) == Success(formatted)
    {
      var hit := FormatHit(base, results[i]);
      assert results[..i + 1][..i] == results[..i];
      if hit.Failure? {
        Collect.PrefixFailure(HitFormatter(base), results, i + 1);
        return Failure(hit.error);
      }
      formatted := formatted + [hit.value];
      i := i + 1;
    }
    assert results[..i] == results;
    r := Success(formatted);
  }

  /** A successful search keeps the count and order of the results; each url is the base url plus the web link. */
  lemma {:induction false} SearchProjection(base: string, results: seq<Value>, hits: seq<SearchHit>)
    requires Collect.MapAll(HitFormatter(base), results) == Success(hits)
    ensures |hits| == |results|
    ensures forall k :: 0 <= k < |hits| ==>
              && At(results[k], ["content", "_links", "webui"]).Some?
              && hits[k].url == base + Show(At(results[k], ["content", "_links", "webui"]).value)
              && Some(hits[k].id) == At(results[k], ["content", "id"])
              && Some(hits[k].space) == At(results[k], ["content", "space", "key"])
  {
    Collect.Pointwise(HitFormatter(base), results);
    forall k | 0 <= k < |hits| ensures FormatHit(base, results[k]) == Success(hits[k]) {
      assert HitFormatter(base)(results[k]) == Success(hits[k]);
    }
  }

  function SearchContentReply(args: map<string, Value>, service: ConfluenceService, base: string)
    : Result<ConfluenceReply>
  {
    var cql :- Arg(args, "cql");
    var results :- service(Cql(cql, ArgOr(args, "limit", Int(25))));
    var listed :- GetOr(results, "results", List([]));
    var items :- Iterate(listed);
    var hits :- Collect.MapAll(HitFormatter(base), items);
    Success(Hits(hits))
  }

  function SearchContentCalls(args: map<string, Value>): seq<ConfluenceCall>
  {
    if "cql" in args then [Cql(args["cql"], ArgOr(args, "limit", Int(25)))] else []
  }

  /**
   * Search sends the CQL with a limit defaulting to 25; a successful search
   * answers one hit per element of the response's `results` list, in order.
   */
  lemma SearchContentContract(args: map<string, Value>, service: ConfluenceService, base: string)
    requires "cql" in args
    ensures SearchContentCalls(args) ==
              [Cql(args["cql"], if "limit" in args then args["limit"] else Int(25))]
    ensures SearchContentReply(args, service, base).Success? ==>
              var resp := service(Cql(args["cql"], ArgOr(args, "limit", Int(25))));
              var hits := SearchContentReply(args, service, base).value.hits;
              && resp.Success? && resp.value.Dict?
              && var items := Iterate(GetOr(resp.value, "results", List([])).value).value;
              && |hits| == |items|
              && forall k :: 0 <= k < |hits| ==>
                   && At(items[k], ["content", "_links", "webui"]).Some?
                   && hits[k].url == base + Show(At(items[k], ["content", "_links", "webui"]).value)
                   && Some(hits[k].id) == At(items[k], ["content", "id"])
  {
    var reply := SearchContentReply(args, service, base);
    if reply.Success? {
      var resp := service(Cql(args["cql"], ArgOr(args, "limit", Int(25))));
      var items := Iterate(GetOr(resp.value, "results", List([])).value).value;
      SearchProjection(base, items, reply.value.hits);
    }
  }

  // ---------------------------------------------------------------------
  // confluence_get_page
  // ---------------------------------------------------------------------

  /** The page has a body with a storage representation. */
  predicate HasStorageBody(page: Value)
  {
    At(page, ["body", "storage"]).Some?
  }

  /** The page record before any content: every field read from its path, in the order the source reads them. */
  function PageHeader(base: string, page: Value): Result<PageInfo>
  {
    var id :- Index(page, "id");
    var title :- Index(page, "title");
    var space :- Index(page, "space");
    var spaceKey :- Index(space, "key");
    var version :- Index(page, "version");
    var number :- Index(version, "number");
    var editor :- Index(version, "by");
    var author :- Index(editor, "displayName");
    var when :- Index(version, "when");
    var links :- Index(page, "_links");
    var webui :- Index(links, "webui");
    Success(PageInfo(id, title, spaceKey, number, author, when, base + Show(webui), None))
  }

  /** The content to insert: the storage value for a page whose body has a storage representation, else none. */
  function StorageContent(page: Value): Result<Option<Value>>
  {
    var hasBody :- Contains(page, "body");
    if !hasBody then Success(None)
    else
      var body :- Index(page, "body");
      var hasStorage :- Contains(body, "storage");
      if !hasStorage then Success(None)
      else
        var storage :- Index(body, "storage");
        var value :- Index(storage, "value");
        Success(Some(value))
  }

  /** The page projection, as a whole; the content key is inserted only for a page with a storage body. */
  function PageInfoOf(base: string, page: Value): Result<PageInfo>
  {
    var info :- PageHeader(base, page);
    var content :- StorageContent(page);
    Success(info.(content := content))
  }

  /** The get-page projection: builds the record, then inserts the content when the page has it. */
  method ProjectPage(base: string, page: Value) returns (r: Result<PageInfo>)
    ensures r == PageInfoOf(base, page)
  {
    var id :- Index(page, "id");
    var title :- Index(page, "title");
    var space :- Index(page, "space");
    var spaceKey :- Index(space, "key");
    var version :- Index(page, "version");
    var number :- Index(version, "number");
    var editor :- Index(version, "by");
    var author :- Index(editor, "displayName");
    var when :- Index(version, "when");
    var links :- Index(page, "_links");
    var webui :- Index(links, "webui");
    var info := PageInfo(id, title, spaceKey, number, author, when, base + Show(webui), None);
    var hasBody := "body" in page.entries;
    if hasBody {
      var body := page.entries["body"];
      var hasStorage :- Contains(body, "storage");
      if hasStorage {
        var storage :- Index(body, "storage");
        var value :- Index(storage, "value");
        info := info.(content := Some(value));
      }
    }
    r := Success(info);
  }

  /**
   * A projected page carries `content` exactly when the page has a body with
   * a storage representation, and then it is that representation's value;
   * the other fields come from their paths in the page.
   */
  lemma PageContentIffStorage(base: string, page: Value)
    requires PageInfoOf(base, page).Success?
    ensures var info := PageInfoOf(base, page).value;
            && (info.content.Some? <==> HasStorageBody(page))
            && (info.content.Some? ==> Some(info.content.value) == At(page, ["body", "storage", "value"]))
            && Some(info.id) == At(page, ["id"])
            && Some(info.title) == At(page, ["title"])
            && Some(info.space) == At(page, ["space", "key"])
            && Some(info.version) == At(page, ["version", "number"])
            && Some(info.createdBy) == At(page, ["version", "by", "displayName"])
            && Some(info.createdDate) == At(page, ["version", "when"])
            && info.url == base + Show(At(page, ["_links", "webui"]).value)
  {
    PageFieldPaths(base, page);
    StorageContentIff(page);
  }

  /** The record fields other than the content come from their paths in the page. */
  lemma PageFieldPaths(base: string, page: Value)
    requires PageHeader(base, page).Success?
    ensures var info := PageHeader(base, page).value;
            && Some(info.id) == At(page, ["id"])
            && Some(info.title) == At(page, ["title"])
            && Some(info.space) == At(page, ["space", "key"])
            && Some(info.version) == At(page, ["version", "number"])
            && Some(info.createdBy) == At(page, ["version", "by", "displayName"])
            && Some(info.createdDate) == At(page, ["version", "when"])
            && info.url == base + Show(At(page, ["_links", "webui"]).value)
  {
    var version := page.entries["version"];
    assert At(page, ["version", "by", "displayName"]) == At(version, ["by", "displayName"]);
  }

  /** Content is found exactly for a body with a storage representation, and it is that representation's value. */
  lemma StorageContentIff(page: Value)
    requires StorageContent(page).Success?
    ensures var content := StorageContent(page).value;
            && (content.Some? <==> HasStorageBody(page))
            && (content.Some? ==> Some(content.value) == At(page, ["body", "storage", "value"]))
  {
    if page.Dict? && "body" in page.entries {
      var body := page.entries["body"];
      assert At(page, ["body", "storage"]) == At(body, ["storage"]);
      assert At(page, ["body", "storage", "value"]) == At(body, ["storage", "value"]);
    }
  }

  /** A page without a body, or with a dict body, projects as soon as its required paths exist. */
  lemma PageProjects(base: string, page: Value)
    requires At(page, ["id"]).Some? && At(page, ["title"]).Some? && At(page, ["space", "key"]).Some?
    requires At(page, ["version", "number"]).Some? && At(page, ["version", "by", "displayName"]).Some?
    requires At(page, ["version", "when"]).Some? && At(page, ["_links", "webui"]).Some?
    requires At(page, ["body"]).Some? ==> At(page, ["body"]).value.Dict?
    requires HasStorageBody(page) ==> At(page, ["body", "storage", "value"]).Some?
    ensures PageInfoOf(base, page).Success?
  {
    HeaderProjects(base, page);
    StorageProjects(page);
  }

  lemma HeaderProjects(base: string, page: Value)
    requires At(page, ["id"]).Some? && At(page, ["title"]).Some? && At(page, ["space", "key"]).Some?
    requires At(page, ["version", "number"]).Some? && At(page, ["version", "by", "displayName"]).Some?
    requires At(page, ["version", "when"]).Some? && At(page, ["_links", "webui"]).Some?
    ensures PageHeader(base, page).Success?
  {
    var version := page.entries["version"];
    assert At(page, ["version", "by", "displayName"]) == At(version, ["by", "displayName"]);
  }

  lemma StorageProjects(page: Value)
    requires page.Dict?
    requires At(page, ["body"]).Some? ==> At(page, ["body"]).value.Dict?
    requires HasStorageBody(page) ==> At(page, ["body", "storage", "value"]).Some?
    ensures StorageContent(page).Success?
  {
    if "body" in page.entries {
      var body := page.entries["body"];
      assert At(page, ["body", "storage"]) == At(body, ["storage"]);
      assert At(page, ["body", "storage", "value"]) == At(body, ["storage", "value"]);
    }
  }

  function GetPageReply(args: map<string, Value>, service: ConfluenceService, base: string)
    : Result<ConfluenceReply>
  {
    var pageId :- Arg(args, "page_id");
    var page :- service(GetPageById(pageId, ArgOr(args, "expand", Str("body.storage,version"))));
    var info :- PageInfoOf(base, page);
    Success(Page(info))
  }

  function GetPageCalls(args: map<string, Value>): seq<ConfluenceCall>
  {
    if "page_id" in args then [GetPageById(args["page_id"], ArgOr(args, "expand", Str("body.storage,version")))]
    else []
  }

  /**
   * Get-page fetches with `expand` defaulting to "body.storage,version"; a
   * successful reply carries the page's content exactly when the fetched
   * page has a body with a storage representation.
   */
  lemma GetPageContract(args: map<string, Value>, service: ConfluenceService, base: string)
    requires "page_id" in args
    ensures GetPageCalls(args) ==
              [GetPageById(args["page_id"], if "expand" in args then args["expand"] else Str("body.storage,version"))]
    ensures GetPageReply(args, service, base).Success? ==>
              var resp := service(GetPageById(args["page_id"], ArgOr(args, "expand", Str("body.storage,version"))));
              var info := GetPageReply(args, service, base).value.page;
              && resp.Success?
              && (info.content.Some? <==> HasStorageBody(resp.value))
              && Some(info.id) == At(resp.value, ["id"])
  {
    var reply := GetPageReply(args, service, base);
    if reply.Success? {
      var resp := service(GetPageById(args["page_id"], ArgOr(args, "expand", Str("body.storage,version"))));
      PageContentIffStorage(base, resp.value);
    }
  }

  // ---------------------------------------------------------------------
  // confluence_create_page
  // ---------------------------------------------------------------------

  function CreatedText(result: Value, base: string): Result<ConfluenceReply>
  {
    var title :- Index(result, "title");
    var id :- Index(result, "id");
    var links :- Index(result, "_links");
    var webui :- Index(links, "webui");
    Success(Text("Created page: " + Show(title) + "\nID: " + Show(id) + "\nURL: " + base + Show(webui)))
  }

  function CreatePageCall(args: map<string, Value>): Result<ConfluenceCall>
  {
    var space :- Arg(args, "space_key");
    var title :- Arg(args, "title");
    var content :- Arg(args, "content");
    Success(PostPage(space, title, content, ArgOr(args, "parent_id", Null)))
  }

  function CreatePageReply(args: map<string, Value>, service: ConfluenceService, base: string)
    : Result<ConfluenceReply>
  {
    var call :- CreatePageCall(args);
    var result :- service(call);
    CreatedText(result, base)
  }

  function CreatePageCalls(args: map<string, Value>): seq<ConfluenceCall>
  {
    match CreatePageCall(args)
    case Success(call) => [call]
    case Failure(_) => []
  }

  /** Create sends the space, title and body it was given, and None as the parent when none is given. */
  lemma CreatePageContract(args: map<string, Value>)
    requires "space_key" in args && "title" in args && "content" in args
    ensures CreatePageCalls(args) ==
              [PostPage(args["space_key"], args["title"], args["content"],
                        if "parent_id" in args then args["parent_id"] else Null)]
  {
  }

  // ---------------------------------------------------------------------
  // confluence_update_page
  // ---------------------------------------------------------------------

  const DefaultVersionComment := Str("Updated via MCP")

  /** `title or current_page["title"]`: the current title is consulted only when the given one is falsy. */
  function TitleToSend(title: Value, current: Value): (r: Result<Value>)
    ensures Truthy(title) ==> r == Success(title)
    ensures !Truthy(title) && current.Dict? && "title" in current.entries ==>
              r == Success(current.entries["title"])
  {
    if Truthy(title) then Success(title) else Index(current, "title")
  }

  function UpdatedText(result: Value): Result<ConfluenceReply>
  {
    var title :- Index(result, "title");
    var version :- Index(result, "version");
    var number :- Index(version, "number");
    Success(Text("Updated page: " + Show(title) + "\nVersion: " + Show(number)))
  }

  /** The write that follows a successful read of the current page. */
  function UpdateWrite(args: map<string, Value>, current: Value): Result<ConfluenceCall>
    requires "page_id" in args && "content" in args
  {
    var title :- TitleToSend(ArgOr(args, "title", Null), current);
    Success(PutPage(args["page_id"], title, args["content"],
                    ArgOr(args, "version_comment", DefaultVersionComment)))
  }

  function UpdatePageReply(args: map<string, Value>, service: ConfluenceService): Result<ConfluenceReply>
  {
    var pageId :- Arg(args, "page_id");
    var content :- Arg(args, "content");
    var current :- service(GetPageById(pageId, Null));
    var write :- UpdateWrite(args, current);
    var result :- service(write);
    UpdatedText(result)
  }

  function UpdatePageCalls(args: map<string, Value>, service: ConfluenceService): seq<ConfluenceCall>
  {
    if "page_id" !in args || "content" !in args then []
    else
      var read := GetPageById(args["page_id"], Null);
      match service(read)
      case Failure(_) => [read]
      case Success(current) =>
        match UpdateWrite(args, current)
        case Failure(_) => [read]
        case Success(write) => [read, write]
  }

  /**
   * Update reads the current page before it writes; the title it writes is
   * the given one when truthy and the current page's otherwise (so an empty
   * title falls back too), and the version comment defaults to "Updated via MCP".
   */
  lemma UpdateReadsBeforeWrite(args: map<string, Value>, service: ConfluenceService, current: Value)
    requires "page_id" in args && "content" in args
    requires service(GetPageById(args["page_id"], Null)) == Success(current)
    requires Truthy(ArgOr(args, "title", Null)) || At(current, ["title"]).Some?
    ensures var title := if Truthy(ArgOr(args, "title", Null)) then args["title"]
                         else At(current, ["title"]).value;
            var comment := if "version_comment" in args then args["version_comment"]
                           else Str("Updated via MCP");
            UpdatePageCalls(args, service) ==
              [GetPageById(args["page_id"], Null), PutPage(args["page_id"], title, args["content"], comment)]
  {
  }

  /**
   * With a falsy title and a current page that has no title, the lookup
   * raises after the read, and no write is made.
   */
  lemma UpdateWithoutAnyTitle(args: map<string, Value>, service: ConfluenceService, current: Value)
    requires "page_id" in args && "content" in args
    requires service(GetPageById(args["page_id"], Null)) == Success(current)
    requires !Truthy(ArgOr(args, "title", Null)) && current.Dict? && "title" !in current.entries
    ensures UpdatePageCalls(args, service) == [GetPageById(args["page_id"], Null)]
    ensures UpdatePageReply(args, service) == Failure(KeyError("title"))
  {
  }

  /** A failed read stops the update before any write. */
  lemma UpdateReadFails(args: map<string, Value>, service: ConfluenceService)
    requires "page_id" in args && "content" in args
    requires service(GetPageById(args["page_id"], Null)).Failure?
    ensures UpdatePageCalls(args, service) == [GetPageById(args["page_id"], Null)]
    ensures UpdatePageReply(args, service) == Failure(service(GetPageById(args["page_id"], Null)).error)
  {
  }

  // ---------------------------------------------------------------------
  // confluence_delete_page
  // ---------------------------------------------------------------------

  function DeletePageReply(args: map<string, Value>, service: ConfluenceService): Result<ConfluenceReply>
  {
    var pageId :- Arg(args, "page_id");
    var ignored :- service(RemovePage(pageId));
    Success(Text("Deleted page with ID: " + Show(pageId)))
  }

  function DeletePageCalls(args: map<string, Value>): seq<ConfluenceCall>
  {
    if "page_id" in args then [RemovePage(args["page_id"])] else []
  }

  /** Delete removes the page once and echoes the id it was given. */
  lemma DeletePageContract(args: map<string, Value>, service: ConfluenceService)
    requires "page_id" in args
    ensures DeletePageCalls(args) == [RemovePage(args["page_id"])]
    ensures service(RemovePage(args["page_id"])).Success? ==>
              DeletePageReply(args, service) == Success(Text("Deleted page with ID: " + Show(args["page_id"])))
    ensures service(RemovePage(args["page_id"])).Failure? ==>
              DeletePageReply(args, service) == Failure(service(RemovePage(args["page_id"])).error)
  {
  }

  // ---------------------------------------------------------------------
  // confluence_get_spaces
  // ---------------------------------------------------------------------

  function FormatSpace(space: Value): (r: Result<SpaceRow>)
    ensures r.Success? <==> At(space, ["key"]).Some? && At(space, ["name"]).Some?
                            && At(space, ["id"]).Some? && At(space, ["type"]).Some?
    ensures r.Success? ==> r.value == SpaceRow(space.entries["key"], space.entries["name"],
                                               space.entries["id"], space.entries["type"])
  {
    var key :- Index(space, "key");
    var name :- Index(space, "name");
    var id :- Index(space, "id");
    var kind :- Index(space, "type");
    Success(SpaceRow(key, name, id, kind))
  }

  /** The spaces loop: one row per space, appended in order. */
  method FormatSpaces(spaces: seq<Value>) returns (r: Result<seq<SpaceRow>>)
    ensures r == Collect.MapAll(FormatSpace, spaces)
  {
    var formatted: seq<SpaceRow> := [];
    var i := 0;
    while i < |spaces|
      invariant 0 <= i <= |spaces|
      invariant Collect.MapAll(FormatSpace, spaces[..i]) == Success(formatted)
    {
      var row := FormatSpace(spaces[i]);
      assert spaces[..i + 1][..i] == spaces[..i];
      if row.Failure? {
        Collect.PrefixFailure(FormatSpace, spaces, i + 1);
        return Failure(row.error);
      }
      formatted := formatted + [row.value];
      i := i + 1;
    }
    assert spaces[..i] == spaces;
    r := Success(formatted);
  }

  /** A successful spaces listing has one row per space, in order, with its key, name, id and type. */
  lemma {:induction false} SpacesProjection(spaces: seq<Value>, rows: seq<SpaceRow>)
    requires Collect.MapAll(FormatSpace, spaces) == Success(rows)
    ensures |rows| == |spaces|
    ensures forall k :: 0 <= k < |rows| ==>
              && At(spaces[k], ["key"]) == Some(rows[k].key)
              && At(spaces[k], ["name"]) == Some(rows[k].name)
              && At(spaces[k], ["id"]) == Some(rows[k].id)
              && At(spaces[k], ["type"]) == Some(rows[k].kind)
  {
    Collect.Pointwise(FormatSpace, spaces);
    forall k | 0 <= k < |rows|
      ensures At(spaces[k], ["key"]) == Some(rows[k].key) && At(spaces[k], ["name"]) == Some(rows[k].name)
      ensures At(spaces[k], ["id"]) == Some(rows[k].id) && At(spaces[k], ["type"]) == Some(rows[k].kind)
    {
      SpaceProjects(spaces[k], rows[k]);
    }
  }

  lemma SpaceProjects(space: Value, row: SpaceRow)
    requires FormatSpace(space) == Success(row)
    ensures At(space, ["key"]) == Some(row.key) && At(space, ["name"]) == Some(row.name)
    ensures At(space, ["id"]) == Some(row.id) && At(space, ["type"]) == Some(row.kind)
  {
  }

  function GetSpacesReply(args: map<string, Value>, service: ConfluenceService): Result<ConfluenceReply>
  {
    var spaces :- service(GetAllSpaces(ArgOr(args, "limit", Int(25))));
    var listed :- Index(spaces, "results");
    var items :- Iterate(listed);
    var rows :- Collect.MapAll(FormatSpace, items);
    Success(Spaces(rows))
  }

  /** A successful spaces listing has one row per element of the response's `results`, in order. */
  lemma GetSpacesContract(args: map<string, Value>, service: ConfluenceService)
    ensures GetSpacesReply(args, service).Success? ==>
              var resp := service(GetAllSpaces(if "limit" in args then args["limit"] else Int(25)));
              var rows := GetSpacesReply(args, service).value.spaces;
              && resp.Success? && At(resp.value, ["results"]).Some?
              && var items := Iterate(At(resp.value, ["results"]).value).value;
              && |rows| == |items|
              && forall k :: 0 <= k < |rows| ==> At(items[k], ["key"]) == Some(rows[k].key)
  {
    var reply := GetSpacesReply(args, service);
    if reply.Success? {
      var resp := service(GetAllSpaces(ArgOr(args, "limit", Int(25))));
      var items := Iterate(Index(resp.value, "results").value).value;
      SpacesProjection(items, reply.value.spaces);
    }
  }

  // ---------------------------------------------------------------------
  // confluence_get_page_children
  // ---------------------------------------------------------------------

  function FormatChild(base: string, child: Value): (r: Result<ChildRow>)
    ensures r.Success? <==> At(child, ["id"]).Some? && At(child, ["title"]).Some?
                            && At(child, ["_links", "webui"]).Some?
    ensures r.Success? ==> r.value == ChildRow(At(child, ["id"]).value, At(child, ["title"]).value,
                                               base + Show(At(child, ["_links", "webui"]).value))
  {
    var id :- Index(child, "id");
    var title :- Index(child, "title");
    var links :- Index(child, "_links");
    var webui :- Index(links, "webui");
    Success(ChildRow(id, title, base + Show(webui)))
  }

  function ChildFormatter(base: string): Value -> Result<ChildRow>
  {
    child => FormatChild(base, child)
  }

  /** The children loop: one row per child page, appended in order. */
  method FormatChildren(base: string, children: seq<Value>) returns (r: Result<seq<ChildRow>>)
    ensures r == Collect.MapAll(ChildFormatter(base), children)
  {
    var formatted: seq<ChildRow> := [];
    var i := 0;
    while i < |children|
      invariant 0 <= i <= |children|
      invariant Collect.MapAll(ChildFormatter(base), children[..i]) == Success(formatted)
    {
      var row := FormatChild(base, children[i]);
      assert children[..i + 1][..i] == children[..i];
      if row.Failure? {
        Collect.PrefixFailure(ChildFormatter(base), children, i + 1);
        return Failure(row.error);
      }
      formatted := formatted + [row.value];
      i := i + 1;
    }
    assert children[..i] == children;
    r := Success(formatted);
  }

  /** A successful children listing has one row per child, in order; each url is the base url plus the web link. */
  lemma {:induction false} ChildrenProjection(base: string, children: seq<Value>, rows: seq<ChildRow>)
    requires Collect.MapAll(ChildFormatter(base), children) == Success(rows)
    ensures |rows| == |children|
    ensures forall k :: 0 <= k < |rows| ==>
              && At(children[k], ["_links", "webui"]).Some?
              && rows[k].url == base + Show(At(children[k], ["_links", "webui"]).value)
              && Some(rows[k].id) == At(children[k], ["id"])
              && Some(rows[k].title) == At(children[k], ["title"])
  {
    Collect.Pointwise(ChildFormatter(base), children);
    forall k | 0 <= k < |rows| ensures FormatChild(base, children[k]) == Success(rows[k]) {
      assert ChildFormatter(base)(children[k]) == Success(rows[k]);
    }
  }

  function ChildrenCall(pageId: Value, args: map<string, Value>): ConfluenceCall
  {
    GetPageChildByType(pageId, Str("page"), ArgOr(args, "limit", Int(25)))
  }

  function GetPageChildrenReply(args: map<string, Value>, service: ConfluenceService, base: string)
    : Result<ConfluenceReply>
  {
    var pageId :- Arg(args, "page_id");
    var children :- service(ChildrenCall(pageId, args));
    var items :- Iterate(children);
    var rows :- Collect.MapAll(ChildFormatter(base), items);
    Success(Children(rows))
  }

  function GetPageChildrenCalls(args: map<string, Value>): seq<ConfluenceCall>
  {
    if "page_id" in args then [ChildrenCall(args["page_id"], args)] else []
  }

  /**
   * Children asks for child pages of type "page" with a limit defaulting to
   * 25, and a successful reply has one row per child, in order.
   */
  lemma GetPageChildrenContract(args: map<string, Value>, service: ConfluenceService, base: string)
    requires "page_id" in args
    ensures GetPageChildrenCalls(args) ==
              [GetPageChildByType(args["page_id"], Str("page"), if "limit" in args then args["limit"] else Int(25))]
    ensures GetPageChildrenReply(args, service, base).Success? ==>
              var resp := service(ChildrenCall(args["page_id"], args));
              var rows := GetPageChildrenReply(args, service, base).value.children;
              && resp.Success?
              && var items := Iterate(resp.value).value;
              && |rows| == |items|
              && forall k :: 0 <= k < |rows| ==> Some(rows[k].id) == At(items[k], ["id"])
  {
    var reply := GetPageChildrenReply(args, service, base);
    if reply.Success? {
      var resp := service(ChildrenCall(args["page_id"], args));
      ChildrenProjection(base, Iterate(resp.value).value, reply.value.children);
    }
  }

  // ---------------------------------------------------------------------
  // confluence_add_attachment
  // ---------------------------------------------------------------------

  function AddAttachmentReply(args: map<string, Value>, service: ConfluenceService, host: Host)
    : Result<ConfluenceReply>
  {
    var pageId :- Arg(args, "page_id");
    var path :- Arg(args, "file_path");
    var comment := ArgOr(args, "comment", Str(""));
    var present :- host.pathExists(path);
    if !present then Success(Text("Error: File not found: " + Show(path)))
    else
      var ignored :- service(AttachFile(path, pageId, comment));
      var name :- host.basename(path);
      Success(Text("Attached file: " + name + " to page " + Show(pageId)))
  }

  function AddAttachmentCalls(args: map<string, Value>, host: Host): seq<ConfluenceCall>
  {
    if "page_id" in args && "file_path" in args && host.pathExists(args["file_path"]) == Success(true) then
      [AttachFile(args["file_path"], args["page_id"], ArgOr(args, "comment", Str("")))]
    else []
  }

  /** A missing file is reported as an ordinary reply and nothing is uploaded. */
  lemma AttachmentMissingFile(args: map<string, Value>, service: ConfluenceService, host: Host)
    requires "page_id" in args && "file_path" in args
    requires host.pathExists(args["file_path"]) == Success(false)
    ensures AddAttachmentCalls(args, host) == []
    ensures AddAttachmentReply(args, service, host) ==
              Success(Text("Error: File not found: " + Show(args["file_path"])))
  {
  }

  /** An existing file is uploaded exactly once, with the comment defaulting to "". */
  lemma AttachmentExistingFile(args: map<string, Value>, service: ConfluenceService, host: Host)
    requires "page_id" in args && "file_path" in args
    requires host.pathExists(args["file_path"]) == Success(true)
    ensures AddAttachmentCalls(args, host) ==
              [AttachFile(args["file_path"], args["page_id"],
                          if "comment" in args then args["comment"] else Str(""))]
  {
  }

  // ---------------------------------------------------------------------
  // The dispatcher
  // ---------------------------------------------------------------------

  datatype ConfluenceTool =
    | ConfluenceSearchContent | ConfluenceGetPage | ConfluenceCreatePage | ConfluenceUpdatePage
    | ConfluenceDeletePage | ConfluenceGetSpaces | ConfluenceGetPageChildren | ConfluenceAddAttachment

  function ToolName(t: ConfluenceTool): string
  {
    match t
    case ConfluenceSearchContent => "confluence_search_content"
    case ConfluenceGetPage => "confluence_get_page"
    case ConfluenceCreatePage => "confluence_create_page"
    case ConfluenceUpdatePage => "confluence_update_page"
    case ConfluenceDeletePage => "confluence_delete_page"
    case ConfluenceGetSpaces => "confluence_get_spaces"
    case ConfluenceGetPageChildren => "confluence_get_page_children"
    case ConfluenceAddAttachment => "confluence_add_attachment"
  }

  /** The `if name == ...` chain: the one tool a name selects, or none. */
  function ToolNamed(name: string): (r: Option<ConfluenceTool>)
    ensures r.Some? ==> ToolName(r.value) == name
    ensures r.None? <==> forall t: ConfluenceTool :: ToolName(t) != name
  {
    if name == "confluence_search_content" then Some(ConfluenceSearchContent)
    else if name == "confluence_get_page" then Some(ConfluenceGetPage)
    else if name == "confluence_create_page" then Some(ConfluenceCreatePage)
    else if name == "confluence_update_page" then Some(ConfluenceUpdatePage)
    else if name == "confluence_delete_page" then Some(ConfluenceDeletePage)
    else if name == "confluence_get_spaces" then Some(ConfluenceGetSpaces)
    else if name == "confluence_get_page_children" then Some(ConfluenceGetPageChildren)
    else if name == "confluence_add_attachment" then Some(ConfluenceAddAttachment)
    else None
  }

  function HandlerReply(t: ConfluenceTool, args: map<string, Value>, service: ConfluenceService,
                        base: string, host: Host): Result<ConfluenceReply>
  {
    match t
    case ConfluenceSearchContent => SearchContentReply(args, service, base)
    case ConfluenceGetPage => GetPageReply(args, service, base)
    case ConfluenceCreatePage => CreatePageReply(args, service, base)
    case ConfluenceUpdatePage => UpdatePageReply(args, service)
    case ConfluenceDeletePage => DeletePageReply(args, service)
    case ConfluenceGetSpaces => GetSpacesReply(args, service)
    case ConfluenceGetPageChildren => GetPageChildrenReply(args, service, base)
    case ConfluenceAddAttachment => AddAttachmentReply(args, service, host)
  }

  function HandlerCalls(t: ConfluenceTool, args: map<string, Value>, service: ConfluenceService,
                        host: Host): seq<ConfluenceCall>
  {
    match t
    case ConfluenceSearchContent => SearchContentCalls(args)
    case ConfluenceGetPage => GetPageCalls(args)
    case ConfluenceCreatePage => CreatePageCalls(args)
    case ConfluenceUpdatePage => UpdatePageCalls(args, service)
    case ConfluenceDeletePage => DeletePageCalls(args)
    case ConfluenceGetSpaces => [GetAllSpaces(ArgOr(args, "limit", Int(25)))]
    case ConfluenceGetPageChildren => GetPageChildrenCalls(args)
    case ConfluenceAddAttachment => AddAttachmentCalls(args, host)
  }

  /** The `except Exception as e` boundary: an exception becomes an `Error: ...` text. */
  function Render(r: Result<ConfluenceReply>): ConfluenceReply
  {
    match r
    case Success(reply) => reply
    case Failure(e) => Text("Error: " + Message(e))
  }

  /** What the `try` block answers for a connected server whose client has url `base`. */
  function TryReply(name: string, args: map<string, Value>, service: ConfluenceService,
                    base: string, host: Host): (reply: ConfluenceReply)
    ensures ToolNamed(name).None? ==> reply == Text("Unknown tool: " + name)
    ensures ToolNamed(name).Some? && HandlerReply(ToolNamed(name).value, args, service, base, host).Failure? ==>
              reply == Text("Error: " + Message(HandlerReply(ToolNamed(name).value, args, service, base, host).error))
    ensures ToolNamed(name).Some? && HandlerReply(ToolNamed(name).value, args, service, base, host).Success? ==>
              reply == HandlerReply(ToolNamed(name).value, args, service, base, host).value
  {
    match ToolNamed(name)
    case None => Text("Unknown tool: " + name)
    case Some(t) => Render(HandlerReply(t, args, service, base, host))
  }

  function TryCalls(name: string, args: map<string, Value>, service: ConfluenceService, host: Host)
    : seq<ConfluenceCall>
  {
    match ToolNamed(name)
    case None => []
    case Some(t) => HandlerCalls(t, args, service, host)
  }

  /** Every tool's own name routes to that tool's handler, for both the answer and the calls made. */
  lemma Routes(t: ConfluenceTool, args: map<string, Value>, service: ConfluenceService, base: string, host: Host)
    ensures ToolNamed(ToolName(t)) == Some(t)
    ensures TryReply(ToolName(t), args, service, base, host) == Render(HandlerReply(t, args, service, base, host))
    ensures TryCalls(ToolName(t), args, service, host) == HandlerCalls(t, args, service, host)
  {
  }

  // ---------------------------------------------------------------------
  // The client and the server object
  // ---------------------------------------------------------------------

  /** The Confluence client library object, reduced to its settings and a record of the calls made. */
  class ConfluenceClient {
    const url: string
    const username: string
    const password: string
    const cloud: bool
    const service: ConfluenceService
    ghost var log: seq<ConfluenceCall>

    constructor (url: string, username: string, password: string, cloud: bool, service: ConfluenceService)
      ensures this.url == url && this.username == username && this.password == password
      ensures this.cloud == cloud && this.service == service && log == []
    {
      this.url, this.username, this.password, this.cloud := url, username, password, cloud;
      this.service := service;
      log := [];
    }

    /** Makes one remote call. */
    method Call(c: ConfluenceCall) returns (r: Result<Value>)
      modifies this
      ensures log == old(log) + [c] && r == service(c)
    {
      r := service(c);
      log := log + [c];
    }
  }

  class ConfluenceMcpServer {
    const env: map<string, string>
    const service: ConfluenceService
    const host: Host
    var client: ConfluenceClient?

    ghost predicate Valid()
      reads this, client
    {
      client != null ==> client.service == service
    }

    constructor (env: map<string, string>, service: ConfluenceService, host: Host)
      ensures this.env == env && this.service == service && this.host == host
      ensures client == null && Valid()
    {
      this.env, this.service, this.host := env, service, host;
      client := null;
    }

    /** `_connect_to_confluence`: reads the configuration, checks the credentials, builds the client. */
    method Connect() returns (r: Result<()>)
      modifies this
      ensures var c := ConfigFromEnv(env);
              if MissingCredentials(c) then
                r == Failure(ValueError(CredentialsMessage)) && client == old(client)
              else
                && r.Success? && client != null && fresh(client)
                && client.url == c.url && client.username == c.username
                && client.password == c.apiToken && client.cloud == c.cloud
                && client.service == service && client.log == []
    {
      var config := ConfigFromEnv(env);
      if MissingCredentials(config) {
        return Failure(ValueError(CredentialsMessage));
      }
      client := new ConfluenceClient(config.url, config.username, config.apiToken, config.cloud, service);
      r := Success(());
    }

    method SearchContent(args: map<string, Value>) returns (r: Result<ConfluenceReply>)
      requires client != null
      modifies client
      ensures r == SearchContentReply(args, client.service, client.url)
      ensures client.log == old(client.log) + SearchContentCalls(args)
    {
      var cql :- Arg(args, "cql");
      var limit := ArgOr(args, "limit", Int(25));
      var results :- client.Call(Cql(cql, limit));
      var listed :- GetOr(results, "results", List([]));
      var items :- Iterate(listed);
      var hits :- FormatHits(client.url, items);
      r := Success(Hits(hits));
    }

    method GetPage(args: map<string, Value>) returns (r: Result<ConfluenceReply>)
      requires client != null
      modifies client
      ensures r == GetPageReply(args, client.service, client.url)
      ensures client.log == old(client.log) + GetPageCalls(args)
    {
      var pageId :- Arg(args, "page_id");
      var expand := ArgOr(args, "expand", Str("body.storage,version"));
      var page :- client.Call(GetPageById(pageId, expand));
      var info :- ProjectPage(client.url, page);
      r := Success(Page(info));
    }

    method CreatePage(args: map<string, Value>) returns (r: Result<ConfluenceReply>)
      requires client != null
      modifies client
      ensures r == CreatePageReply(args, client.service, client.url)
      ensures client.log == old(client.log) + CreatePageCalls(args)
    {
      var space :- Arg(args, "space_key");
      var title :- Arg(args, "title");
      var content :- Arg(args, "content");
      var parentId := ArgOr(args, "parent_id", Null);
      var result :- client.Call(PostPage(space, title, content, parentId));
      r := CreatedText(result, client.url);
    }

    method UpdatePage(args: map<string, Value>) returns (r: Result<ConfluenceReply>)
      requires client != null
      modifies client
      ensures r == UpdatePageReply(args, client.service)
      ensures client.log == old(client.log) + UpdatePageCalls(args, client.service)
    {
      var pageId :- Arg(args, "page_id");
      var content :- Arg(args, "content");
      var title := ArgOr(args, "title", Null);
      var versionComment := ArgOr(args, "version_comment", DefaultVersionComment);
      var currentPage :- client.Call(GetPageById(pageId, Null));
      var sentTitle :- TitleToSend(title, currentPage);
      var result :- client.Call(PutPage(pageId, sentTitle, content, versionComment));
      r := UpdatedText(result);
    }

    method DeletePage(args: map<string, Value>) returns (r: Result<ConfluenceReply>)
      requires client != null
      modifies client
      ensures r == DeletePageReply(args, client.service)
      ensures client.log == old(client.log) + DeletePageCalls(args)
    {
      var pageId :- Arg(args, "page_id");
      var ignored :- client.Call(RemovePage(pageId));
      r := Success(Text("Deleted page with ID: " + Show(pageId)));
    }

    method GetSpaces(args: map<string, Value>) returns (r: Result<ConfluenceReply>)
      requires client != null
      modifies client
      ensures r == GetSpacesReply(args, client.service)
      ensures client.log == old(client.log) + [GetAllSpaces(ArgOr(args, "limit", Int(25)))]
    {
      var limit := ArgOr(args, "limit", Int(25));
      var spaces :- client.Call(GetAllSpaces(limit));
      var listed :- Index(spaces, "results");
      var items :- Iterate(listed);
      var rows :- FormatSpaces(items);
      r := Success(Spaces(rows));
    }

    method GetPageChildren(args: map<string, Value>) returns (r: Result<ConfluenceReply>)
      requires client != null
      modifies client
      ensures r == GetPageChildrenReply(args, client.service, client.url)
      ensures client.log == old(client.log) + GetPageChildrenCalls(args)
    {
      var pageId :- Arg(args, "page_id");
      var limit := ArgOr(args, "limit", Int(25));
      var children :- client.Call(GetPageChildByType(pageId, Str("page"), limit));
      var items :- Iterate(children);
      var rows :- FormatChildren(client.url, items);
      r := Success(Children(rows));
    }

    method AddAttachment(args: map<string, Value>) returns (r: Result<ConfluenceReply>)
      requires client != null
      modifies client
      ensures r == AddAttachmentReply(args, client.service, host)
      ensures client.log == old(client.log) + AddAttachmentCalls(args, host)
    {
      var pageId :- Arg(args, "page_id");
      var filePath :- Arg(args, "file_path");
      var comment := ArgOr(args, "comment", Str(""));
      var present :- host.pathExists(filePath);
      if !present {
        return Success(Text("Error: File not found: " + Show(filePath)));
      }
      var ignored :- client.Call(AttachFile(filePath, pageId, comment));
      var name :- host.basename(filePath);
      r := Success(Text("Attached file: " + name + " to page " + Show(pageId)));
    }

    method Handle(t: ConfluenceTool, args: map<string, Value>) returns (r: Result<ConfluenceReply>)
      requires client != null
      modifies client
      ensures r == HandlerReply(t, args, client.service, client.url, host)
      ensures client.log == old(client.log) + HandlerCalls(t, args, client.service, host)
    {
      match t {
        case ConfluenceSearchContent => r := SearchContent(args);
        case ConfluenceGetPage => r := GetPage(args);
        case ConfluenceCreatePage => r := CreatePage(args);
        case ConfluenceUpdatePage => r := UpdatePage(args);
        case ConfluenceDeletePage => r := DeletePage(args);
        case ConfluenceGetSpaces => r := GetSpaces(args);
        case ConfluenceGetPageChildren => r := GetPageChildren(args);
        case ConfluenceAddAttachment => r := AddAttachment(args);
      }
    }

    /**
     * `call_tool`: connects on first use, outside the `try`, so a missing
     * credential escapes as a ValueError; inside the `try`, an unknown name
     * answers `Unknown tool: ...` and a handler exception answers `Error: ...`.
     */
    method CallTool(name: string, args: map<string, Value>) returns (out: Outcome<ConfluenceReply>)
      requires Valid()
      modifies this, client
      ensures Valid()
      ensures old(client) != null ==> client == old(client)
      ensures out.Raised? <==> old(client) == null && MissingCredentials(ConfigFromEnv(env))
      ensures out.Raised? ==> out.error == ValueError(CredentialsMessage) && client == null
      ensures out.Answered? ==>
                && client != null
                && (old(client) == null ==> fresh(client) && client.url == ConfigFromEnv(env).url)
                && out.reply == TryReply(name, args, service, client.url, host)
                && client.log == (if old(client) == null then [] else old(client.log))
                                 + TryCalls(name, args, service, host)
    {
      if client == null {
        var connected := Connect();
        if connected.Failure? {
          return Raised(connected.error);
        }
      }
      match ToolNamed(name) {
        case None =>
          out := Answered(Text("Unknown tool: " + name));
        case Some(t) =>
          var r := Handle(t, args);
          out := Answered(Render(r));
      }
    }
  }
}
