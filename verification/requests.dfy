/** The eight resource operations of the `Notion` client, each described by
    the one HTTP request it sends and the result key it hands to the
    normaliser. The network is not modelled: running a call means normalising
    whatever response the server gave. */
module NotionRequests {
  import opened PyJson
  import opened Normalizer

  datatype HttpMethod = GET | POST | PATCH | DELETE

  /** A request body: none, a JSON document, or URL-encoded parameters. */
  datatype Body = NoBody | JsonBody(json: Json) | Params(params: map<string, string>)

  datatype Request = Request(verb: HttpMethod, url: string, body: Body)

  /** One client call: the request it sends and the key it normalises with. */
  datatype Call = Call(request: Request, key: Option<string>)

  const BaseUrl: string := "https://api.notion.com/v1"

  function PageUrl(id: string): string { BaseUrl + "/pages/" + id }

  function BlockUrl(id: string): string { BaseUrl + "/blocks/" + id }

  function BlockChildrenUrl(id: string): string { BaseUrl + "/blocks/" + id + "/children" }

  /** `search_page(page_title)`: POST to /search, read by the remote API as a
      search with a `query` parameter exactly when a title is given. */
  function SearchPage(title: Option<string>): (c: Call)
    ensures Interpret(c.request) == Some(Search(title)) && c.key == None
  {
    var params := if title.Some? then map["query" := title.value] else map[];
    assert (BaseUrl + "/search")[|BaseUrl|..] == "/search";
    Call(Request(POST, BaseUrl + "/search", Params(params)), None)
  }

  /** `get_page(page_id)`: retrieves the page with that id. */
  function GetPage(id: string): (c: Call)
    ensures Interpret(c.request) == Some(RetrievePage(id)) && c.key == None
  {
    ResolvePage(id);
    Call(Request(GET, PageUrl(id), NoBody), None)
  }

  /** `get_block(block_id)`: retrieves the block with that id (an id ending in
      `/children` names a children listing instead, see `ResolveBlock`). */
  function GetBlock(id: string): (c: Call)
    ensures !NamesChildren(id) ==> Interpret(c.request) == Some(RetrieveBlock(id))
    ensures NamesChildren(id) ==> Interpret(c.request) == Some(RetrieveBlockChildren(id[..|id| - 9]))
    ensures c.key == None
  {
    ResolveBlock(id);
    Call(Request(GET, BlockUrl(id), NoBody), None)
  }

  /** `get_block_children(block_id)`: lists the block's children; the only
      call that normalises with a result key, `results`, so the caller gets
      the list, not the envelope. */
  function GetBlockChildren(id: string): (c: Call)
    ensures Interpret(c.request) == Some(RetrieveBlockChildren(id)) && c.key == Some("results")
  {
    ResolveChildren(id);
    Call(Request(GET, BlockChildrenUrl(id), NoBody), Some("results"))
  }

  /** `get_page_children(page_id)`: a page's children are read as a block's. */
  function GetPageChildren(id: string): (c: Call)
    ensures Interpret(c.request) == Some(RetrieveBlockChildren(id)) && c.key == Some("results")
  {
    GetBlockChildren(id)
  }

  /** `update_block(block_id, content)`: PATCH with the whole new block as the body. */
  function UpdateBlock(id: string, content: Json): (c: Call)
    ensures !NamesChildren(id) ==> Interpret(c.request) == Some(ModifyBlock(id, content))
    ensures c.key == None
  {
    ResolveBlock(id);
    Call(Request(PATCH, BlockUrl(id), JsonBody(content)), None)
  }

  /** `append_child_blocks(parent_id, children)`: the list is wrapped under
      `children` and appended to the parent, whatever its id. */
  function AppendChildBlocks(parentId: string, children: seq<Json>): (c: Call)
    ensures Interpret(c.request) == Some(AppendBlockChildren(parentId, children)) && c.key == None
  {
    ResolveChildren(parentId);
    Call(Request(PATCH, BlockChildrenUrl(parentId), JsonBody(JObject(map["children" := JArray(children)]))), None)
  }

  /** `delete_block(block_id)`: deletes the block with that id. */
  function DeleteBlock(id: string): (c: Call)
    ensures !NamesChildren(id) ==> Interpret(c.request) == Some(RemoveBlock(id))
    ensures c.key == None
  {
    ResolveBlock(id);
    Call(Request(DELETE, BlockUrl(id), NoBody), None)
  }

  /** What the client returns for a call once the server has answered `resp`. */
  function Perform(c: Call, resp: Response): Outcome<Json>
  {
    ResponseOrError(resp, c.key)
  }

  // ---------------------------------------------------------------------
  // How the remote API reads a request: an independent description of the
  // endpoint table, used to show that each call asks for what it should.

  datatype Resource = SearchResource | PageResource(id: string) | BlockResource(id: string)
                    | ChildrenResource(id: string)

  datatype ApiOperation =
    | Search(query: Option<string>)
    | RetrievePage(id: string)
    | RetrieveBlock(id: string)
    | RetrieveBlockChildren(id: string)
    | ModifyBlock(id: string, content: Json)
    | AppendBlockChildren(id: string, children: seq<Json>)
    | RemoveBlock(id: string)

  /** Splits a URL under the base URL into the resource it names. A path that
      ends in `/children` names a block's children. */
  function Resolve(url: string): Option<Resource>
  {
    if !(BaseUrl <= url) then None
    else
      var path := url[|BaseUrl|..];
      if path == "/search" then Some(SearchResource)
      else if "/pages/" <= path then Some(PageResource(path[7..]))
      else if "/blocks/" <= path then
        var rest := path[8..];
        if |rest| >= 9 && rest[|rest| - 9..] == "/children"
        then Some(ChildrenResource(rest[..|rest| - 9]))
        else Some(BlockResource(rest))
      else None
  }

  /** The operation the remote API performs for a request, if any. A search
      takes no parameter but `query`, and an append takes a body holding
      nothing but the `children` list. */
  function Interpret(r: Request): Option<ApiOperation>
  {
    match (r.verb, Resolve(r.url), r.body)
    case (POST, Some(SearchResource), Params(p)) =>
      if p.Keys <= {"query"}
      then Some(Search(if "query" in p then Some(p["query"]) else None))
      else None
    case (GET, Some(PageResource(id)), NoBody) => Some(RetrievePage(id))
    case (GET, Some(BlockResource(id)), NoBody) => Some(RetrieveBlock(id))
    case (GET, Some(ChildrenResource(id)), NoBody) => Some(RetrieveBlockChildren(id))
    case (PATCH, Some(BlockResource(id)), JsonBody(content)) => Some(ModifyBlock(id, content))
    case (PATCH, Some(ChildrenResource(id)), JsonBody(JObject(m))) =>
      if m.Keys == {"children"} && m["children"].JArray?
      then Some(AppendBlockChildren(id, m["children"].items))
      else None
    case (DELETE, Some(BlockResource(id)), NoBody) => Some(RemoveBlock(id))
    case _ => None
  }

  /** An id that ends in `/children`: its block URL is a children URL. */
  predicate NamesChildren(id: string)
  {
    |id| >= 9 && id[|id| - 9..] == "/children"
  }

  lemma ResolvePage(id: string)
    ensures Resolve(PageUrl(id)) == Some(PageResource(id))
  {
    var path := PageUrl(id)[|BaseUrl|..];
    assert path == "/pages/" + id;
    assert path[1] == 'p';
  }

  /** A block URL names the block, unless the id itself ends in `/children`. */
  lemma {:induction false} ResolveBlock(id: string)
    ensures !NamesChildren(id) ==> Resolve(BlockUrl(id)) == Some(BlockResource(id))
    ensures NamesChildren(id) ==> Resolve(BlockUrl(id)) == Some(ChildrenResource(id[..|id| - 9]))
  {
    var path := BlockUrl(id)[|BaseUrl|..];
    assert path == "/blocks/" + id;
    assert path[1] == 'b';
    assert path[8..] == id;
  }

  lemma {:induction false} ResolveChildren(id: string)
    ensures Resolve(BlockChildrenUrl(id)) == Some(ChildrenResource(id))
  {
    var path := BlockChildrenUrl(id)[|BaseUrl|..];
    assert path == "/blocks/" + id + "/children";
    assert path[1] == 'b';
    var rest := path[8..];
    assert rest == id + "/children";
    assert rest[|rest| - 9..] == "/children";
    assert rest[..|rest| - 9] == id;
  }

  /** The URL templates do not escape identifiers: the block URL of
      `b + "/children"` is the children URL of `b`, and that is the only overlap. */
  lemma {:induction false} BlockUrlOverlap(a: string, b: string)
    ensures BlockUrl(a) == BlockChildrenUrl(b) <==> a == b + "/children"
    ensures BlockUrl(a) == BlockUrl(b) <==> a == b
    ensures PageUrl(a) == PageUrl(b) <==> a == b
    ensures BlockChildrenUrl(a) == BlockChildrenUrl(b) <==> a == b
  {
    var pre := BaseUrl + "/blocks/";
    assert BlockUrl(a) == pre + a && BlockChildrenUrl(b) == pre + (b + "/children");
    assert (pre + a)[|pre|..] == a && (pre + (b + "/children"))[|pre|..] == b + "/children";
    assert (pre + b)[|pre|..] == b;
    assert PageUrl(a)[|BaseUrl| + 7..] == a && PageUrl(b)[|BaseUrl| + 7..] == b;
    if BlockChildrenUrl(a) == BlockChildrenUrl(b) {
      assert (a + "/children")[..|a|] == a && (b + "/children")[..|b|] == b;
    }
  }

  /** `get_page_children` sends the same request and returns the same result
      as `get_block_children`, whatever the server answers. */
  lemma PageChildrenAreBlockChildren(id: string, resp: Response)
    ensures GetPageChildren(id) == GetBlockChildren(id)
    ensures Perform(GetPageChildren(id), resp) == Perform(GetBlockChildren(id), resp)
  {
  }

  /** On success `get_block_children` returns the list under `results`, never
      the envelope around it; on failure it returns the error record. */
  lemma BlockChildrenResult(id: string, resp: Response)
    requires resp.body.JObject?
    ensures "message" in resp.body.fields ==>
      Perform(GetBlockChildren(id), resp) == Value(ErrorRecord(resp.status, resp.body.fields["message"]))
    ensures "message" !in resp.body.fields && "results" in resp.body.fields ==>
      Perform(GetBlockChildren(id), resp) == Value(resp.body.fields["results"])
    ensures "message" !in resp.body.fields && "results" !in resp.body.fields ==>
      Perform(GetBlockChildren(id), resp) == Raised(KeyError(Field("results")))
  {
  }
}
