# A verified model of the Notion API client (`notion.py`)

The `Notion` class is a thin client for the Notion REST API. Each operation
builds one HTTP request against a resource URL (pages, blocks, a block's
children, search), sends it, and passes the decoded JSON answer through one
normaliser, `response_or_error`. That normaliser returns the error record
`{"code": status, "error": message}` when the body carries a `message` field,
and otherwise the value under a result key or the body itself. On top sit
helpers for text blocks (`text_append`, `text_set`, `text_get`) and image
blocks (`image_add`, `image_get_url`).

The model is pure. The network is a parameter: a call is modelled as the
request it sends plus the result key it normalises with, and "running" it
means normalising the `Response` the server gave. Python's exceptions are
values, not preconditions. A subscript on the wrong kind of value, a missing
key or an index past the end yields `Raised(TypeError)`, `Raised(KeyError(k))`
or `Raised(IndexError)`, as Python would raise them.

- `json.dfy`, module `PyJson`: decoded JSON values and Python's semantics for
  `v[k]`, for chained reads, and for the chained assignment
  `v[k1]...[kn][name] = x` that `text_set` performs. The assignment is proved
  to raise exactly what Python raises. It writes `x`, keeps every container on
  the way down the same shape, and leaves every path that parts ways with the
  assigned one unchanged.
- `normalizer.dfy`, module `Normalizer`: the `Response` record, the error
  record, Python's `"message" in body` (a key test on a dict, a membership test
  on a list, a substring test on a string, and a TypeError otherwise), and
  `ResponseOrError`.
- `requests.dfy`, module `NotionRequests`: the request each of the eight
  resource operations sends. Beside it, `Interpret` is an independent reading
  of the endpoint table: it turns a request back into the API operation it
  asks for. Each request builder's contract says how the endpoint table reads
  the URL string it builds: as the operation the builder is named after.
  "Read" in the rows below means this reading. `Interpret` takes a URL as a
  plain string; the HTTP library's rewriting of URLs (splitting at `?` or `#`,
  removing `.` and `..` segments) is outside it (see "## Left out").
- `blocks.dfy`, module `Blocks`: the text block types, the paragraph and image
  blocks, `TextGet`, `ImageGetUrl`, the logic of `text_set` after the fetch
  (`TextSetPlan`), and `text_set` end to end (`TextSet`). `TextSet` takes the
  answers to its two requests as parameters.

`text_set` changes the fetched dict in place (notion.py:155). That dict is
fetched inside the call and is not shared with anything the caller holds. So
"the block with one nested field replaced" (`UpdateAt`) is an exact model of
the mutation.

Where the documented behaviour of the client and the code differ, the model
follows the code:
- `get_block_children` does not always return a list. It returns whatever the
  body holds under `results`, and it raises KeyError when that key is missing
  (`BlockChildrenResult`).
- `text_get` and `image_get_url` return None only for a dict that has a
  `type`. A non-dict raises TypeError and a dict without `type` raises
  KeyError.
- When `text_set`'s own `get_block` fails, the value it fetched is the error
  record. Reading `type` from it raises KeyError (`TextSetOnFailedFetch`). The
  code does not handle this case, and the model states it as it is.

## Model

| member | source | states |
|---|---|---|
| PyJson.UpdateAt | notion.py:155 | The nested assignment raises the fault of the first read that fails, raises TypeError when the container it reaches is not a dict, and succeeds exactly when that container is a dict (what it then writes and keeps: UpdateAtWrites, UpdateAtFrame, UpdateAtKeepsShape) |
| PyJson.UpdateAtWrites | notion.py:155 | After a successful nested assignment, the container at the path is the old one with only `name` set, and reading the path plus `name` gives the assigned value |
| PyJson.UpdateAtFrame | notion.py:155 | Every path that parts ways with the assigned path reads the same before and after the assignment |
| PyJson.UpdateAtKeepsShape | notion.py:155 | Every container above the dict that receives `name` keeps its keys (dict) or its length (list); that dict itself may gain `name` |
| Normalizer.ReadErrorRecord | notion.py:209-212 | Any value it reads as an error record is exactly `{"code": c, "error": e}` for the code and error it returns |
| Normalizer.ReadErrorRecordInverse | notion.py:209-212 | Building the error record and reading it back gives the same code and error |
| Normalizer.MessageIn | notion.py:207 | Python's `"message" in body`: succeeds exactly on a dict, a list or a string and raises TypeError otherwise; on a dict it is the key test; a non-dict that passes it cannot then be subscripted with `"message"` |
| Normalizer.ResponseOrError | notion.py:203-219 | A dict body with `message` gives `{code: status, error: message}` whatever the key. Without `message`, a key gives `body[key]` or KeyError when the key is missing, and no key gives the body unchanged. A non-dict body is returned unchanged exactly when no key is given and the `in` test is false, and raises TypeError otherwise |
| Normalizer.FailureIgnoresKey | notion.py:204-212 | On a body with `message` the result does not depend on the key, and it reads back as an error record with the HTTP status and the message |
| Normalizer.ErrorRecordPassesThrough | notion.py:207-219 | An error record has no `message`, so normalising it again with no key returns it unchanged |
| Normalizer.UnauthorizedExample | notion.py:207-212 | A 401 body `{"object": "error", "message": "Unauthorized"}` normalises to `{"code": 401, "error": "Unauthorized"}` |
| Normalizer.MessageFieldFalsePositive | notion.py:207-212 | A 200 payload that happens to contain `message` is reported as the error record with code 200, even with a result key |
| Normalizer.StringBodyMentioningMessage | notion.py:207-208 | A string body containing "message" passes the `in` test and then raises TypeError at `body["message"]` |
| NotionRequests.SearchPage | notion.py:20-32 | Read as a search whose only parameter is `query`, present exactly when a title is given and equal to it; no result key |
| NotionRequests.GetPage | notion.py:34-37 | Read as retrieving the page with that id, for every id without `?`, `#` or a `.`/`..` segment; no result key |
| NotionRequests.GetPageChildren | notion.py:39-45 | Read as listing the children of that id, with result key `results` |
| NotionRequests.GetBlock | notion.py:47-55 | Read as retrieving the block with that id, except that an id ending in `/children` lists the children of its prefix (ids without `?`, `#` or a `.`/`..` segment); no result key |
| NotionRequests.GetBlockChildren | notion.py:57-67 | Read as listing the children of that id, for every id without `?`, `#` or a `.`/`..` segment, with result key `results` |
| NotionRequests.UpdateBlock | notion.py:69-78 | Read as replacing the block with that id by the given content, for every id not ending in `/children` and without `?`, `#` or a `.`/`..` segment; no result key |
| NotionRequests.AppendChildBlocks | notion.py:80-95 | Read as appending exactly the given children to that parent, for every id without `?`, `#` or a `.`/`..` segment; the body is exactly `{"children": children}`; no result key |
| NotionRequests.DeleteBlock | notion.py:97-105 | Read as deleting the block with that id, for every id not ending in `/children` and without `?`, `#` or a `.`/`..` segment; no result key |
| NotionRequests.ResolveBlock | notion.py:53 | A block URL names the block, and names the children of the prefix exactly when the id ends in `/children` |
| NotionRequests.BlockUrlOverlap | notion.py:53-65 | Block, page and children URLs are injective in the id. A block URL equals a children URL exactly when the id is the other id plus `/children` |
| NotionRequests.PageChildrenAreBlockChildren | notion.py:39-45 | `get_page_children` sends the same request and returns the same result as `get_block_children` for every response |
| NotionRequests.BlockChildrenResult | notion.py:57-67 | `get_block_children` returns the error record on failure, otherwise the value under `results`, and raises KeyError when `results` is missing |
| Blocks.TextGet | notion.py:158-169 | Raises TypeError on a non-dict and KeyError on a dict without `type`. Returns None exactly for a dict whose type is not a text type. For a text block it returns the first run's content, or raises the fault of the first failing read along `block[type]["text"][0]["text"]["content"]` |
| Blocks.ImageGetUrl | notion.py:195-201 | Raises TypeError on a non-dict and KeyError on a dict without `type`. Returns None exactly when the type is not `"image"`. For an image block it returns `image.external.url`, or raises the fault of the first failing read along that path |
| Blocks.ParagraphBlock | notion.py:128-138 | The paragraph block reads back through `text_get` as the text it was built from, and `image_get_url` gives None on it |
| Blocks.ImageBlock | notion.py:181-191 | The image block reads back through `image_get_url` as its URL, and `text_get` gives None on it |
| Blocks.TextAppend | notion.py:139 | Read as appending exactly the one paragraph block to the parent, for every parent id without `?`, `#` or a `.`/`..` segment; no result key |
| Blocks.ImageAdd | notion.py:193 | Read as appending exactly the one image block to the parent, for every parent id without `?`, `#` or a `.`/`..` segment; no result key |
| Blocks.TextAppendRoundTrip | notion.py:120-139 | For every parent id without `?`, `#` or a `.`/`..` segment, `text_append` appends exactly one child to the parent, and that child's text reads back as the given text |
| Blocks.ImageAddRoundTrip | notion.py:171-193 | For every parent id without `?`, `#` or a `.`/`..` segment, `image_add` appends exactly one child to the parent, and that child's URL reads back as the given URL |
| Blocks.TextSetPlan | notion.py:141-156 | The local error `{code: 0, error: "Not a text block"}` comes back exactly for a dict whose type is not a text type. An update is sent exactly for a text block whose first run's text is a dict. The update is `update_block` for the same block id with the modified block as its body |
| Blocks.TextSet | notion.py:141-156 | `text_set` end to end: a fault of the fetch or of the local step is raised as is, a non-text block gives the local error record, and otherwise the result is the normalised answer to the update (with no result key) |
| Blocks.TextSetPlanFaults | notion.py:149-155 | The exceptions `text_set` lets through: TypeError or KeyError('type') when reading the type, then the first failing read along `block[type]["text"][0]["text"]`, or TypeError when that is not a dict |
| Blocks.TextSetWritesText | notion.py:155-156 | The block `text_set` sends has the fetched block's type, and `text_get` on it returns the new text |
| Blocks.TextSetChangesOnlyContent | notion.py:155-156 | The block sent has the same top-level fields as the fetched one, and every path that parts ways with the first run's content reads as in the fetched block |
| Blocks.TextSetRejectsNonText | notion.py:149-153 | For a fetched block whose type is not a text type, `text_set` returns the local error record, and the result does not depend on any update response, so no update is made |
| Blocks.TextSetOnFailedFetch | notion.py:149-150 | When `get_block` answers with `message`, `text_set` raises KeyError('type') |
| Blocks.TextSetThenTextGet | notion.py:149-169 | When the server answers the update with the block it was sent, `text_get` on the result of `text_set` is the new text |

## Left out

- HTTP itself: `requests.request` (notion.py:31, 36, 54, 66, 77, 89, 104), the TLS transport and the network. Each call is a request descriptor, and the server's answer is an input `Response`.
- The constructor and its header set (notion.py:12-18): the API version, the bearer token and the content type are sent unchanged with every request. They affect only the server's answer (a bad token gets a 401 `message` body, which comes back as `{code: 401, …}`), and the model takes that answer as an input `Response`.
- Decoding of the body (`response.json()`, notion.py:205 and 214), including the exception it raises on a body that is not JSON. Both calls are taken to yield the same decoded value.
- JSON floats. Numbers are integers only. Python's `1 == True` plays no part in the `in` tests modelled here.
- The URL encoding of the search parameters (notion.py:31). The model keeps them as a map.
- Negative list indices. The only index the code uses is 0.
- The commented-out `update_database` (notion.py:107-114).
- The live tests in test_notion.py. They depend on a remote workspace, and the `has_children` scenario describes the server's behaviour, not the client's.
- NotionRequests.GetBlock, NotionRequests.UpdateBlock, NotionRequests.DeleteBlock: the block operation is promised only for ids not ending in `/children`, because the code does not escape ids and such an id names a children listing (ResolveBlock, BlockUrlOverlap); GetBlock states that case too.
- NotionRequests.GetPage, NotionRequests.GetPageChildren, NotionRequests.GetBlock, NotionRequests.GetBlockChildren, NotionRequests.UpdateBlock, NotionRequests.AppendChildBlocks, NotionRequests.DeleteBlock, NotionRequests.ResolveBlock, Blocks.TextAppend, Blocks.ImageAdd, Blocks.TextAppendRoundTrip, Blocks.ImageAddRoundTrip: `Resolve` and `Interpret` read URLs as plain strings, while the HTTP library normalises a URL before sending it. The code does not escape ids, so an id the library rewrites names another resource on the wire. An id containing `?` or `#` ends the URL path early: `get_block_children("abc?x")` requests `…/blocks/abc?x/children`, which is sent as block `abc` with query `x/children`. An id with a `.` or `..` segment is collapsed: `update_block("a/../b", c)` patches block `b`, and `get_block_children("..")` requests `…/v1/children`. For such ids the contracts describe the URL string only, not what the server is asked for.
- Blocks.TextGet, Blocks.ImageGetUrl: a first-run content or URL that is JSON null comes back as `Value(Some(JNull))`, while Python returns the same None as for a non-text block; the model keeps the two apart.
- Blocks.TextSetThenTextGet: assumes the server echoes the sent block as its answer. What the real API returns is outside the model.
