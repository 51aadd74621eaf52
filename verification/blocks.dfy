/** The block helpers of the `Notion` client: the closed set of text block
    types, the paragraph and image blocks that `text_append` and `image_add`
    build, the type-checked readers `text_get` and `image_get_url`, and the
    validate-then-modify logic of `text_set`. */
module Blocks {
  import opened PyJson
  import opened Normalizer
  import opened NotionRequests

  /** `Notion.text_block_types`: the block types that carry rich text. */
  const TextBlockTypes: seq<string> := ["paragraph", "heading_1", "heading_2", "heading_3"]

  /** Python's `type in text_block_types`, for whatever value `type` holds. */
  predicate IsTextType(t: Json)
  {
    t.JString? && t.s in TextBlockTypes
  }

  /** Where a text block of type `t` keeps its first rich-text run's text
      object: `block[t]["text"][0]["text"]`. */
  function FirstRunPath(t: string): seq<Key>
  {
    [Field(t), Field("text"), Index(0), Field("text")]
  }

  /** The full path of the first run's content string. */
  function ContentPath(t: string): seq<Key>
  {
    FirstRunPath(t) + [Field("content")]
  }

  /** Where an image block keeps its external URL: `block["image"]["external"]["url"]`. */
  const ImageUrlPath: seq<Key> := [Field("image"), Field("external"), Field("url")]

  /** The local error record `text_set` returns for a block without text. */
  const NotATextBlock: Json := ErrorRecord(0, JString("Not a text block"))

  /** `text_get(block)`: the first run's content for a text block, None for any
      other block type. Reading `block["type"]` raises on a non-dict or a dict
      without a type; a text block without a first run raises at the lookup.
      The fourth ensures follows from the others and is kept as the short form
      callers use: a returned text came from the first run's content. */
  function TextGet(block: Json): (r: Outcome<Option<Json>>)
    ensures !block.JObject? ==> r == Raised(TypeError)
    ensures block.JObject? && "type" !in block.fields ==> r == Raised(KeyError(Field("type")))
    ensures r == Value(None) <==>
      block.JObject? && "type" in block.fields && !IsTextType(block.fields["type"])
    ensures r.Value? && r.value.Some? ==>
      IsTextType(block.fields["type"]) &&
      Lookup(block, ContentPath(block.fields["type"].s)) == Value(r.value.value)
    ensures block.JObject? && "type" in block.fields && IsTextType(block.fields["type"]) ==>
      r == (match Lookup(block, ContentPath(block.fields["type"].s))
            case Raised(f) => Raised(f)
            case Value(content) => Value(Some(content)))
  {
    match Subscript(block, Field("type"))
    case Raised(f) => Raised(f)
    case Value(t) =>
      if !IsTextType(t) then Value(None)
      else match Lookup(block, ContentPath(t.s))
        case Raised(f) => Raised(f)
        case Value(content) => Value(Some(content))
  }

  /** `image_get_url(block)`: the external URL of an image block, None for any
      other block type. The fourth ensures follows from the others and is kept
      as the short form callers use: a returned URL came from `ImageUrlPath`. */
  function ImageGetUrl(block: Json): (r: Outcome<Option<Json>>)
    ensures !block.JObject? ==> r == Raised(TypeError)
    ensures block.JObject? && "type" !in block.fields ==> r == Raised(KeyError(Field("type")))
    ensures r == Value(None) <==>
      block.JObject? && "type" in block.fields && block.fields["type"] != JString("image")
    ensures r.Value? && r.value.Some? ==>
      block.fields["type"] == JString("image") && Lookup(block, ImageUrlPath) == Value(r.value.value)
    ensures block.JObject? && "type" in block.fields && block.fields["type"] == JString("image") ==>
      r == (match Lookup(block, ImageUrlPath)
            case Raised(f) => Raised(f)
            case Value(url) => Value(Some(url)))
  {
    match Subscript(block, Field("type"))
    case Raised(f) => Raised(f)
    case Value(t) =>
      if t != JString("image") then Value(None)
      else match Lookup(block, ImageUrlPath)
        case Raised(f) => Raised(f)
        case Value(url) => Value(Some(url))
  }

  /** The paragraph block `text_append` builds: one rich-text run holding `text`.
      Reading it back gives the text, and it is no image. */
  function ParagraphBlock(text: string): (b: Json)
    ensures TextGet(b) == Value(Some(JString(text)))
    ensures ImageGetUrl(b) == Value(None)
  {
    var content := JObject(map["content" := JString(text)]);
    var run := JObject(map["type" := JString("text"), "text" := content]);
    var paragraph := JObject(map["text" := JArray([run])]);
    var b := JObject(map["type" := JString("paragraph"), "paragraph" := paragraph]);
    assert ContentPath("paragraph") ==
      [Field("paragraph"), Field("text"), Index(0), Field("text"), Field("content")];
    assert Lookup(content, [Field("content")]) == Value(JString(text));
    assert Lookup(run, [Field("text"), Field("content")]) == Value(JString(text));
    assert Lookup(JArray([run]), [Index(0), Field("text"), Field("content")]) == Value(JString(text));
    assert Lookup(paragraph, [Field("text"), Index(0), Field("text"), Field("content")]) == Value(JString(text));
    b
  }

  /** The image block `image_add` builds: an external image at `url`.
      Reading it back gives the URL, and it carries no text. */
  function ImageBlock(url: string): (b: Json)
    ensures ImageGetUrl(b) == Value(Some(JString(url)))
    ensures TextGet(b) == Value(None)
  {
    JObject(map[
      "type" := JString("image"),
      "image" := JObject(map[
        "type" := JString("external"),
        "external" := JObject(map["url" := JString(url)])])])
  }

  /** `text_append(parent_id, text)`: appends the one paragraph block. */
  function TextAppend(parentId: string, text: string): (c: Call)
    ensures Interpret(c.request) == Some(AppendBlockChildren(parentId, [ParagraphBlock(text)]))
    ensures c.key == None
  {
    AppendChildBlocks(parentId, [ParagraphBlock(text)])
  }

  /** `image_add(parent_id, image_url)`: appends the one image block. */
  function ImageAdd(parentId: string, url: string): (c: Call)
    ensures Interpret(c.request) == Some(AppendBlockChildren(parentId, [ImageBlock(url)]))
    ensures c.key == None
  {
    AppendChildBlocks(parentId, [ImageBlock(url)])
  }

  /** The block `text_append` sends is, as the remote API reads the request,
      a single child appended to `parentId` whose text reads back as `text`. */
  lemma TextAppendRoundTrip(parentId: string, text: string)
    ensures var op := Interpret(TextAppend(parentId, text).request);
      && op.Some? && op.value.AppendBlockChildren? && op.value.id == parentId
      && |op.value.children| == 1
      && TextGet(op.value.children[0]) == Value(Some(JString(text)))
  {
  }

  /** The block `image_add` sends is a single child appended to `parentId`
      whose URL reads back as `url`. */
  lemma ImageAddRoundTrip(parentId: string, url: string)
    ensures var op := Interpret(ImageAdd(parentId, url).request);
      && op.Some? && op.value.AppendBlockChildren? && op.value.id == parentId
      && |op.value.children| == 1
      && ImageGetUrl(op.value.children[0]) == Value(Some(JString(url)))
  {
  }

  /** What `text_set` does once it holds the fetched block: answer locally, or
      send an update request. */
  datatype TextSetStep = LocalError(record: Json) | Send(call: Call)

  /** The logic of `text_set` after `get_block`: reject a block whose type is
      not a text type with the local error record and no request; otherwise set
      the first run's content to `newText` in the fetched block and send the
      whole block to `update_block` for the same id. */
  function TextSetPlan(blockId: string, newText: string, block: Json): (r: Outcome<TextSetStep>)
    ensures r == Value(LocalError(NotATextBlock)) <==>
      block.JObject? && "type" in block.fields && !IsTextType(block.fields["type"])
    ensures r.Value? && r.value.LocalError? ==> r.value.record == NotATextBlock
    ensures r.Value? && r.value.Send? <==>
      && block.JObject? && "type" in block.fields && IsTextType(block.fields["type"])
      && Lookup(block, FirstRunPath(block.fields["type"].s)).Value?
      && Lookup(block, FirstRunPath(block.fields["type"].s)).value.JObject?
    ensures r.Value? && r.value.Send? ==>
      && r.value.call.request.verb == PATCH
      && r.value.call.request.url == BlockUrl(blockId)
      && r.value.call.request.body.JsonBody?
      && r.value.call == UpdateBlock(blockId, r.value.call.request.body.json)
  {
    match Subscript(block, Field("type"))
    case Raised(f) => Raised(f)
    case Value(t) =>
      if !IsTextType(t) then Value(LocalError(NotATextBlock))
      else
        match UpdateAt(block, FirstRunPath(t.s), "content", JString(newText))
        case Raised(f) => Raised(f)
        case Value(updated) => Value(Send(UpdateBlock(blockId, updated)))
  }

  /** `text_set(block_id, new_text)` end to end, given what the server answers
      to the `get_block` request (`fetched`) and to the `update_block` request
      (`updated`). */
  function TextSet(blockId: string, newText: string, fetched: Response, updated: Response): (r: Outcome<Json>)
    ensures var got := Perform(GetBlock(blockId), fetched);
      got.Raised? ==> r == Raised(got.fault)
    ensures var got := Perform(GetBlock(blockId), fetched);
      got.Value? ==>
        var plan := TextSetPlan(blockId, newText, got.value);
        && (plan.Raised? ==> r == Raised(plan.fault))
        && (plan.Value? && plan.value.LocalError? ==> r == Value(NotATextBlock))
        && (plan.Value? && plan.value.Send? ==> r == ResponseOrError(updated, None))
  {
    match Perform(GetBlock(blockId), fetched)
    case Raised(f) => Raised(f)
    case Value(block) =>
      match TextSetPlan(blockId, newText, block)
      case Raised(f) => Raised(f)
      case Value(LocalError(record)) => Value(record)
      case Value(Send(c)) => Perform(c, updated)
  }

  /** The exceptions the logic of `text_set` lets through: reading `type` from
      a non-dict or a dict without it, and, for a text block, the first failing
      read of `block[type]["text"][0]["text"]`, or a TypeError when what it
      reaches is not a dict. */
  lemma TextSetPlanFaults(blockId: string, newText: string, block: Json)
    ensures !block.JObject? ==> TextSetPlan(blockId, newText, block) == Raised(TypeError)
    ensures block.JObject? && "type" !in block.fields ==>
      TextSetPlan(blockId, newText, block) == Raised(KeyError(Field("type")))
    ensures block.JObject? && "type" in block.fields && IsTextType(block.fields["type"]) ==>
      var reached := Lookup(block, FirstRunPath(block.fields["type"].s));
      && (reached.Raised? ==> TextSetPlan(blockId, newText, block) == Raised(reached.fault))
      && (reached.Value? && !reached.value.JObject? ==>
            TextSetPlan(blockId, newText, block) == Raised(TypeError))
  {
  }

  /** The block `text_set` sends keeps the fetched block's type and reads back
      `newText` through `text_get`. */
  lemma {:induction false} TextSetWritesText(blockId: string, newText: string, block: Json)
    requires TextSetPlan(blockId, newText, block).Value?
    requires TextSetPlan(blockId, newText, block).value.Send?
    ensures var sent := TextSetPlan(blockId, newText, block).value.call.request.body.json;
      && sent.JObject? && sent.fields["type"] == block.fields["type"]
      && TextGet(sent) == Value(Some(JString(newText)))
  {
    var t := block.fields["type"];
    var p := FirstRunPath(t.s);
    var sent := UpdateAt(block, p, "content", JString(newText)).value;
    UpdateAtWrites(block, p, "content", JString(newText), sent);
    assert Diverge([Field("type")], p + [Field("content")]) by {
      assert (p + [Field("content")])[0] == Field(t.s) != Field("type");
    }
    UpdateAtFrame(block, p, "content", JString(newText), sent, [Field("type")]);
    UpdateAtKeepsShape(block, p, "content", JString(newText), sent, 0);
    assert p[..0] == [];
    assert Subscript(sent, Field("type")) == Subscript(block, Field("type"));
  }

  /** Nothing else changes in the block `text_set` sends: the same top-level
      fields, and every path that parts ways with the first run's content
      reads as in the fetched block (the type, the other fields, the other
      runs, the other fields of the first run). */
  lemma {:induction false} TextSetChangesOnlyContent(blockId: string, newText: string, block: Json, q: seq<Key>)
    requires TextSetPlan(blockId, newText, block).Value?
    requires TextSetPlan(blockId, newText, block).value.Send?
    requires Diverge(q, ContentPath(block.fields["type"].s))
    ensures var sent := TextSetPlan(blockId, newText, block).value.call.request.body.json;
      && sent.JObject? && sent.fields.Keys == block.fields.Keys
      && Lookup(sent, q) == Lookup(block, q)
  {
    var p := FirstRunPath(block.fields["type"].s);
    var sent := UpdateAt(block, p, "content", JString(newText)).value;
    UpdateAtFrame(block, p, "content", JString(newText), sent, q);
    UpdateAtKeepsShape(block, p, "content", JString(newText), sent, 0);
    assert p[..0] == [];
  }

  /** A fetched block without text gets the local error record, and the
      result is the same whatever the update response would have been: no
      update request is made. */
  lemma TextSetRejectsNonText(blockId: string, newText: string, fetched: Response, u1: Response, u2: Response)
    requires fetched.body.JObject? && "message" !in fetched.body.fields
    requires "type" in fetched.body.fields && !IsTextType(fetched.body.fields["type"])
    ensures TextSet(blockId, newText, fetched, u1) == Value(NotATextBlock)
    ensures TextSet(blockId, newText, fetched, u1) == TextSet(blockId, newText, fetched, u2)
  {
  }

  /** When `get_block` itself fails, the fetched value is the error record,
      which has no `type`, so `text_set` raises KeyError('type'). */
  lemma TextSetOnFailedFetch(blockId: string, newText: string, fetched: Response, updated: Response)
    requires fetched.body.JObject? && "message" in fetched.body.fields
    ensures TextSet(blockId, newText, fetched, updated) == Raised(KeyError(Field("type")))
  {
  }

  /** What callers of `text_set` rely on (test_update_block_text): when the
      server answers the update with the block it was sent, `text_get` on the
      result is the new text. */
  lemma {:induction false} TextSetThenTextGet(blockId: string, newText: string, fetched: Response, updated: Response)
    requires Perform(GetBlock(blockId), fetched).Value?
    requires var plan := TextSetPlan(blockId, newText, Perform(GetBlock(blockId), fetched).value);
      plan.Value? && plan.value.Send? && updated.body == plan.value.call.request.body.json
    ensures TextSet(blockId, newText, fetched, updated).Value?
    ensures TextGet(TextSet(blockId, newText, fetched, updated).value) == Value(Some(JString(newText)))
  {
    var block := Perform(GetBlock(blockId), fetched).value;
    TextSetWritesText(blockId, newText, block);
    TextSetChangesOnlyContent(blockId, newText, block, [Field("message")]);
  }
}
