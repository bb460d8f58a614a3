/** One decoded line of stream-json (`parse_event`, crates/wt-core/src/harness.rs). */
module StreamJson {
  import opened Basics
  import opened HarnessProcess

  datatype Json =
    | JNull
    | JBool(b: bool)
    | JNumber
    | JString(s: string)
    | JArray(items: seq<Json>)
    | JObject(fields: map<string, Json>)

  /** `v.get(key)`: only objects have fields. */
  function Get(v: Json, key: string): Option<Json> {
    if v.JObject? && key in v.fields then Some(v.fields[key]) else None
  }

  function GetString(v: Json, key: string): Option<string> {
    match Get(v, key)
    case Some(JString(s)) => Some(s)
    case _ => None
  }

  /** The text of one content block, empty for blocks of another type. */
  function BlockText(block: Json): string {
    if GetString(block, "type") == Some("text") then
      var t := GetString(block, "text");
      if t.Some? then t.value else ""
    else ""
  }

  /** The text blocks of `blocks`, joined in order. */
  function JoinText(blocks: seq<Json>): string {
    if blocks == [] then "" else JoinText(blocks[..|blocks| - 1]) + BlockText(blocks[|blocks| - 1])
  }

  function ContentBlocks(v: Json): Option<seq<Json>> {
    match Get(v, "message")
    case None => None
    case Some(m) =>
      match Get(m, "content")
      case Some(JArray(items)) => Some(items)
      case _ => None
  }

  /** What one decoded line means to the supervisor, if anything. */
  function JsonEvent(v: Json): (r: Option<Event>)
    ensures r.Some? && r.value.AssistantText? ==> r.value.text != ""
  {
    match GetString(v, "type")
    case Some("assistant") =>
      var blocks := ContentBlocks(v);
      var text := if blocks.Some? then JoinText(blocks.value) else "";
      if text == "" then None else Some(AssistantText(text))
    case Some("result") =>
      var r := GetString(v, "result");
      var e := Get(v, "is_error");
      Some(TurnComplete(if r.Some? then r.value else "", e.Some? && e.value.JBool? && e.value.b))
    case _ => None
  }

  /** The line parser the harness uses, for a given JSON decoder: lines that are not JSON are skipped. */
  function Parser(json: string -> Option<Json>): string -> Option<Event> {
    line => if json(line).None? then None else JsonEvent(json(line).value)
  }

  /** The line decoder the harness runs with. */
  function JsonDecoder(text: Bytes -> string, json: string -> Option<Json>): Decoder {
    Decoder(text, Parser(json))
  }

  predicate HasType(v: Json, kind: string) {
    GetString(v, "type") == Some(kind)
  }

  /** All assistant text of a line, empty for a line that has none. */
  function AssistantTextOf(v: Json): string {
    if HasType(v, "assistant") && ContentBlocks(v).Some? then JoinText(ContentBlocks(v).value) else ""
  }

  /** The result text of a result line, empty if it has none. */
  function ResultOf(v: Json): string {
    match GetString(v, "result")
    case Some(s) => s
    case None => ""
  }

  /** `v` is an object whose field `key` is `x`. */
  predicate Field(v: Json, key: string, x: Json) {
    v.JObject? && key in v.fields && v.fields[key] == x
  }

  /** `v` is an assistant message with these content blocks. */
  predicate Says(v: Json, blocks: seq<Json>) {
    v.JObject? && "message" in v.fields && Field(v.fields["message"], "content", JArray(blocks))
  }

  /** Blocks are joined in order, each text block by its text, any other by nothing. */
  lemma {:induction false} JoinsTextBlocks(a: seq<Json>, b: seq<Json>, block: Json, text: string)
    ensures JoinText(a + b) == JoinText(a) + JoinText(b)
    ensures Field(block, "type", JString("text")) && Field(block, "text", JString(text)) ==> JoinText([block]) == text
    ensures !Field(block, "type", JString("text")) ==> JoinText([block]) == ""
    ensures block.JObject? && ("text" in block.fields ==> !block.fields["text"].JString?) ==> JoinText([block]) == ""
    decreases |b|
  {
    assert [block][..0] == [] && JoinText([block]) == "" + BlockText(block);
    if b == [] {
      assert a + b == a && JoinText(a) + "" == JoinText(a);
    } else {
      var m := |b| - 1;
      assert (a + b)[..|a + b| - 1] == a + b[..m];
      JoinsTextBlocks(a, b[..m], block, text);
      ConcatAssoc(JoinText(a), JoinText(b[..m]), BlockText(b[m]));
    }
  }

  method ExtractAssistantText(v: Json) returns (r: Option<string>)
    ensures r.None? <==> ContentBlocks(v).None?
    ensures r.Some? ==> r.value == JoinText(ContentBlocks(v).value)
    ensures forall blocks :: Says(v, blocks) ==> r == Some(JoinText(blocks))
    ensures r.Some? ==> exists blocks :: Says(v, blocks)
  {
    var blocks := ContentBlocks(v);
    if blocks.None? {
      return None;
    }
    var arr, s := blocks.value, "";
    for i := 0 to |arr|
      invariant s == JoinText(arr[..i])
    {
      assert arr[..i + 1][..i] == arr[..i];
      if GetString(arr[i], "type") == Some("text") {
        var t := GetString(arr[i], "text");
        if t.Some? {
          s := s + t.value;
        }
      }
    }
    assert arr[..|arr|] == arr;
    assert Says(v, arr);
    return Some(s);
  }

  method ParseEvent(json: string -> Option<Json>, line: string) returns (r: Option<Event>)
    ensures r == Parser(json)(line)
    ensures r.Some? && r.value.TurnComplete? <==> json(line).Some? && Field(json(line).value, "type", JString("result"))
    ensures r.Some? && r.value.TurnComplete? ==>
              && (forall s :: Field(json(line).value, "result", JString(s)) ==> r.value.result == s)
              && (r.value.result == "" || Field(json(line).value, "result", JString(r.value.result)))
              && (r.value.isError <==> Field(json(line).value, "is_error", JBool(true)))
    ensures forall blocks :: (json(line).Some? && Field(json(line).value, "type", JString("assistant")) && Says(json(line).value, blocks)
                              && JoinText(blocks) != "") ==> r == Some(AssistantText(JoinText(blocks)))
    ensures r.Some? && r.value.AssistantText? ==>
              Field(json(line).value, "type", JString("assistant")) && r.value.text != ""
              && exists blocks :: Says(json(line).value, blocks) && r.value.text == JoinText(blocks)
    ensures r.Some? && r.value.AssistantText? <==> json(line).Some? && AssistantTextOf(json(line).value) != ""
    ensures r.Some? && r.value.AssistantText? ==> r.value.text == AssistantTextOf(json(line).value)
  {
    var v := json(line);
    if v.None? {
      return None;
    }
    var kind := GetString(v.value, "type");
    if kind == Some("assistant") {
      var text := ExtractAssistantText(v.value);
      if text.None? || text.value == "" {
        return None;
      }
      return Some(AssistantText(text.value));
    } else if kind == Some("result") {
      var result, flag := GetString(v.value, "result"), Get(v.value, "is_error");
      return Some(TurnComplete(if result.Some? then result.value else "", flag.Some? && flag.value.JBool? && flag.value.b));
    }
    return None;
  }
}
