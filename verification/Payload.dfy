/** Decoded JSON, and the file parts of a Responses or Chat Completions request. */
module Payload {

  /** Numbers keep their text. */
  datatype Json = Null | Bool(truth: bool) | Number(text: string) | Str(value: string)
                | Arr(items: seq<Json>) | Obj(fields: Fields)

  type Fields = map<string, Json>

  datatype Endpoint = Responses | Chat

  /** A lookup in a decoded object: a missing key reads like null. */
  function Field(fields: Fields, key: string): Json {
    if key in fields then fields[key] else Null
  }

  function ListKey(e: Endpoint): string {
    if e.Responses? then "input" else "messages"
  }

  function FileType(e: Endpoint): string {
    if e.Responses? then "input_file" else "file"
  }

  predicate IsFilePart(e: Endpoint, part: Json) {
    part.Obj? && Field(part.fields, "type") == Str(FileType(e))
  }

  /** An item whose content is a list of parts. */
  predicate HasParts(item: Json) {
    item.Obj? && Field(item.fields, "content").Arr?
  }

  function PartsIn(item: Json): seq<Json>
    requires HasParts(item)
  {
    Field(item.fields, "content").items
  }

  /** The items of the request; none if the list is missing or not a list. */
  function Items(e: Endpoint, payload: Fields): seq<Json> {
    var list := Field(payload, ListKey(e));
    if list.Arr? then list.items else []
  }

  predicate MentionsFile(e: Endpoint, item: Json) {
    HasParts(item) && exists part :: part in PartsIn(item) && IsFilePart(e, part)
  }

  predicate AnyMentionsFile(e: Endpoint, items: seq<Json>) {
    exists item :: item in items && MentionsFile(e, item)
  }

  /** The request refers to a file that the gateway must expand. */
  predicate HasFileReference(e: Endpoint, payload: Fields) {
    AnyMentionsFile(e, Items(e, payload))
  }

  /** What a file part is, on its fields. */
  lemma FilePartsByField(part: Json)
    ensures IsFilePart(Responses, part) <==>
      part.Obj? && "type" in part.fields && part.fields["type"] == Str("input_file")
    ensures IsFilePart(Chat, part) <==> part.Obj? && "type" in part.fields && part.fields["type"] == Str("file")
  {}

  /** And where a request has them: in the lists of parts of its input, or of its messages. */
  lemma ItemsByField(payload: Fields)
    ensures Items(Responses, payload) ==
      if "input" in payload && payload["input"].Arr? then payload["input"].items else []
    ensures Items(Chat, payload) ==
      if "messages" in payload && payload["messages"].Arr? then payload["messages"].items else []
  {}

  lemma PartsByField(item: Json)
    ensures HasParts(item) <==> item.Obj? && "content" in item.fields && item.fields["content"].Arr?
    ensures HasParts(item) ==> PartsIn(item) == item.fields["content"].items
  {}

  /** hasFileReference */
  method FindFileReference(e: Endpoint, payload: Fields) returns (found: bool)
    ensures found <==> HasFileReference(e, payload)
  {
    hide FileType, ListKey;
    var items := Items(e, payload);
    var i := 0;
    while i < |items|
      invariant 0 <= i <= |items|
      invariant !AnyMentionsFile(e, items[..i])
    {
      assert items[..i + 1] == items[..i] + [items[i]];
      if HasParts(items[i]) {
        var parts := PartsIn(items[i]);
        var j := 0;
        while j < |parts|
          invariant 0 <= j <= |parts|
          invariant forall k | 0 <= k < j :: !IsFilePart(e, parts[k])
        {
          if IsFilePart(e, parts[j]) {
            assert parts[j] in parts && MentionsFile(e, items[i]) && items[i] in items;
            return true;
          }
          j := j + 1;
        }
      }
      i := i + 1;
    }
    assert items[..i] == items;
    return false;
  }
}
