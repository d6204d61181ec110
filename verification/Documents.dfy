/** The parts a resolved document becomes: extracted text and page images. */
module Documents {
  import opened Rows
  import opened Payload
  import opened Decimals

  /** One entry of a manifest. */
  datatype Artifact = Artifact(partNumber: nat, pageNumber: Option<nat>, textPath: string, imagePath: Option<string>,
                               mediaType: Option<string>)

  /** `manifest` holds the part lists of the manifest's documents, `files` what can be read
      of the derived directory. */
  datatype Document = Document(filename: string, manifest: seq<seq<Artifact>>, files: map<string, string>)

  /** `maxPages` of zero or less means no limit; `encode` is the base64 encoding. */
  datatype Settings = Settings(maxPages: int, encode: string -> string)

  function Label(d: Document, a: Artifact, text: string): string {
    var location := if a.pageNumber.Some? then "page=\"" + Decimal(a.pageNumber.value) + "\""
                    else "part=\"" + Decimal(a.partNumber) + "\"";
    "<document filename=\"" + d.filename + "\" " + location + ">\n" + text + "\n</document>"
  }

  function TextPart(e: Endpoint, d: Document, a: Artifact, text: string): Json {
    Obj(map["type" := Str(if e.Chat? then "text" else "input_text"), "text" := Str(Label(d, a, text))])
  }

  function ImagePart(e: Endpoint, s: Settings, a: Artifact, image: string): Json {
    var mediaType := if a.mediaType.Some? then a.mediaType.value else "image/png";
    var url := "data:" + mediaType + ";base64," + s.encode(image);
    if e.Responses? then
      Obj(map["type" := Str("input_image"), "detail" := Str("auto"), "image_url" := Str(url)])
    else
      Obj(map["type" := Str("image_url"), "image_url" := Obj(map["url" := Str(url)])])
  }

  // ---------- what is wanted ----------

  /** The text of an artifact, when it names one and it is not empty. */
  function TextOf(e: Endpoint, d: Document, a: Artifact): seq<Json> {
    if a.textPath != "" && a.textPath in d.files && d.files[a.textPath] != "" then
      [TextPart(e, d, a, d.files[a.textPath])]
    else []
  }

  function ImageOf(e: Endpoint, s: Settings, d: Document, a: Artifact): seq<Json> {
    if a.imagePath.Some? && a.imagePath.value in d.files then [ImagePart(e, s, a, d.files[a.imagePath.value])] else []
  }

  function Texts(e: Endpoint, d: Document, artifacts: seq<Artifact>): seq<Json> {
    if artifacts == [] then []
    else Texts(e, d, artifacts[..|artifacts| - 1]) + TextOf(e, d, artifacts[|artifacts| - 1])
  }

  function Images(e: Endpoint, s: Settings, d: Document, artifacts: seq<Artifact>): seq<Json> {
    if artifacts == [] then []
    else Images(e, s, d, artifacts[..|artifacts| - 1]) + ImageOf(e, s, d, artifacts[|artifacts| - 1])
  }

  predicate IsText(e: Endpoint, part: Json) {
    part.Obj? && Field(part.fields, "type") == Str(if e.Chat? then "text" else "input_text")
  }

  predicate IsImage(e: Endpoint, part: Json) {
    part.Obj? && Field(part.fields, "type") == Str(if e.Chat? then "image_url" else "input_image")
  }

  function TextFilter(e: Endpoint): Json -> bool {
    part => IsText(e, part)
  }

  function ImageFilter(e: Endpoint): Json -> bool {
    part => IsImage(e, part)
  }

  function Select(which: Json -> bool, parts: seq<Json>): seq<Json> {
    if parts == [] then []
    else Select(which, parts[..|parts| - 1]) + (if which(parts[|parts| - 1]) then [parts[|parts| - 1]] else [])
  }

  function Capped(s: Settings, images: seq<Json>): seq<Json> {
    if 0 < s.maxPages < |images| then images[..s.maxPages] else images
  }

  // ---------- what the code builds ----------

  predicate Full(s: Settings, images: nat) {
    0 < s.maxPages <= images
  }

  /** What artifact `a` adds after `images` images. */
  function Block(e: Endpoint, s: Settings, d: Document, a: Artifact, images: nat): seq<Json> {
    TextOf(e, d, a) + if Full(s, images) then [] else ImageOf(e, s, d, a)
  }

  /** Every file the loop opens can be read; after `images` images only texts are opened. */
  predicate Readable(s: Settings, d: Document, a: Artifact, images: nat) {
    && (a.textPath != "" ==> a.textPath in d.files)
    && (a.imagePath.Some? && !Full(s, images) ==> a.imagePath.value in d.files)
  }

  datatype Progress = Stopped | Parts(parts: seq<Json>, images: nat)

  function Extend(e: Endpoint, s: Settings, d: Document, a: Artifact, so: Progress): Progress {
    if so.Stopped? || !Readable(s, d, a, so.images) then Stopped
    else Parts(so.parts + Block(e, s, d, a, so.images),
               if a.imagePath.Some? && !Full(s, so.images) then so.images + 1 else so.images)
  }

  /** The parts so far and how many of them are images, unless a file is missing. */
  function Built(e: Endpoint, s: Settings, d: Document, artifacts: seq<Artifact>): Progress {
    if artifacts == [] then Parts([], 0)
    else Extend(e, s, d, artifacts[|artifacts| - 1], Built(e, s, d, artifacts[..|artifacts| - 1]))
  }

  /** documentParts */
  function PartsOf(e: Endpoint, s: Settings, d: Document): Option<seq<Json>> {
    if d.manifest == [] then None
    else
      var built := Built(e, s, d, d.manifest[0]);
      if built.Stopped? then None else Some(built.parts)
  }

  lemma {:induction false} BuiltFails(e: Endpoint, s: Settings, d: Document, artifacts: seq<Artifact>, k: nat)
    requires k <= |artifacts| && Built(e, s, d, artifacts[..k]).Stopped?
    ensures Built(e, s, d, artifacts).Stopped?
    decreases |artifacts| - k
  {
    if k < |artifacts| {
      assert artifacts[..k + 1][..k] == artifacts[..k];
      BuiltFails(e, s, d, artifacts, k + 1);
    } else {
      assert artifacts[..k] == artifacts;
    }
  }

  lemma {:induction false} BuiltStep(e: Endpoint, s: Settings, d: Document, artifacts: seq<Artifact>, i: nat)
    requires i < |artifacts|
    ensures Built(e, s, d, artifacts[..i + 1]) == Extend(e, s, d, artifacts[i], Built(e, s, d, artifacts[..i]))
  {
    assert artifacts[..i + 1][..i] == artifacts[..i] && artifacts[..i + 1][i] == artifacts[i];
    hide Extend;
  }

  /** One turn of the loop of documentParts. */
  method AppendArtifact(e: Endpoint, s: Settings, d: Document, a: Artifact, parts: seq<Json>, images: nat)
    returns (so: Progress)
    ensures so == Extend(e, s, d, a, Parts(parts, images))
  {
    hide TextPart, ImagePart;
    var more: seq<Json> := [];
    if a.textPath != "" {
      if a.textPath !in d.files {
        return Stopped;
      }
      var text := d.files[a.textPath];
      if |text| > 0 {
        more := more + [TextPart(e, d, a, text)];
      }
    }
    assert more == TextOf(e, d, a);
    if a.imagePath.None? || (s.maxPages > 0 && images >= s.maxPages) {
      return Parts(parts + more, images);
    }
    if a.imagePath.value !in d.files {
      return Stopped;
    }
    more := more + [ImagePart(e, s, a, d.files[a.imagePath.value])];
    return Parts(parts + more, images + 1);
  }

  method DocumentParts(e: Endpoint, s: Settings, d: Document) returns (result: Option<seq<Json>>)
    ensures result == PartsOf(e, s, d)
  {
    if |d.manifest| == 0 {
      return None;
    }
    var parts: seq<Json> := [];
    var artifacts := d.manifest[0];
    var images := 0;
    assert Built(e, s, d, artifacts[..0]) == Parts(parts, images);
    hide Built, Extend;
    var i := 0;
    while i < |artifacts|
      invariant 0 <= i <= |artifacts|
      invariant Built(e, s, d, artifacts[..i]) == Parts(parts, images)
    {
      BuiltStep(e, s, d, artifacts, i);
      var so := AppendArtifact(e, s, d, artifacts[i], parts, images);
      if so.Stopped? {
        BuiltFails(e, s, d, artifacts, i + 1);
        return None;
      }
      parts, images := so.parts, so.images;
      i := i + 1;
    }
    assert artifacts[..i] == artifacts;
    return Some(parts);
  }

  // ---------- the two agree ----------

  lemma {:induction false} SelectSum(which: Json -> bool, xs: seq<Json>, ys: seq<Json>)
    ensures Select(which, xs + ys) == Select(which, xs) + Select(which, ys)
    decreases |ys|
  {
    if ys == [] {
      assert xs + ys == xs;
    } else {
      var last := ys[|ys| - 1];
      assert (xs + ys)[..|xs + ys| - 1] == xs + ys[..|ys| - 1];
      SelectSum(which, xs, ys[..|ys| - 1]);
    }
  }

  lemma {:induction false} SelectOne(which: Json -> bool, x: Json)
    ensures Select(which, [x]) == if which(x) then [x] else []
  {
    assert [x][..0] == [];
  }

  lemma {:induction false} KindsDiffer(e: Endpoint, s: Settings, d: Document, a: Artifact, text: string)
    ensures var t := TextPart(e, d, a, text); IsText(e, t) && !IsImage(e, t) && !IsFilePart(e, t)
    ensures var m := ImagePart(e, s, a, text); IsImage(e, m) && !IsText(e, m) && !IsFilePart(e, m)
  {
    hide Label;
  }

  lemma {:induction false} SelectFromBlock(e: Endpoint, s: Settings, d: Document, a: Artifact, images: nat)
    ensures Select(TextFilter(e), Block(e, s, d, a, images)) == TextOf(e, d, a)
    ensures Select(ImageFilter(e), Block(e, s, d, a, images)) == if Full(s, images) then [] else ImageOf(e, s, d, a)
  {
    var text, image := TextOf(e, d, a), if Full(s, images) then [] else ImageOf(e, s, d, a);
    if text != [] {
      KindsDiffer(e, s, d, a, d.files[a.textPath]);
      SelectOne(TextFilter(e), text[0]);
      SelectOne(ImageFilter(e), text[0]);
    }
    if image != [] {
      KindsDiffer(e, s, d, a, d.files[a.imagePath.value]);
      SelectOne(TextFilter(e), image[0]);
      SelectOne(ImageFilter(e), image[0]);
    }
    hide TextOf, ImageOf, IsText, IsImage;
    SelectSum(TextFilter(e), text, image);
    SelectSum(ImageFilter(e), text, image);
  }

  lemma {:induction false} CapGrows(s: Settings, images: seq<Json>, more: seq<Json>)
    requires |more| <= 1
    ensures Capped(s, images + more) == Capped(s, images) + if Full(s, |Capped(s, images)|) then [] else more
  {}

  /** Of the parts that are built, the texts are all the texts of the manifest, and the
      images are its first `maxPages` images; both in order. */
  ghost predicate FromManifest(e: Endpoint, s: Settings, d: Document, artifacts: seq<Artifact>, built: Progress) {
    built.Parts? ==>
      && Select(TextFilter(e), built.parts) == Texts(e, d, artifacts)
      && Select(ImageFilter(e), built.parts) == Capped(s, Images(e, s, d, artifacts))
      && built.images == |Capped(s, Images(e, s, d, artifacts))|
  }

  lemma {:induction false} OneMoreArtifact(e: Endpoint, s: Settings, d: Document, artifacts: seq<Artifact>, so: Progress)
    requires artifacts != [] && FromManifest(e, s, d, artifacts[..|artifacts| - 1], so)
    ensures FromManifest(e, s, d, artifacts, Extend(e, s, d, artifacts[|artifacts| - 1], so))
  {
    hide Select, TextFilter, ImageFilter, Block, Capped, TextOf, ImagePart;
    var a, rest := artifacts[|artifacts| - 1], artifacts[..|artifacts| - 1];
    if so.Parts? {
      SelectFromBlock(e, s, d, a, so.images);
      SelectSum(TextFilter(e), so.parts, Block(e, s, d, a, so.images));
      SelectSum(ImageFilter(e), so.parts, Block(e, s, d, a, so.images));
      CapGrows(s, Images(e, s, d, rest), ImageOf(e, s, d, a));
    }
  }

  lemma {:induction false} BuiltFromManifest(e: Endpoint, s: Settings, d: Document, artifacts: seq<Artifact>)
    ensures FromManifest(e, s, d, artifacts, Built(e, s, d, artifacts))
    decreases |artifacts|
  {
    if artifacts != [] {
      BuiltFromManifest(e, s, d, artifacts[..|artifacts| - 1]);
      OneMoreArtifact(e, s, d, artifacts, Built(e, s, d, artifacts[..|artifacts| - 1]));
    }
  }

  /** Nothing in the order of the parts but the manifest: each artifact's text stands right
      before its image, if there is room for the image. */
  ghost predicate InManifestOrder(e: Endpoint, s: Settings, d: Document, artifacts: seq<Artifact>, parts: seq<Json>,
                                  blocks: seq<seq<Json>>) {
    && |blocks| == |artifacts| && parts == Flatten(blocks)
    && forall i | 0 <= i < |artifacts| ::
         blocks[i] == TextOf(e, d, artifacts[i]) || blocks[i] == TextOf(e, d, artifacts[i]) + ImageOf(e, s, d, artifacts[i])
  }

  // ---------- what the parts carry ----------

  /** `piece` stands in `s` as it is. */
  ghost predicate Contains(s: string, piece: string) {
    exists before, after :: s == before + piece + after
  }

  predicate HasText(d: Document, a: Artifact) {
    a.textPath != "" && a.textPath in d.files && d.files[a.textPath] != ""
  }

  /** The text stands between the tags, and the opening tag names the file and the page, or
      the part when the artifact has no page. */
  ghost predicate IsTagged(d: Document, a: Artifact, value: string, text: string, head: string) {
    && value == head + text + "\n</document>"
    && Contains(head, "filename=\"" + d.filename + "\"")
    && Contains(head, match a.pageNumber
                      case Some(page) => "page=\"" + Decimal(page) + "\""
                      case None => "part=\"" + Decimal(a.partNumber) + "\"")
  }

  ghost predicate CarriesText(e: Endpoint, d: Document, a: Artifact, part: Json)
    requires HasText(d, a)
  {
    && IsText(e, part) && part.fields.Keys == {"type", "text"} && Field(part.fields, "text").Str?
    && exists head :: IsTagged(d, a, Field(part.fields, "text").value, d.files[a.textPath], head)
  }

  /** Where the endpoint has the URL of an image. */
  function UrlIn(e: Endpoint, part: Json): Json
    requires part.Obj?
  {
    var url := Field(part.fields, "image_url");
    if e.Responses? then url else if url.Obj? then Field(url.fields, "url") else Null
  }

  predicate EndsWith(s: string, end: string) {
    |end| <= |s| && s[|s| - |end|..] == end
  }

  /** The URL says the media type and holds the encoded image. */
  predicate CarriesImage(e: Endpoint, s: Settings, d: Document, a: Artifact, part: Json) {
    && a.imagePath.Some? && a.imagePath.value in d.files
    && IsImage(e, part) && UrlIn(e, part).Str?
    && (if e.Chat? then part.fields.Keys == {"type", "image_url"}
        else part.fields.Keys == {"type", "image_url", "detail"} && part.fields["detail"] == Str("auto"))
    && var url := UrlIn(e, part).value;
       var media := if a.mediaType == None then "image/png" else a.mediaType.value;
       var image := s.encode(d.files[a.imagePath.value]);
       "data:" + media + ";" <= url && EndsWith(url, ";base64," + image) && |url| == |media| + |image| + 13
  }

  function ImagesIn(artifacts: seq<Artifact>): nat {
    if artifacts == [] then 0
    else ImagesIn(artifacts[..|artifacts| - 1]) + if artifacts[|artifacts| - 1].imagePath.Some? then 1 else 0
  }

  /** There is room for an image after `images` of them. */
  predicate HasRoom(s: Settings, images: nat) {
    s.maxPages <= 0 || images < s.maxPages
  }

  function Shown(s: Settings, images: nat): nat {
    if HasRoom(s, images) then images else s.maxPages
  }

  /** What artifact `i` becomes: its text if there is any, then its image if there is one and
      room for it. */
  ghost predicate IsBlockOf(e: Endpoint, s: Settings, d: Document, artifacts: seq<Artifact>, i: nat, block: seq<Json>)
    requires i < |artifacts|
  {
    var a := artifacts[i];
    var texts := if HasText(d, a) then 1 else 0;
    var images := if a.imagePath.Some? && HasRoom(s, ImagesIn(artifacts[..i])) then 1 else 0;
    && |block| == texts + images
    && (texts == 1 ==> CarriesText(e, d, a, block[0]))
    && (images == 1 ==> CarriesImage(e, s, d, a, block[|block| - 1]))
  }

  ghost predicate AreBlocks(e: Endpoint, s: Settings, d: Document, artifacts: seq<Artifact>, blocks: seq<seq<Json>>) {
    |blocks| == |artifacts| && forall i | 0 <= i < |artifacts| :: IsBlockOf(e, s, d, artifacts, i, blocks[i])
  }

  lemma {:induction false} LabelCarries(d: Document, a: Artifact, text: string) returns (head: string)
    ensures IsTagged(d, a, Label(d, a, text), text, head)
  {
    var name := "filename=\"" + d.filename + "\"";
    var location := if a.pageNumber.Some? then "page=\"" + Decimal(a.pageNumber.value) + "\""
                    else "part=\"" + Decimal(a.partNumber) + "\"";
    head := "<document filename=\"" + d.filename + "\" " + location + ">\n";
    assert head == "<document " + name + (" " + location + ">\n");
    IsContained("<document ", name, " " + location + ">\n");
    assert head == ("<document " + name + " ") + location + ">\n";
    IsContained("<document " + name + " ", location, ">\n");
    hide Contains;
    assert Label(d, a, text) == head + text + "\n</document>";
  }

  lemma {:induction false} IsContained(before: string, piece: string, after: string)
    ensures Contains(before + piece + after, piece)
  {}

  lemma {:induction false} TextIsCarried(e: Endpoint, d: Document, a: Artifact)
    ensures |TextOf(e, d, a)| == if HasText(d, a) then 1 else 0
    ensures HasText(d, a) ==> CarriesText(e, d, a, TextOf(e, d, a)[0])
  {
    if HasText(d, a) {
      var text := d.files[a.textPath];
      var head := LabelCarries(d, a, text);
      hide Label, IsTagged;
      assert Field(TextOf(e, d, a)[0].fields, "text") == Str(Label(d, a, text));
    }
  }

  lemma {:induction false} ImageIsCarried(e: Endpoint, s: Settings, d: Document, a: Artifact)
    requires a.imagePath.Some? && a.imagePath.value in d.files
    ensures |ImageOf(e, s, d, a)| == 1 && CarriesImage(e, s, d, a, ImageOf(e, s, d, a)[0])
  {
    var media := if a.mediaType.Some? then a.mediaType.value else "image/png";
    var image := s.encode(d.files[a.imagePath.value]);
    var url := "data:" + media + ";base64," + image;
    assert url == ("data:" + media + ";") + ("base64," + image);
    assert url == ("data:" + media) + (";base64," + image);
    assert UrlIn(e, ImageOf(e, s, d, a)[0]) == Str(url);
  }

  lemma {:induction false} BlockCarries(e: Endpoint, s: Settings, d: Document, artifacts: seq<Artifact>, images: nat)
    requires artifacts != []
    requires images == Shown(s, ImagesIn(artifacts[..|artifacts| - 1]))
    requires Readable(s, d, artifacts[|artifacts| - 1], images)
    ensures IsBlockOf(e, s, d, artifacts, |artifacts| - 1, Block(e, s, d, artifacts[|artifacts| - 1], images))
  {
    var a := artifacts[|artifacts| - 1];
    TextIsCarried(e, d, a);
    if a.imagePath.Some? && !Full(s, images) {
      ImageIsCarried(e, s, d, a);
    }
    hide TextOf, ImagePart, CarriesText, CarriesImage, HasText;
  }

  lemma {:induction false} OneMoreBlock(e: Endpoint, s: Settings, d: Document, artifacts: seq<Artifact>,
                                        blocks: seq<seq<Json>>, block: seq<Json>)
    requires artifacts != [] && AreBlocks(e, s, d, artifacts[..|artifacts| - 1], blocks)
    requires IsBlockOf(e, s, d, artifacts, |artifacts| - 1, block)
    ensures AreBlocks(e, s, d, artifacts, blocks + [block])
  {
    hide CarriesText, CarriesImage, HasText, ImagesIn;
    var rest, all := artifacts[..|artifacts| - 1], blocks + [block];
    forall i | 0 <= i < |artifacts| ensures IsBlockOf(e, s, d, artifacts, i, all[i]) {
      if i < |rest| {
        assert rest[..i] == artifacts[..i] && rest[i] == artifacts[i] && all[i] == blocks[i];
        assert IsBlockOf(e, s, d, rest, i, blocks[i]);
      }
    }
  }

  /** From the same parts of an artifact the same text can be read. */
  lemma {:induction false} TextIsReadBack(e: Endpoint, d: Document, d': Document, a: Artifact)
    requires d.filename == d'.filename && HasText(d, a) && HasText(d', a)
    requires TextOf(e, d, a) == TextOf(e, d', a)
    ensures d.files[a.textPath] == d'.files[a.textPath]
  {
    var text, text' := d.files[a.textPath], d'.files[a.textPath];
    assert Field(TextOf(e, d, a)[0].fields, "text") == Str(Label(d, a, text));
    assert Field(TextOf(e, d', a)[0].fields, "text") == Str(Label(d', a, text'));
    var head, tail := Label(d, a, ""), "\n</document>";
    var open := head[..|head| - |tail|];
    assert Label(d, a, text) == open + text + tail;
    assert Label(d', a, text') == open + text' + tail;
    assert (open + text + tail)[|open|..|open| + |text|] == text;
    assert (open + text' + tail)[|open|..|open| + |text'|] == text';
  }

  function Flatten(blocks: seq<seq<Json>>): seq<Json> {
    if blocks == [] then [] else Flatten(blocks[..|blocks| - 1]) + blocks[|blocks| - 1]
  }

  lemma {:induction false} BlockIsTextThenImage(e: Endpoint, s: Settings, d: Document, a: Artifact, images: nat)
    ensures var block := Block(e, s, d, a, images);
      block == TextOf(e, d, a) || block == TextOf(e, d, a) + ImageOf(e, s, d, a)
  {}

  lemma {:induction false} FlattenOneMore(blocks: seq<seq<Json>>, block: seq<Json>)
    ensures Flatten(blocks + [block]) == Flatten(blocks) + block
  {
    assert (blocks + [block])[..|blocks|] == blocks;
  }

  lemma {:induction false} OrderOneMore(e: Endpoint, s: Settings, d: Document, artifacts: seq<Artifact>, parts: seq<Json>,
                     blocks: seq<seq<Json>>, block: seq<Json>)
    requires artifacts != [] && InManifestOrder(e, s, d, artifacts[..|artifacts| - 1], parts, blocks)
    requires var a := artifacts[|artifacts| - 1];
      block == TextOf(e, d, a) || block == TextOf(e, d, a) + ImageOf(e, s, d, a)
    ensures InManifestOrder(e, s, d, artifacts, parts + block, blocks + [block])
  {
    hide TextOf, ImageOf;
    FlattenOneMore(blocks, block);
    hide Flatten;
    var rest := artifacts[..|artifacts| - 1];
    forall i | 0 <= i < |artifacts|
      ensures var b := (blocks + [block])[i];
        b == TextOf(e, d, artifacts[i]) || b == TextOf(e, d, artifacts[i]) + ImageOf(e, s, d, artifacts[i])
    {
      if i < |rest| {
        assert rest[i] == artifacts[i] && (blocks + [block])[i] == blocks[i];
      }
    }
  }

  lemma {:induction false} BuiltInOrder(e: Endpoint, s: Settings, d: Document, artifacts: seq<Artifact>)
    returns (blocks: seq<seq<Json>>)
    requires Built(e, s, d, artifacts).Parts?
    ensures InManifestOrder(e, s, d, artifacts, Built(e, s, d, artifacts).parts, blocks)
    ensures AreBlocks(e, s, d, artifacts, blocks)
    ensures Built(e, s, d, artifacts).images == Shown(s, ImagesIn(artifacts))
    decreases |artifacts|
  {
    hide TextOf, ImageOf, Block, Readable, InManifestOrder, AreBlocks, IsBlockOf, Built, Extend, ImagesIn, Shown, Full;
    if artifacts == [] {
      blocks := [];
      NoBlocks(e, s, d);
    } else {
      var a, rest := artifacts[|artifacts| - 1], artifacts[..|artifacts| - 1];
      var so := Built(e, s, d, rest);
      LastArtifact(e, s, d, artifacts);
      var before := BuiltInOrder(e, s, d, rest);
      var block := Block(e, s, d, a, so.images);
      BlockIsTextThenImage(e, s, d, a, so.images);
      OrderOneMore(e, s, d, artifacts, so.parts, before, block);
      BlockCarries(e, s, d, artifacts, so.images);
      OneMoreBlock(e, s, d, artifacts, before, block);
      blocks := before + [block];
    }
  }

  lemma {:induction false} NoBlocks(e: Endpoint, s: Settings, d: Document)
    ensures Built(e, s, d, []) == Parts([], 0)
    ensures InManifestOrder(e, s, d, [], [], []) && AreBlocks(e, s, d, [], [])
    ensures Shown(s, ImagesIn([])) == 0
  {}

  lemma {:induction false} LastArtifact(e: Endpoint, s: Settings, d: Document, artifacts: seq<Artifact>)
    requires artifacts != [] && Built(e, s, d, artifacts).Parts?
    ensures var a, so := artifacts[|artifacts| - 1], Built(e, s, d, artifacts[..|artifacts| - 1]);
      && so.Parts? && Readable(s, d, a, so.images)
      && Built(e, s, d, artifacts).parts == so.parts + Block(e, s, d, a, so.images)
    ensures var rest := artifacts[..|artifacts| - 1];
      Built(e, s, d, rest).images == Shown(s, ImagesIn(rest)) ==>
        Built(e, s, d, artifacts).images == Shown(s, ImagesIn(artifacts))
  {
    hide Block, TextOf, ImageOf;
  }

  /** A document becomes all its texts and its first `maxPages` images, each text right
      before the image of the same artifact, in the order of its manifest; each text part
      carries its text and each image part its image; none of them is itself a file part. */
  lemma {:induction false} DocumentIsComplete(e: Endpoint, s: Settings, d: Document) returns (blocks: seq<seq<Json>>)
    requires PartsOf(e, s, d).Some?
    ensures var parts := PartsOf(e, s, d).value;
      && Select(TextFilter(e), parts) == Texts(e, d, d.manifest[0])
      && Select(ImageFilter(e), parts) == Capped(s, Images(e, s, d, d.manifest[0]))
      && InManifestOrder(e, s, d, d.manifest[0], parts, blocks) && AreBlocks(e, s, d, d.manifest[0], blocks)
      && forall p | p in parts :: !IsFilePart(e, p)
  {
    BuiltFromManifest(e, s, d, d.manifest[0]);
    blocks := BuiltInOrder(e, s, d, d.manifest[0]);
    BuiltHasNoFilePart(e, s, d, d.manifest[0]);
  }

  lemma {:induction false} BuiltHasNoFilePart(e: Endpoint, s: Settings, d: Document, artifacts: seq<Artifact>)
    requires Built(e, s, d, artifacts).Parts?
    ensures forall p | p in Built(e, s, d, artifacts).parts :: !IsFilePart(e, p)
    decreases |artifacts|
  {
    if artifacts != [] {
      var a := artifacts[|artifacts| - 1];
      var before := Built(e, s, d, artifacts[..|artifacts| - 1]);
      BuiltHasNoFilePart(e, s, d, artifacts[..|artifacts| - 1]);
      forall p | p in Block(e, s, d, a, before.images) ensures !IsFilePart(e, p) {
        if p in TextOf(e, d, a) {
          KindsDiffer(e, s, d, a, d.files[a.textPath]);
        } else {
          KindsDiffer(e, s, d, a, d.files[a.imagePath.value]);
        }
      }
      hide Block, IsFilePart;
    }
  }
}
