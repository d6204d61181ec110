/** What a conversion leaves in the directory of a file, with a fault possible in every
    file-system call: the artifacts under `derived/` and `manifest.json` beside it. */
module Conversion {
  import opened Rows
  import Decimals
  import World

  datatype Part = Part(number: nat, textPath: string, imagePath: Option<string>)

  /** A manifest whose write failed half way is torn. */
  datatype ManifestFile = Torn | Written(parts: seq<Part>)

  /** Which calls fail, and what a failed removal or write leaves. */
  datatype Faults = Faults(fails: nat -> bool, keeps: nat -> string -> bool) {
    /** None of the calls from number `from` up to number `to` fails. */
    ghost predicate Spare(from: nat, to: int) {
      forall c | from <= c < to :: !fails(c)
    }

    ghost predicate HitOnce(from: nat, to: int) {
      forall b, c | from <= b < c < to :: !fails(b) || !fails(c)
    }
  }

  /** A page the renderer wrote, and the text found on it. */
  datatype Page = Page(image: string, stem: string, text: string)

  datatype Plan =
    | TextDocument(blocks: seq<string>, limit: int)
    | ImageDocument(extension: string, image: string)
    | RenderedDocument(files: map<string, string>, pages: seq<Page>, extracted: bool)

  function PartName(n: nat): string {
    "part-" + Decimals.Padded(n, 4) + ".txt"
  }

  lemma {:induction false} PartNamesDiffer(m: nat, n: nat)
    ensures PartName(m) == PartName(n) <==> m == n
  {
    if PartName(m) == PartName(n) {
      var a, b := Decimals.Padded(m, 4), Decimals.Padded(n, 4);
      assert |a| == |b|;
      assert PartName(m)[5..5 + |a|] == a && PartName(n)[5..5 + |b|] == b;
      Decimals.ValueOfPadded(m, 4);
      Decimals.ValueOfPadded(n, 4);
    }
  }

  /** Four digits at least. */
  lemma {:induction false} FirstPartNames()
    ensures PartName(1) == "part-0001.txt" && PartName(23) == "part-0023.txt"
  {}

  // ---------- what is wanted ----------

  /** Parts are numbered from one. */
  function BlockName(i: nat): string {
    PartName(i + 1)
  }

  function TextParts(blocks: seq<string>): (parts: seq<Part>)
    ensures |parts| == |blocks|
  {
    seq(|blocks|, i requires 0 <= i < |blocks| => Part(i + 1, BlockName(i), None))
  }

  function TextName(page: Page): string {
    page.stem + ".txt"
  }

  function PagePart(page: Page, number: nat, extracted: bool): Part {
    Part(number, if extracted then TextName(page) else "", Some(page.image))
  }

  function PageParts(pages: seq<Page>, extracted: bool): (parts: seq<Part>)
    ensures |parts| == |pages|
  {
    seq(|pages|, i requires 0 <= i < |pages| => PagePart(pages[i], i + 1, extracted))
  }

  function PartsOf(plan: Plan): seq<Part> {
    match plan
    case TextDocument(blocks, _) => TextParts(blocks)
    case ImageDocument(extension, _) => [Part(1, "part-0001.txt", Some("image-0001" + extension))]
    case RenderedDocument(_, pages, extracted) => PageParts(pages, extracted)
  }

  /** The text file of a page, if texts are extracted. */
  function TextNames(page: Page, extracted: bool): set<string> {
    if extracted then {TextName(page)} else {}
  }

  function AfterPage(files: map<string, string>, page: Page, extracted: bool): map<string, string> {
    if extracted then files[TextName(page) := page.text] else files
  }

  /** The files in the directory after the turns for `pages`. */
  function FilesAfter(files: map<string, string>, pages: seq<Page>, extracted: bool): set<string> {
    if pages == [] then files.Keys
    else FilesAfter(files, pages[..|pages| - 1], extracted) + TextNames(pages[|pages| - 1], extracted)
  }

  /** Each page image is there when its digest is taken: the renderer left it, or it has the
      name of a text that was written by then. */
  ghost predicate ImagesAreThere(files: map<string, string>, pages: seq<Page>, extracted: bool) {
    forall i | 0 <= i < |pages| :: pages[i].image in FilesAfter(files, pages[..i + 1], extracted)
  }

  /** Nothing but a failing call can stop the conversion. */
  ghost predicate Convertible(plan: Plan) {
    match plan
    case TextDocument(blocks, limit) => FitsLimit(blocks, limit)
    case ImageDocument(_, _) => true
    case RenderedDocument(files, pages, extracted) => ImagesAreThere(files, pages, extracted)
  }

  /** The files a part list names. */
  function Names(parts: seq<Part>): set<string> {
    (set p | p in parts && p.textPath != "" :: p.textPath)
      + set p | p in parts && p.imagePath.Some? :: p.imagePath.value
  }

  /** The text of block `i` is in the file its part names. */
  predicate HoldsBlocks(files: map<string, string>, blocks: seq<string>) {
    && files.Keys == (set i | 0 <= i < |blocks| :: BlockName(i))
    && forall i | 0 <= i < |blocks| :: BlockName(i) in files && files[BlockName(i)] == blocks[i]
  }

  /** Part `i` is numbered, and names the file that holds block `i`. */
  ghost predicate PartsHoldBlocks(parts: seq<Part>, files: map<string, string>, blocks: seq<string>) {
    && |parts| == |blocks|
    && forall i | 0 <= i < |blocks| ::
         && parts[i].number == i + 1 && parts[i].imagePath == None
         && parts[i].textPath in files && files[parts[i].textPath] == blocks[i]
  }

  /** No later page has a text file of the same name. */
  predicate NameIsLast(pages: seq<Page>, i: nat)
    requires i < |pages|
  {
    forall j | i < j < |pages| :: TextName(pages[j]) != TextName(pages[i])
  }

  /** When no two pages have the same text file, each holds its own text. */
  lemma {:induction false} DifferentNamesAreLast(pages: seq<Page>, i: nat)
    requires i < |pages| && forall j | i < j < |pages| :: pages[j].stem != pages[i].stem
    ensures NameIsLast(pages, i)
  {
    forall j | i < j < |pages| ensures TextName(pages[j]) != TextName(pages[i]) {
      assert TextName(pages[j])[..|pages[j].stem|] == pages[j].stem;
      assert TextName(pages[i])[..|pages[i].stem|] == pages[i].stem;
    }
  }

  /** The part has the number, names the image of the page and, if texts are extracted, the
      file that holds its text, when no later page has put its own there. */
  predicate HoldsPage(part: Part, number: nat, page: Page, last: bool, files: map<string, string>, extracted: bool) {
    && part.number == number && part.imagePath == Some(page.image) && page.image in files
    && part.textPath == (if extracted then page.stem + ".txt" else "")
    && (extracted && last ==> part.textPath in files && files[part.textPath] == page.text)
  }

  ghost predicate PartsHoldPages(parts: seq<Part>, files: map<string, string>, pages: seq<Page>, extracted: bool) {
    && |parts| == |pages|
    && forall i | 0 <= i < |pages| :: HoldsPage(parts[i], i + 1, pages[i], NameIsLast(pages, i), files, extracted)
  }

  function CallsForPages(pages: seq<Page>, extracted: bool): nat {
    if extracted then 2 * |pages| else |pages|
  }

  /** How many calls a conversion makes that succeeds: each file that is written, each digest,
      the renderer, the extraction and the manifest. */
  function CallsFor(plan: Plan): nat {
    match plan
    case TextDocument(blocks, _) => |blocks| + 2
    case ImageDocument(_, _) => 5
    case RenderedDocument(_, pages, extracted) => (if extracted then 4 else 3) + CallsForPages(pages, extracted)
  }

  /** What a failed removal may leave. */
  ghost predicate IsLeftOf(files: Option<map<string, string>>, rest: Option<map<string, string>>) {
    && (rest.Some? <==> files.Some?)
    && (files.Some? ==> forall name | name in rest.value :: name in files.value && rest.value[name] == files.value[name])
  }

  /** What the parts of the manifest are worth. */
  ghost predicate HoldsPlan(parts: seq<Part>, files: map<string, string>, plan: Plan) {
    match plan
    case TextDocument(blocks, _) => PartsHoldBlocks(parts, files, blocks)
    case ImageDocument(extension, image) =>
      && parts == [Part(1, "part-0001.txt", Some("image-0001" + extension))]
      && files == map["image-0001" + extension := image, "part-0001.txt" := ""]
    case RenderedDocument(_, pages, extracted) => PartsHoldPages(parts, files, pages, extracted)
  }

  // ---------- the code ----------

  class Folder {
    const faults: Faults
    var calls: nat
    var derived: Option<map<string, string>>
    var manifest: Option<ManifestFile>

    /** The manifest is whole and everything it names is there. */
    ghost predicate IsComplete()
      reads this
    {
      && manifest.Some? && manifest.value.Written? && derived.Some?
      && Names(manifest.value.parts) <= derived.value.Keys
    }

    /** The directory as the step model sees it; no conversion touches the source. */
    ghost function AsDir(): World.Dir
      reads this
    {
      var listed := manifest.Some? && manifest.value.Written?;
      World.Dir(true, if listed then Some(Names(manifest.value.parts)) else None,
                if derived.Some? then derived.value.Keys else {})
    }

    ghost predicate IsEmpty()
      reads this
    {
      derived.None? && manifest.None?
    }

    constructor (faults: Faults)
      ensures this.faults == faults && IsEmpty()
    {
      this.faults := faults;
      calls, derived, manifest := 0, None, None;
    }

    method Call() returns (ok: bool)
      modifies this`calls
      ensures calls == old(calls) + 1
      ensures ok <==> !faults.fails(old(calls))
    {
      ok := !faults.fails(calls);
      calls := calls + 1;
    }

    /** removeConversionOutput */
    method RemoveOutput() returns (ok: bool)
      modifies this
      ensures ok ==> IsEmpty()
      ensures faults.fails(old(calls)) ==> manifest == old(manifest) && IsLeftOf(old(derived), derived)
      ensures !faults.fails(old(calls)) ==> derived.None? && manifest == if ok then None else old(manifest)
      ensures old(calls) < calls <= old(calls) + 2 && faults.Spare(old(calls), calls - 1)
      ensures ok <==> !faults.fails(calls - 1)
      ensures ok ==> calls == old(calls) + 2
    {
      ok := Call();
      if !ok {
        if derived.Some? {
          var keep := faults.keeps(calls);
          derived := Some(map name | name in derived.value && keep(name) :: derived.value[name]);
        }
        return;
      }
      derived := None;
      ok := Call();
      if ok {
        manifest := None;
      }
    }

    /** os.WriteFile in the output directory; a failure may leave part of the file. */
    method WriteFile(name: string, content: string) returns (ok: bool)
      requires derived.Some?
      modifies this`calls, this`derived
      ensures derived == Some(
        if ok then old(derived).value[name := content]
        else if faults.keeps(calls)(name) then old(derived).value[name := ""] else old(derived).value)
      ensures calls == old(calls) + 1 && (ok <==> !faults.fails(old(calls)))
    {
      ok := Call();
      if ok {
        derived := Some(derived.value[name := content]);
      } else if faults.keeps(calls)(name) {
        derived := Some(derived.value[name := ""]);
      }
    }

    /** writeResult: the digest of the source, then the manifest. */
    method WriteResult(parts: seq<Part>) returns (ok: bool)
      modifies this`calls, this`manifest
      ensures faults.fails(old(calls)) ==> !ok && calls == old(calls) + 1 && manifest == old(manifest)
      ensures !faults.fails(old(calls)) ==> calls == old(calls) + 2 && (ok <==> !faults.fails(old(calls) + 1))
      ensures !faults.fails(old(calls)) ==> manifest == Some(if ok then Written(parts) else Torn)
    {
      ok := Call();
      if !ok {
        return;
      }
      ok := Call();
      manifest := if ok then Some(Written(parts)) else Some(Torn);
    }

    method ConvertText(blocks: seq<string>) returns (ok: bool)
      requires derived == Some(map[])
      modifies this
      ensures derived.Some?
      ensures ok ==> manifest == Some(Written(TextParts(blocks))) && HoldsBlocks(derived.value, blocks)
      ensures calls >= old(calls) && faults.Spare(old(calls), calls - 1)
      ensures ok <==> faults.Spare(old(calls), calls)
      ensures ok ==> calls == old(calls) + |blocks| + 2
    {
      var artifacts: seq<Part> := [];
      assert TextParts(blocks[..0]) == artifacts && HoldsBlocks(derived.value, blocks[..0]);
      hide TextParts, HoldsBlocks, BlockName;
      var i := 0;
      while i < |blocks|
        invariant 0 <= i <= |blocks| && derived.Some?
        invariant artifacts == TextParts(blocks[..i]) && HoldsBlocks(derived.value, blocks[..i])
        invariant calls == old(calls) + i && faults.Spare(old(calls), calls)
      {
        var name := BlockName(i);
        ghost var before := derived.value;
        ok := WriteFile(name, blocks[i]);
        if !ok {
          return;
        }
        OneMoreBlock(before, blocks, i);
        OneMorePart(blocks, i);
        artifacts := artifacts + [Part(i + 1, name, None)];
        i := i + 1;
      }
      assert blocks[..i] == blocks;
      ok := WriteResult(artifacts);
    }

    /** `image` is what the source holds; it is copied. */
    method ConvertImage(extension: string, image: string) returns (ok: bool)
      requires derived == Some(map[])
      modifies this
      ensures derived.Some?
      ensures ok ==> manifest == Some(Written(PartsOf(ImageDocument(extension, image))))
      ensures ok ==> HoldsPlan(manifest.value.parts, derived.value, ImageDocument(extension, image))
      ensures calls >= old(calls) && faults.Spare(old(calls), calls - 1)
      ensures ok <==> faults.Spare(old(calls), calls)
      ensures ok ==> calls == old(calls) + 5
    {
      var imageName := "image-0001" + extension;
      assert imageName[0] != "part-0001.txt"[0];
      ok := WriteFile(imageName, image);
      if !ok {
        return;
      }
      ok := WriteFile("part-0001.txt", "");
      if !ok {
        return;
      }
      ok := Call();
      if !ok {
        return;
      }
      ok := WriteResult([Part(1, "part-0001.txt", Some(imageName))]);
    }

    /** The renderer may fail, and may leave any files; the digest of a page that it names
        but did not write cannot be taken. */
    method ConvertRendered(files: map<string, string>, pages: seq<Page>, extracted: bool) returns (ok: bool)
      requires derived == Some(map[])
      modifies this
      ensures derived.Some?
      ensures ok ==> manifest == Some(Written(PageParts(pages, extracted)))
      ensures ok ==> Names(PageParts(pages, extracted)) <= derived.value.Keys
      ensures ok ==> PartsHoldPages(PageParts(pages, extracted), derived.value, pages, extracted)
      ensures calls >= old(calls) && faults.Spare(old(calls), calls - 1)
      ensures ok <==> faults.Spare(old(calls), calls) && ImagesAreThere(files, pages, extracted)
      ensures ok ==> calls == old(calls) + (if extracted then 4 else 3) + CallsForPages(pages, extracted)
    {
      derived := Some(derived.value + files);
      ok := Call();
      if !ok {
        return;
      }
      if extracted {
        ok := Call();
        if !ok {
          return;
        }
      }
      var artifacts;
      artifacts, ok := ConvertPages(files, pages, extracted);
      if ok {
        ok := WriteResult(artifacts);
      }
    }

    /** The loop over the pages. */
    method ConvertPages(ghost files: map<string, string>, pages: seq<Page>, extracted: bool)
      returns (artifacts: seq<Part>, ok: bool)
      requires derived.Some? && derived.value.Keys == files.Keys
      modifies this`calls, this`derived
      ensures derived.Some?
      ensures ok ==> artifacts == PageParts(pages, extracted) && Names(artifacts) <= derived.value.Keys
      ensures ok ==> PartsHoldPages(artifacts, derived.value, pages, extracted)
      ensures calls >= old(calls) && faults.Spare(old(calls), calls - 1)
      ensures ok <==> faults.Spare(old(calls), calls) && ImagesAreThere(files, pages, extracted)
      ensures ok ==> calls == old(calls) + CallsForPages(pages, extracted)
    {
      hide PageParts, Names, TextName, ImagesAreThere, PartsHoldPages;
      artifacts := [];
      NoPages(files, extracted);
      assert pages[..0] == [];
      hide FilesAfter;
      var i := 0;
      while i < |pages|
        invariant 0 <= i <= |pages| && derived.Some? && derived.value.Keys == FilesAfter(files, pages[..i], extracted)
        invariant artifacts == PageParts(pages[..i], extracted) && Names(artifacts) <= derived.value.Keys
        invariant calls == old(calls) + CallsForPages(pages[..i], extracted) && faults.Spare(old(calls), calls)
        invariant ImagesAreThere(files, pages[..i], extracted)
        invariant PartsHoldPages(artifacts, derived.value, pages[..i], extracted)
      {
        FilesGrow(files, pages, extracted, i);
        PartsGrow(pages, extracted, i);
        ImagesGrow(files, pages, extracted, i);
        ghost var before := derived.value;
        ok := ConvertPage(pages[i], extracted);
        if !ok {
          return;
        }
        PagesGrow(artifacts, before, derived.value, pages, extracted, i);
        var part := PagePart(pages[i], i + 1, extracted);
        NamesGrow(artifacts, part);
        NamesOfPage(pages[i], i + 1, extracted);
        artifacts := artifacts + [part];
        i := i + 1;
      }
      assert pages[..i] == pages;
      return artifacts, true;
    }

    /** One turn of the loop over the pages: its text, and the digest of its image. */
    method ConvertPage(page: Page, extracted: bool) returns (ok: bool)
      requires derived.Some?
      modifies this`calls, this`derived
      ensures derived.Some? && calls > old(calls) && faults.Spare(old(calls), calls - 1)
      ensures ok ==> calls == old(calls) + if extracted then 2 else 1
      ensures ok <==>
        faults.Spare(old(calls), calls) && page.image in old(derived).value.Keys + TextNames(page, extracted)
      ensures ok ==> derived.value.Keys == old(derived).value.Keys + TextNames(page, extracted)
      ensures ok ==> derived.value == AfterPage(old(derived).value, page, extracted)
    {
      if extracted {
        ok := WriteFile(TextName(page), page.text);
        if !ok {
          return;
        }
      }
      ok := Call();
      if page.image !in derived.value {
        ok := false;
      }
    }

    /** withOutputDirectory around the three conversions.  It succeeds exactly when the
        document can be converted and no call fails.  A text over its limit is refused before
        anything is touched.  After any other failure nothing is left when the last call, which
        is one of the clean-up, went through; in particular when one call failed and it is not
        one of the first removal. */
    method Convert(plan: Plan) returns (ok: bool)
      modifies this
      ensures ok <==> Convertible(plan) && faults.Spare(old(calls), calls)
      ensures ok ==> IsComplete() && manifest.value.parts == PartsOf(plan) && World.Complete(AsDir())
      ensures ok && plan.TextDocument? ==> HoldsBlocks(derived.value, plan.blocks)
      ensures ok ==> HoldsPlan(manifest.value.parts, derived.value, plan)
      ensures plan.TextDocument? && !Convertible(plan) ==> unchanged(this)
      ensures !plan.TextDocument? || Convertible(plan) ==> calls > old(calls)
      ensures ok ==> calls == old(calls) + 4 + CallsFor(plan)
      ensures !ok && calls > old(calls) && !faults.fails(calls - 1) ==> IsEmpty()
      ensures !ok && Convertible(plan) && faults.Spare(old(calls), old(calls) + 2) && faults.HitOnce(old(calls), calls) ==>
        IsEmpty()
    {
      if plan.TextDocument? {
        ok := WithinTextLimit(plan.blocks, plan.limit);
        if !ok {
          return;
        }
      }
      ok := RemoveOutput();
      if !ok {
        return;
      }
      ok := Call();
      if !ok {
        return;
      }
      ok := ConvertInto(plan);
      if ok {
        ok := Call();
      }
      if !ok {
        var _ := RemoveOutput();
      }
    }

    /** The conversion that withOutputDirectory is called with. */
    method ConvertInto(plan: Plan) returns (ok: bool)
      requires plan.TextDocument? ==> FitsLimit(plan.blocks, plan.limit)
      modifies this
      ensures calls >= old(calls) && faults.Spare(old(calls), calls - 1)
      ensures ok <==> Convertible(plan) && faults.Spare(old(calls), calls)
      ensures ok ==> IsComplete() && manifest.value.parts == PartsOf(plan)
      ensures ok && plan.TextDocument? ==> HoldsBlocks(derived.value, plan.blocks)
      ensures ok ==> HoldsPlan(manifest.value.parts, derived.value, plan)
      ensures ok ==> calls == old(calls) + CallsFor(plan)
    {
      derived := Some(map[]);
      match plan {
        case TextDocument(blocks, _) =>
          ok := ConvertText(blocks);
          if ok {
            BlocksAreNamed(derived.value, blocks);
            BlocksAreHeld(derived.value, blocks);
          }
        case ImageDocument(extension, image) => ok := ConvertImage(extension, image);
        case RenderedDocument(files, pages, extracted) => ok := ConvertRendered(files, pages, extracted);
      }
    }
  }

  lemma {:induction false} OneMoreBlock(files: map<string, string>, blocks: seq<string>, i: nat)
    requires i < |blocks| && HoldsBlocks(files, blocks[..i])
    ensures HoldsBlocks(files[BlockName(i) := blocks[i]], blocks[..i + 1])
  {
    hide PartName;
    var more := blocks[..i + 1];
    forall j | 0 <= j < i ensures BlockName(j) != BlockName(i) && more[j] == blocks[..i][j] {
      PartNamesDiffer(j + 1, i + 1);
    }
  }

  lemma {:induction false} OneMorePart(blocks: seq<string>, i: nat)
    requires i < |blocks|
    ensures TextParts(blocks[..i + 1]) == TextParts(blocks[..i]) + [Part(i + 1, BlockName(i), None)]
  {}

  lemma {:induction false} PagesGrow(parts: seq<Part>, files: map<string, string>, files': map<string, string>,
                                     pages: seq<Page>, extracted: bool, i: nat)
    requires i < |pages| && PartsHoldPages(parts, files, pages[..i], extracted)
    requires parts == PageParts(pages[..i], extracted)
    requires files' == AfterPage(files, pages[i], extracted) && pages[i].image in files'
    ensures PartsHoldPages(parts + [PagePart(pages[i], i + 1, extracted)], files', pages[..i + 1], extracted)
  {
    var less, more := pages[..i], pages[..i + 1];
    var all := parts + [PagePart(pages[i], i + 1, extracted)];
    forall k | 0 <= k <= i
      ensures HoldsPage(all[k], k + 1, more[k], NameIsLast(more, k), files', extracted)
    {
      if k < i {
        assert HoldsPage(parts[k], k + 1, less[k], NameIsLast(less, k), files, extracted);
        assert all[k] == parts[k] == PagePart(pages[k], k + 1, extracted) && more[k] == less[k] == pages[k];
        LastOfMore(pages, i, k);
        PageStays(pages[k], k + 1, NameIsLast(less, k), files, files', pages[i], NameIsLast(more, k), extracted);
      }
    }
  }

  lemma {:induction false} LastOfMore(pages: seq<Page>, i: nat, k: nat)
    requires k < i < |pages|
    ensures NameIsLast(pages[..i + 1], k) <==> NameIsLast(pages[..i], k) && TextName(pages[i]) != TextName(pages[k])
  {
    var less, more := pages[..i], pages[..i + 1];
    assert more[i] == pages[i] && more[k] == pages[k] == less[k];
    forall j | k < j < i ensures TextName(less[j]) == TextName(more[j]) {}
  }

  lemma {:induction false} PageStays(page: Page, number: nat, was: bool, files: map<string, string>,
                                     files': map<string, string>, next: Page, last: bool, extracted: bool)
    requires HoldsPage(PagePart(page, number, extracted), number, page, was, files, extracted)
    requires files' == AfterPage(files, next, extracted) && (last <==> was && TextName(next) != TextName(page))
    ensures HoldsPage(PagePart(page, number, extracted), number, page, last, files', extracted)
  {}

  lemma {:induction false} NoPages(files: map<string, string>, extracted: bool)
    ensures PageParts([], extracted) == [] && Names([]) == {}
    ensures FilesAfter(files, [], extracted) == files.Keys && ImagesAreThere(files, [], extracted)
    ensures forall now :: PartsHoldPages([], now, [], extracted)
  {}

  lemma {:induction false} FilesGrow(files: map<string, string>, pages: seq<Page>, extracted: bool, i: nat)
    requires i < |pages|
    ensures FilesAfter(files, pages[..i + 1], extracted)
      == FilesAfter(files, pages[..i], extracted) + TextNames(pages[i], extracted)
  {
    assert pages[..i + 1][..i] == pages[..i];
  }

  lemma {:induction false} ImagesGrow(files: map<string, string>, pages: seq<Page>, extracted: bool, i: nat)
    requires i < |pages| && ImagesAreThere(files, pages[..i], extracted)
    ensures var there := pages[i].image in FilesAfter(files, pages[..i + 1], extracted);
      && (there ==> ImagesAreThere(files, pages[..i + 1], extracted))
      && (!there ==> !ImagesAreThere(files, pages, extracted))
  {
    hide FilesAfter;
    var less, more := pages[..i], pages[..i + 1];
    forall j | 0 <= j <= i && (j == i ==> pages[i].image in FilesAfter(files, more, extracted))
      ensures more[j].image in FilesAfter(files, more[..j + 1], extracted)
    {
      assert more[..j + 1] == pages[..j + 1] && more[j] == pages[j];
      if j < i {
        assert less[..j + 1] == pages[..j + 1] && less[j] == pages[j];
      }
    }
  }

  lemma {:induction false} PartsGrow(pages: seq<Page>, extracted: bool, i: nat)
    requires i < |pages|
    ensures PageParts(pages[..i + 1], extracted)
      == PageParts(pages[..i], extracted) + [PagePart(pages[i], i + 1, extracted)]
  {}

  lemma {:induction false} NamesGrow(parts: seq<Part>, p: Part)
    ensures Names(parts + [p]) == Names(parts) + Names([p])
  {
    var more := parts + [p];
    assert p in [p] && forall q: Part | q in more :: q in parts || q in [p];
    assert forall q: Part | q in parts || q in [p] :: q in more;
  }

  lemma {:induction false} NamesOfPage(page: Page, number: nat, extracted: bool)
    ensures Names([PagePart(page, number, extracted)]) <= TextNames(page, extracted) + {page.image}
  {}

  lemma {:induction false} BlocksAreHeld(files: map<string, string>, blocks: seq<string>)
    requires HoldsBlocks(files, blocks)
    ensures PartsHoldBlocks(TextParts(blocks), files, blocks)
  {
    hide BlockName;
  }

  lemma {:induction false} BlocksAreNamed(files: map<string, string>, blocks: seq<string>)
    requires HoldsBlocks(files, blocks)
    ensures Names(TextParts(blocks)) <= files.Keys
  {
    hide BlockName;
    forall name | name in Names(TextParts(blocks)) ensures name in files {
      var p :| p in TextParts(blocks) && p.textPath == name;
      var i :| 0 <= i < |blocks| && TextParts(blocks)[i] == p;
    }
  }

  // ---------- the text limit ----------

  function Total(blocks: seq<string>): nat {
    if blocks == [] then 0 else Total(blocks[..|blocks| - 1]) + |blocks[|blocks| - 1]|
  }

  predicate FitsLimit(blocks: seq<string>, limit: int) {
    limit <= 0 || Total(blocks) <= limit
  }

  /** validateTextLimit; a limit of zero or less is no limit. */
  method WithinTextLimit(blocks: seq<string>, limit: int) returns (ok: bool)
    ensures ok <==> FitsLimit(blocks, limit)
  {
    if limit <= 0 {
      return true;
    }
    var characters := 0;
    var i := 0;
    while i < |blocks|
      invariant 0 <= i <= |blocks| && characters == Total(blocks[..i])
    {
      assert blocks[..i + 1][..i] == blocks[..i];
      characters := characters + |blocks[i]|;
      i := i + 1;
    }
    assert blocks[..i] == blocks;
    return characters <= limit;
  }
}
