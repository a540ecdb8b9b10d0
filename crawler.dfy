/**
 * The Markdown block model the page crawler builds (`sgs/crawler.py`): text
 * runs whose class is chosen by tag name, images with a `srcset`, general,
 * list and table blocks with their name checks, the `md_format` renderers,
 * and the grouping of consecutive `li` blocks into one `ul`.
 *
 * The `font` tag is rendered by BeautifulSoup; its rendering is a parameter
 * `font` from the text to the tag's markup.
 */
module Crawler {
  import opened Wrappers
  import opened PyText

  /** The `Text` subclasses of the module. */
  datatype TextClass = TextC | IC | FontC | BC | HeaderC | CaptionC

  /** The lower-cased class name, the key `local_subclasses` files it under. */
  function LowerName(c: TextClass): string {
    match c
    case TextC => "text"
    case IC => "i"
    case FontC => "font"
    case BC => "b"
    case HeaderC => "header"
    case CaptionC => "caption"
  }

  /** `issubclass(c, owner)` among the text classes. */
  predicate IsSubclass(c: TextClass, owner: TextClass) {
    owner == TextC || c == owner
  }

  /** The class whose lower-cased name is `name`, if any. */
  function ClassNamed(name: string): (r: Option<TextClass>)
    ensures r.Some? ==> LowerName(r.value) == name
    ensures forall c :: LowerName(c) == name ==> r == Some(c)
  {
    if name == "text" then Some(TextC)
    else if name == "i" then Some(IC)
    else if name == "font" then Some(FontC)
    else if name == "b" then Some(BC)
    else if name == "header" then Some(HeaderC)
    else if name == "caption" then Some(CaptionC)
    else None
  }

  /**
   * `local_subclasses.get(name)`. The property is cached on its first read,
   * so the table is the one computed for `owner`, the class whose
   * construction read it first: 'Strong' and 'Emphasis', then the subclasses
   * of `owner` under their lower-cased names.
   */
  function LocalSubclass(owner: TextClass, name: string): (r: Option<TextClass>)
    ensures name == "Strong" ==> r == Some(BC)
    ensures name == "Emphasis" ==> r == Some(IC)
    ensures name != "Strong" && name != "Emphasis" ==>
      (r.Some? <==> exists c :: LowerName(c) == name && IsSubclass(c, owner))
    ensures r.Some? && name != "Strong" && name != "Emphasis" ==> LowerName(r.value) == name && IsSubclass(r.value, owner)
  {
    if name == "Strong" then Some(BC)
    else if name == "Emphasis" then Some(IC)
    else
      var c := ClassNamed(name);
      if c.Some? && IsSubclass(c.value, owner) then c else None
  }

  /** `cls(text, name)`: the class the new text object gets. */
  function TextNew(cls: TextClass, name: string, owner: TextClass): (r: TextClass)
    ensures LocalSubclass(owner, name).None? ==> r == cls
    ensures r == cls || (name == "Strong" && r == BC) || (name == "Emphasis" && r == IC)
      || (LowerName(r) == name && IsSubclass(r, owner))
  {
    var c := LocalSubclass(owner, name);
    if c.Some? then c.value else cls
  }

  /** With the table built for `Text`, the name alone picks the class, and an unknown name keeps `cls`. */
  lemma TextNewFromText(cls: TextClass, name: string)
    ensures name == "Strong" ==> TextNew(cls, name, TextC) == BC
    ensures name == "Emphasis" ==> TextNew(cls, name, TextC) == IC
    ensures forall c :: LowerName(c) == name ==> TextNew(cls, name, TextC) == c
    ensures name != "Strong" && name != "Emphasis" && ClassNamed(name).None? ==> TextNew(cls, name, TextC) == cls
  {
  }

  /** With the table built for a proper subclass, only that subclass's own name is known. */
  lemma TextNewFromSubclass(cls: TextClass, name: string, owner: TextClass)
    requires owner != TextC
    ensures TextNew(cls, name, owner) ==
      if name == "Strong" then BC
      else if name == "Emphasis" then IC
      else if name == LowerName(owner) then owner
      else cls
  {
  }

  /** `md_format(level=…)` of a text of class `c`. */
  function TextMd(c: TextClass, text: string, level: Option<int>, font: string -> string): (r: string)
    ensures (c == IC || c == BC) ==> (r == "" <==> text == "")
    ensures (c == TextC || c == CaptionC) ==> r == text
  {
    match c
    case IC => if text != "" then "*" + text + "*" else ""
    case BC => if text != "" then "**" + text + "**" else ""
    case HeaderC => Repeat("#", if level.Some? then level.value else 1) + " " + text
    case FontC => font(text)
    case _ => text
  }

  /** Italic text: empty stays empty, else one star on each side around the text. */
  lemma ItalicShape(text: string, level: Option<int>, font: string -> string)
    ensures var r := TextMd(IC, text, level, font);
      && (r == "" <==> text == "")
      && (text != "" ==> |r| == |text| + 2 && StartsWith(r, "*") && EndsWith(r, "*") && r[1..|r| - 1] == text)
  {
  }

  /** Bold text: empty stays empty, else two stars on each side around the text. */
  lemma BoldShape(text: string, level: Option<int>, font: string -> string)
    ensures var r := TextMd(BC, text, level, font);
      && (r == "" <==> text == "")
      && (text != "" ==> |r| == |text| + 4 && StartsWith(r, "**") && EndsWith(r, "**") && r[2..|r| - 2] == text)
  {
  }

  /** A header: `level` hashes (one by default, none for a level below one), a space, then the text. */
  lemma {:induction false} HeaderShape(text: string, level: Option<int>, font: string -> string)
    ensures var r := TextMd(HeaderC, text, level, font);
      var l := if level.None? then 1 else if level.value < 0 then 0 else level.value;
      && |r| == l + 1 + |text|
      && (forall k :: 0 <= k < l ==> r[k] == '#')
      && r[l] == ' '
      && r[l + 1..] == text
  {
    var l := if level.None? then 1 else if level.value < 0 then 0 else level.value;
    var lv := if level.Some? then level.value else 1;
    RepeatLength("#", lv);
    RepeatHashes(lv);
  }

  lemma {:induction false} RepeatHashes(k: int)
    ensures forall j :: 0 <= j < |Repeat("#", k)| ==> Repeat("#", k)[j] == '#'
    decreases if k < 0 then 0 else k
  {
    if k > 0 {
      RepeatHashes(k - 1);
      assert Repeat("#", k) == "#" + Repeat("#", k - 1);
    }
  }

  datatype CrawlError =
    | KeyError(key: string)
    | ValueError
    | AssertionError(name: string)

  /** An `img` tag: its sources by descriptor, `data-src` and `alt`. */
  datatype Img = Img(srcSet: map<string, string>, dataSrc: string, alt: Option<string>, author: Option<string>)

  const DefaultSrc: string := "1x"

  /** Every `srcset` item is "url descriptor". */
  predicate SrcSetWellFormed(items: seq<string>) {
    forall k :: 0 <= k < |items| ==> |Words(items[k])| == 2
  }

  /** The `srcset` loop: each item "url descriptor" maps descriptor to url; another item shape is a ValueError. */
  function AddSrcs(m: map<string, string>, items: seq<string>): Result<map<string, string>, CrawlError>
    decreases |items|
  {
    if items == [] then Ok(m)
    else
      var w := Words(items[0]);
      if |w| != 2 then Err(ValueError) else AddSrcs(m[w[1] := w[0]], items[1..])
  }

  /** The url of the last well-formed item with descriptor `t`. */
  function LastFor(items: seq<string>, t: string): Option<string>
    decreases |items|
  {
    if items == [] then None
    else
      var rest := LastFor(items[1..], t);
      var w := Words(items[0]);
      if rest.Some? then rest else if |w| == 2 && w[1] == t then Some(w[0]) else None
  }

  function Get(m: map<string, string>, k: string): Option<string> {
    if k in m then Some(m[k]) else None
  }

  /**
   * The `srcset` loop succeeds exactly on well-formed items, and then each
   * descriptor maps to the url of its last item, or keeps its earlier source.
   */
  lemma {:induction false} SrcSetLastWins(m: map<string, string>, items: seq<string>, t: string)
    ensures AddSrcs(m, items).Ok? <==> SrcSetWellFormed(items)
    ensures AddSrcs(m, items).Ok? ==>
      Get(AddSrcs(m, items).value, t) == (if LastFor(items, t).Some? then LastFor(items, t) else Get(m, t))
    decreases |items|
  {
    if items != [] {
      var w := Words(items[0]);
      var tail := items[1..];
      assert forall k :: 0 <= k < |tail| ==> tail[k] == items[k + 1];
      if |w| == 2 {
        SrcSetLastWins(m[w[1] := w[0]], tail, t);
        if SrcSetWellFormed(tail) {
          assert SrcSetWellFormed(items) by {
            forall k | 0 <= k < |items| ensures |Words(items[k])| == 2 {
              if k > 0 {
                assert items[k] == tail[k - 1];
              }
            }
          }
        }
      }
    }
  }

  /** The loop as it runs, one item at a time into the dict. */
  method BuildSrcSet(src: string, srcset: string) returns (r: Result<map<string, string>, CrawlError>)
    ensures r == SrcSetOf(src, srcset)
  {
    var m := map[DefaultSrc := src];
    if srcset == "" {
      return Ok(m);
    }
    var items := Split(srcset, ',');
    var i := 0;
    while i < |items|
      invariant 0 <= i <= |items|
      invariant AddSrcs(m, items[i..]) == SrcSetOf(src, srcset)
      decreases |items| - i
    {
      assert items[i..][1..] == items[i + 1..];
      var w := Words(items[i]);
      if |w| != 2 {
        return Err(ValueError);
      }
      m := m[w[1] := w[0]];
      i := i + 1;
    }
    return Ok(m);
  }

  /** The source set `Img(tag)` builds from `src` and an optional, possibly empty, `srcset`. */
  function SrcSetOf(src: string, srcset: string): Result<map<string, string>, CrawlError> {
    if srcset == "" then Ok(map[DefaultSrc := src]) else AddSrcs(map[DefaultSrc := src], Split(srcset, ','))
  }

  /** `Img(tag, author)` for a tag given by its attributes. */
  function NewImg(tag: map<string, string>, author: Option<string>): (r: Result<Img, CrawlError>)
    ensures "src" !in tag ==> r == Err(KeyError("src"))
    ensures r.Err? ==> r.error == KeyError("src") || r.error == ValueError
    ensures r.Ok? ==> r.value.author == author && r.value.alt == Get(tag, "alt")
  {
    if "src" !in tag then Err(KeyError("src"))
    else
      var srcset := if "srcset" in tag then tag["srcset"] else "";
      var s := SrcSetOf(tag["src"], srcset);
      AddSrcsFails(map[DefaultSrc := tag["src"]], Split(srcset, ','));
      if s.Err? then Err(s.error)
      else Ok(Img(s.value, if "data-src" in tag then tag["data-src"] else "", Get(tag, "alt"), author))
  }

  /** A tag without `src` is a KeyError; with one and no `srcset` it is the only source. */
  lemma NewImgSources(tag: map<string, string>, author: Option<string>)
    ensures "src" !in tag <==> NewImg(tag, author) == Err(KeyError("src"))
    ensures NewImg(tag, author).Err? && "src" in tag ==> NewImg(tag, author).error == ValueError
    ensures "src" in tag && ("srcset" !in tag || tag["srcset"] == "") ==>
      NewImg(tag, author).Ok? && NewImg(tag, author).value.srcSet == map[DefaultSrc := tag["src"]]
  {
    if "src" in tag && "srcset" in tag && tag["srcset"] != "" {
      AddSrcsFails(map[DefaultSrc := tag["src"]], Split(tag["srcset"], ','));
    }
  }

  /** The only way the `srcset` loop fails is a ValueError. */
  lemma {:induction false} AddSrcsFails(m: map<string, string>, items: seq<string>)
    ensures AddSrcs(m, items).Err? ==> AddSrcs(m, items).error == ValueError
    decreases |items|
  {
    if items != [] {
      var w := Words(items[0]);
      if |w| == 2 {
        AddSrcsFails(m[w[1] := w[0]], items[1..]);
      }
    }
  }

  /** `img_src(src_key)` */
  function ImgSrc(img: Img, key: Option<string>): (r: Result<string, CrawlError>)
    ensures r.Ok? <==> (if key.Some? then key.value else DefaultSrc) in img.srcSet
    ensures r.Err? ==> r.error.KeyError?
    ensures r.Ok? ==> r.value == img.srcSet[if key.Some? then key.value else DefaultSrc] || r.value == img.dataSrc
  {
    var k := if key.Some? then key.value else DefaultSrc;
    if k !in img.srcSet then Err(KeyError(k))
    else
      var src := img.srcSet[k];
      if !StartsWith(src, "http") && StartsWith(img.dataSrc, "http") then Ok(img.dataSrc) else Ok(src)
  }

  /**
   * The chosen source exists exactly for a known key; an http source is kept,
   * and otherwise an http `data-src` replaces it, so the result is http
   * whenever either of the two is.
   */
  lemma ImgSrcPrefersHttp(img: Img, key: Option<string>)
    ensures var k := if key.Some? then key.value else DefaultSrc;
      && (ImgSrc(img, key).Ok? <==> k in img.srcSet)
      && (ImgSrc(img, key).Ok? ==>
          var r := ImgSrc(img, key).value;
          && (r == img.srcSet[k] || r == img.dataSrc)
          && (StartsWith(img.srcSet[k], "http") ==> r == img.srcSet[k])
          && (StartsWith(img.srcSet[k], "http") || StartsWith(img.dataSrc, "http") ==> StartsWith(r, "http")))
  {
  }

  /** `f'{self.alt}'`: a missing alt prints as None. */
  function AltText(alt: Option<string>): string {
    if alt.Some? then alt.value else "None"
  }

  /** `Img.md_format(src_key=…)` */
  function ImgMd(img: Img, key: Option<string>): (r: Result<string, CrawlError>)
    ensures r.Err? ==> r.error.KeyError?
    ensures r.Ok? <==> ImgSrc(img, key).Ok?
    ensures r.Ok? ==> StartsWith(r.value, "![" + AltText(img.alt) + "](") && EndsWith(r.value, ImgSrc(img, key).value + ")")
  {
    var s := ImgSrc(img, key);
    if s.Err? then Err(s.error)
    else
      var r := "![" + AltText(img.alt) + "](" + s.value + ")";
      assert r == ("![" + AltText(img.alt) + "](") + (s.value + ")");
      Ok(r)
  }

  const BlackNames: set<string> := {"style", "script", "sup", "rp", "rt"}
  const WhiteNames: set<string> := {"div", "p", "span", "hr", "h2", "h3", "a", "ruby", "rb"}
  const BlackClasses: set<string> := {"btn", "desc-color", "wiki-bot"}
  const ListNames: set<string> := {"ul", "li"}
  const TableNames: set<string> := {"table", "thead", "tbody", "tr", "th", "td"}

  /** The blocks the crawler builds; a plain Python string is `Str`. */
  datatype Node =
    | Str(s: string)
    | Txt(cls: TextClass, text: string)
    | Image(img: Img)
    | Block(name: string, children: seq<Node>)
    | UL(name: string, children: seq<Node>, leader: string)
    | Tbl(name: string, children: seq<Node>, colspan: int, rowspan: int)

  /** Python truthiness: empty strings are false, objects are true. */
  predicate Truthy(n: Node) {
    match n
    case Str(s) => s != ""
    case Txt(_, t) => t != ""
    case _ => true
  }

  /** `filter(None, contents)` */
  function Keep(cs: seq<Node>): seq<Node> {
    if cs == [] then [] else (if Truthy(cs[0]) then [cs[0]] else []) + Keep(cs[1..])
  }

  /** The filter keeps exactly the truthy children, in order. */
  lemma KeepSpec(cs: seq<Node>)
    ensures forall k :: 0 <= k < |Keep(cs)| ==> Truthy(Keep(cs)[k])
    ensures forall c :: c in cs && Truthy(c) ==> c in Keep(cs)
    ensures forall c :: c in Keep(cs) ==> c in cs
    ensures (forall k :: 0 <= k < |cs| ==> Truthy(cs[k])) ==> Keep(cs) == cs
  {
    KeepTruthy(cs);
    forall c ensures c in Keep(cs) <==> c in cs && Truthy(c) {
      KeepMember(cs, c);
    }
    if forall k :: 0 <= k < |cs| ==> Truthy(cs[k]) {
      KeepAllTruthy(cs);
    }
  }

  lemma {:induction false} KeepTruthy(cs: seq<Node>)
    ensures forall k :: 0 <= k < |Keep(cs)| ==> Truthy(Keep(cs)[k])
  {
    if cs != [] {
      KeepTruthy(cs[1..]);
      var head := if Truthy(cs[0]) then [cs[0]] else [];
      assert Keep(cs) == head + Keep(cs[1..]);
    }
  }

  lemma {:induction false} KeepMember(cs: seq<Node>, c: Node)
    ensures c in Keep(cs) <==> c in cs && Truthy(c)
  {
    if cs != [] {
      KeepMember(cs[1..], c);
      var head := if Truthy(cs[0]) then [cs[0]] else [];
      assert Keep(cs) == head + Keep(cs[1..]);
      assert c in cs <==> c == cs[0] || c in cs[1..];
    }
  }

  lemma {:induction false} KeepAllTruthy(cs: seq<Node>)
    requires forall k :: 0 <= k < |cs| ==> Truthy(cs[k])
    ensures Keep(cs) == cs
  {
    if cs != [] {
      assert Truthy(cs[0]);
      assert forall k :: 0 <= k < |cs| - 1 ==> cs[1..][k] == cs[k + 1];
      KeepAllTruthy(cs[1..]);
      assert cs == [cs[0]] + cs[1..];
    }
  }

  /**
   * The name and class checks of `GeneralBlock.__init__` against a white list.
   * The KeyError's message is simplified to the name: the source appends
   * `str(classes)`, the repr of the class tuple.
   */
  function BlockCheck(name: string, classes: seq<string>, white: set<string>): (e: Option<CrawlError>)
    ensures e.None? <==> name !in BlackNames && (forall c :: c in classes ==> c !in BlackClasses) && name in white
  {
    if name in BlackNames || exists c :: c in classes && c in BlackClasses then Some(KeyError(name))
    else if name !in white then Some(AssertionError(name))
    else None
  }

  /** `GeneralBlock(name, contents, classes)` */
  function NewBlock(name: string, contents: seq<Node>, classes: seq<string>): (r: Result<Node, CrawlError>)
    ensures r.Ok? <==> name in WhiteNames && name !in BlackNames && forall c :: c in classes ==> c !in BlackClasses
    ensures r.Ok? ==> r.value.Block? && r.value.name == name && forall k :: 0 <= k < |r.value.children| ==> Truthy(r.value.children[k])
  {
    KeepTruthy(contents);
    var e := BlockCheck(name, classes, WhiteNames);
    if e.Some? then Err(e.value) else Ok(Block(name, Keep(contents)))
  }

  /** `UList(name, contents, leader)` */
  function NewUList(name: string, contents: seq<Node>, leader: string): Result<Node, CrawlError> {
    var e := BlockCheck(name, [], ListNames);
    if e.Some? then Err(e.value) else Ok(UL(name, Keep(contents), leader))
  }

  /** `Table(name, contents, class=…, colspan=…, rowspan=…)` */
  function NewTable(name: string, contents: seq<Node>, classes: seq<string>, colspan: int, rowspan: int): Result<Node, CrawlError> {
    var e := BlockCheck(name, classes, TableNames);
    if e.Some? then Err(e.value) else Ok(Tbl(name, Keep(contents), colspan, rowspan))
  }

  /**
   * A black-listed name or class is a KeyError before the white list is
   * consulted; a name off the white list is an AssertionError; otherwise the
   * block holds the truthy children.
   */
  lemma NewBlockChecks(name: string, contents: seq<Node>, classes: seq<string>)
    ensures (name in BlackNames || exists c :: c in classes && c in BlackClasses) <==> NewBlock(name, contents, classes) == Err(KeyError(name))
    ensures name !in BlackNames && (forall c :: c in classes ==> c !in BlackClasses) && name !in WhiteNames
      <==> NewBlock(name, contents, classes) == Err(AssertionError(name))
    ensures NewBlock(name, contents, classes).Ok? ==> NewBlock(name, contents, classes).value.children == Keep(contents)
  {
  }

  /** The keyword arguments of `md_format` the renderers read. */
  datatype Fmt = Fmt(lineBreak: Option<string>, level: Option<int>, srcKey: Option<string>)

  function LineBreak(f: Fmt): string {
    if f.lineBreak.Some? then f.lineBreak.value else ""
  }

  function Size(n: Node): (z: nat)
    ensures z >= 1
  {
    match n
    case Block(_, cs) => 1 + SizeAll(cs)
    case UL(_, cs, _) => 1 + SizeAll(cs)
    case Tbl(_, cs, _, _) => 1 + SizeAll(cs)
    case _ => 1
  }

  function SizeAll(cs: seq<Node>): (z: nat)
    ensures z >= 1
    decreases cs
  {
    if cs == [] then 1 else Size(cs[0]) + SizeAll(cs[1..])
  }

  /**
   * `md_format(**kwargs)` of a block, or `str` of a plain string. A crawled
   * 'table' renders empty: its `__init__` runs `iter_children` over the very
   * generator its `filter` wraps, so nothing is left to join. Nested
   * sections and cells are walked through their own `__iter__`, which tees,
   * and keep their children.
   */
  function Md(n: Node, f: Fmt, font: string -> string): (r: Result<string, CrawlError>)
    ensures r.Err? ==> r.error.KeyError?
    ensures n.Str? || n.Txt? ==> r.Ok?
    ensures n.Tbl? && n.name == "table" ==> r == Ok("")
    decreases Size(n), 2
  {
    match n
    case Str(s) => Ok(s)
    case Txt(c, t) => Ok(TextMd(c, t, f.level, font))
    case Image(img) => ImgMd(img, f.srcKey)
    case Block(_, cs) => JoinedMd(cs, f, font)
    case Tbl(name, cs, _, _) => if name == "table" then Ok("") else JoinedMd(cs, f, font)
    case UL(name, cs, leader) =>
      if name == "ul" then
        var parts := MdAll(cs, f, font);
        if parts.Err? then Err(parts.error) else Ok(Join(TwoSpaced(parts.value), "\n"))
      else if name == "li" then
        var body := JoinedMd(cs, f, font);
        if body.Err? then body else Ok(leader + " " + body.value)
      else JoinedMd(cs, f, font)
  }

  /** `GeneralBlock.md_format`: the children rendered without `line_break`, joined by it. */
  function JoinedMd(cs: seq<Node>, f: Fmt, font: string -> string): (r: Result<string, CrawlError>)
    ensures r.Err? ==> r.error.KeyError?
    decreases SizeAll(cs), 1
  {
    var parts := MdAll(cs, f.(lineBreak := None), font);
    if parts.Err? then Err(parts.error) else Ok(Join(parts.value, LineBreak(f)))
  }

  /** The children rendered in order; the first failure is the result. */
  function MdAll(cs: seq<Node>, f: Fmt, font: string -> string): (r: Result<seq<string>, CrawlError>)
    ensures r.Ok? ==> |r.value| == |cs|
    ensures r.Err? ==> r.error.KeyError?
    decreases SizeAll(cs), 0
  {
    if cs == [] then Ok([])
    else
      var h := Md(cs[0], f, font);
      if h.Err? then Err(h.error)
      else
        var t := MdAll(cs[1..], f, font);
        if t.Err? then Err(t.error) else Ok([h.value] + t.value)
  }

  function TwoSpaced(parts: seq<string>): (r: seq<string>)
    ensures |r| == |parts| && forall k :: 0 <= k < |r| ==> r[k] == parts[k] + "  "
  {
    seq(|parts|, k requires 0 <= k < |parts| => parts[k] + "  ")
  }

  /** Each rendered child is the rendering of the child at the same place. */
  lemma {:induction false} MdAllEach(cs: seq<Node>, f: Fmt, font: string -> string)
    requires MdAll(cs, f, font).Ok?
    ensures forall k :: 0 <= k < |cs| ==> Md(cs[k], f, font) == Ok(MdAll(cs, f, font).value[k])
    decreases |cs|
  {
    if cs != [] {
      MdAllEach(cs[1..], f, font);
      assert forall k :: 1 <= k < |cs| ==> cs[k] == cs[1..][k - 1];
    }
  }

  /**
   * A general block rendered with a one-character `line_break` that no child
   * rendering holds splits back on it into its children's renderings.
   */
  lemma BlockLines(name: string, cs: seq<Node>, c: char, f: Fmt, font: string -> string)
    requires cs != [] && f.lineBreak == Some([c])
    requires MdAll(cs, f.(lineBreak := None), font).Ok?
    requires forall k :: 0 <= k < |cs| ==> c !in MdAll(cs, f.(lineBreak := None), font).value[k]
    ensures Md(Block(name, cs), f, font).Ok?
    ensures var parts := MdAll(cs, f.(lineBreak := None), font).value;
      && Split(Md(Block(name, cs), f, font).value, c) == parts
      && forall k :: 0 <= k < |cs| ==> Md(cs[k], f.(lineBreak := None), font) == Ok(parts[k])
  {
    var parts := MdAll(cs, f.(lineBreak := None), font).value;
    JoinSplit(parts, c);
    MdAllEach(cs, f.(lineBreak := None), font);
  }

  /**
   * A `ul` renders one line per child, each the child's rendering with the
   * same arguments plus two spaces, so it splits back on '\n' when no child
   * rendering holds a newline.
   */
  lemma ListLines(cs: seq<Node>, leader: string, f: Fmt, font: string -> string)
    requires cs != [] && MdAll(cs, f, font).Ok?
    requires forall k :: 0 <= k < |cs| ==> '\n' !in MdAll(cs, f, font).value[k]
    ensures Md(UL("ul", cs, leader), f, font).Ok?
    ensures var lines := Split(Md(UL("ul", cs, leader), f, font).value, '\n');
      && |lines| == |cs|
      && forall k :: 0 <= k < |cs| ==> Md(cs[k], f, font).Ok? && lines[k] == Md(cs[k], f, font).value + "  "
  {
    var parts := MdAll(cs, f, font).value;
    var lines := TwoSpaced(parts);
    forall k | 0 <= k < |lines| ensures '\n' !in lines[k] {
      assert lines[k] == parts[k] + "  ";
    }
    JoinSplit(lines, '\n');
    MdAllEach(cs, f, font);
  }

  /** A `li` renders its leader, a space, then its content as a general block. */
  lemma ItemLeader(cs: seq<Node>, leader: string, f: Fmt, font: string -> string)
    ensures Md(UL("li", cs, leader), f, font).Ok? <==> JoinedMd(cs, f, font).Ok?
    ensures Md(UL("li", cs, leader), f, font).Ok? ==>
      && StartsWith(Md(UL("li", cs, leader), f, font).value, leader + " ")
      && RemovePrefix(Md(UL("li", cs, leader), f, font).value, leader + " ") == JoinedMd(cs, f, font).value
  {
    if JoinedMd(cs, f, font).Ok? {
      var r := leader + " " + JoinedMd(cs, f, font).value;
      assert r[..|leader + " "|] == leader + " ";
    }
  }

  /** `isinstance(block, UList) and block.__name__ == 'li'` */
  predicate IsLi(n: Node) {
    n.UL? && n.name == "li"
  }

  /** A run of consecutive `li` blocks, or one other block. */
  datatype Group = Run(lis: seq<Node>) | Single(block: Node)

  /** One more block: it extends a trailing run when it is an `li`, else it stands alone. */
  function Step(g: seq<Group>, b: Node): seq<Group> {
    if !IsLi(b) then g + [Single(b)]
    else if g != [] && g[|g| - 1].Run? then g[..|g| - 1] + [Run(g[|g| - 1].lis + [b])]
    else g + [Run([b])]
  }

  /** The groups `list_collect` forms, built block by block from the left. */
  function Groups(bs: seq<Node>): (r: seq<Group>)
    ensures |r| <= |bs|
    ensures r == [] <==> bs == []
    decreases |bs|
  {
    if bs == [] then [] else Step(Groups(bs[..|bs| - 1]), bs[|bs| - 1])
  }

  lemma GroupsSnoc(bs: seq<Node>, b: Node)
    ensures Groups(bs + [b]) == Step(Groups(bs), b)
  {
    assert (bs + [b])[..|bs|] == bs;
  }

  /** `cls('ul', lis)` for a run, the block itself otherwise. */
  function Emit(g: Group): Node {
    match g
    case Run(lis) => UL("ul", Keep(lis), "+")
    case Single(b) => b
  }

  function EmitAll(gs: seq<Group>): seq<Node> {
    seq(|gs|, k requires 0 <= k < |gs| => Emit(gs[k]))
  }

  lemma EmitAllSnoc(gs: seq<Group>, g: Group)
    ensures EmitAll(gs + [g]) == EmitAll(gs) + [Emit(g)]
  {
  }

  /** What `list_collect(blocks)` yields. */
  function Collect(bs: seq<Node>): (r: seq<Node>)
    ensures |r| <= |bs|
    ensures r == [] <==> bs == []
  {
    EmitAll(Groups(bs))
  }

  function Part(g: Group): seq<Node> {
    if g.Run? then g.lis else [g.block]
  }

  function Flatten(gs: seq<Group>): seq<Node>
    decreases |gs|
  {
    if gs == [] then [] else Flatten(gs[..|gs| - 1]) + Part(gs[|gs| - 1])
  }

  lemma FlattenSnoc(gs: seq<Group>, g: Group)
    ensures Flatten(gs + [g]) == Flatten(gs) + Part(g)
  {
    assert (gs + [g])[..|gs|] == gs;
  }

  /** A run is a non-empty sequence of `li` blocks and a single is any other block. */
  predicate GroupShaped(g: Group) {
    match g
    case Run(lis) => lis != [] && forall k :: 0 <= k < |lis| ==> IsLi(lis[k])
    case Single(b) => !IsLi(b)
  }

  /** Every group is shaped, and no two runs are adjacent, so each run is maximal. */
  ghost predicate WellGrouped(gs: seq<Group>) {
    && (forall k :: 0 <= k < |gs| ==> GroupShaped(gs[k]))
    && (forall i, j :: 0 <= i < j < |gs| && j == i + 1 ==> !(gs[i].Run? && gs[j].Run?))
  }

  lemma StepSingle(g: seq<Group>, b: Node)
    requires WellGrouped(g) && !IsLi(b)
    ensures WellGrouped(Step(g, b)) && Flatten(Step(g, b)) == Flatten(g) + [b]
  {
    FlattenSnoc(g, Single(b));
    AppendGroup(g, Single(b));
  }

  lemma StepNewRun(g: seq<Group>, b: Node)
    requires WellGrouped(g) && IsLi(b) && (g == [] || !g[|g| - 1].Run?)
    ensures WellGrouped(Step(g, b)) && Flatten(Step(g, b)) == Flatten(g) + [b]
  {
    FlattenSnoc(g, Run([b]));
    AppendGroup(g, Run([b]));
  }

  /** Appending a shaped group keeps the grouping well formed unless it puts two runs side by side. */
  lemma AppendGroup(g: seq<Group>, x: Group)
    requires WellGrouped(g) && GroupShaped(x)
    requires x.Run? ==> g == [] || !g[|g| - 1].Run?
    ensures WellGrouped(g + [x])
  {
    var r := g + [x];
    forall k | 0 <= k < |r| ensures GroupShaped(r[k]) {
      if k < |g| {
        assert r[k] == g[k];
      }
    }
    forall i, j | 0 <= i < j < |r| && j == i + 1 ensures !(r[i].Run? && r[j].Run?) {
      assert r[i] == g[i];
      if j < |g| {
        assert r[j] == g[j];
      }
    }
  }

  lemma StepExtend(g: seq<Group>, b: Node)
    requires WellGrouped(g) && IsLi(b) && g != [] && g[|g| - 1].Run?
    ensures WellGrouped(Step(g, b)) && Flatten(Step(g, b)) == Flatten(g) + [b]
  {
    var h := g[..|g| - 1];
    var last := g[|g| - 1];
    assert g == h + [last];
    assert Step(g, b) == h + [Run(last.lis + [b])];
    ExtendFlatten(h, last.lis, b);
    assert GroupShaped(last);
    RunExtendShaped(last.lis, b);
    ReplaceLastRun(h, last, Run(last.lis + [b]));
  }

  lemma ExtendFlatten(h: seq<Group>, lis: seq<Node>, b: Node)
    ensures Flatten(h + [Run(lis + [b])]) == Flatten(h + [Run(lis)]) + [b]
  {
    FlattenSnoc(h, Run(lis));
    FlattenSnoc(h, Run(lis + [b]));
  }

  lemma RunExtendShaped(lis: seq<Node>, b: Node)
    requires GroupShaped(Run(lis)) && IsLi(b)
    ensures GroupShaped(Run(lis + [b]))
  {
    var l := lis + [b];
    forall k | 0 <= k < |l| ensures IsLi(l[k]) {
      if k < |lis| {
        assert l[k] == lis[k];
      }
    }
  }

  lemma ReplaceLastRun(h: seq<Group>, last: Group, run: Group)
    requires WellGrouped(h + [last]) && last.Run? && run.Run? && GroupShaped(run)
    ensures WellGrouped(h + [run])
  {
    var g := h + [last];
    var r := h + [run];
    forall k | 0 <= k < |r| ensures GroupShaped(r[k]) {
      if k < |h| {
        assert r[k] == g[k];
      }
    }
    forall i, j | 0 <= i < j < |r| && j == i + 1 ensures !(r[i].Run? && r[j].Run?) {
      assert r[i] == g[i];
      if j < |h| {
        assert r[j] == g[j];
      } else {
        assert g[j] == last;
      }
    }
  }

  /**
   * The groups put back together are the input in order; every run is
   * non-empty and all `li`; every other block stands alone; and no two runs
   * are adjacent, so each run is maximal.
   */
  lemma {:induction false} GroupsSpec(bs: seq<Node>)
    ensures Flatten(Groups(bs)) == bs
    ensures WellGrouped(Groups(bs))
    decreases |bs|
  {
    if bs != [] {
      var init := bs[..|bs| - 1];
      var b := bs[|bs| - 1];
      GroupsSpec(init);
      var g := Groups(init);
      assert bs == init + [b];
      GroupsSnoc(init, b);
      StepSpec(g, b);
    }
  }

  /** One step keeps the grouping well formed and puts the block back at the end. */
  lemma StepSpec(g: seq<Group>, b: Node)
    requires WellGrouped(g)
    ensures WellGrouped(Step(g, b)) && Flatten(Step(g, b)) == Flatten(g) + [b]
  {
    if !IsLi(b) {
      StepSingle(g, b);
    } else if g != [] && g[|g| - 1].Run? {
      StepExtend(g, b);
    } else {
      StepNewRun(g, b);
    }
  }

  /** `list_collect` never yields an empty `ul`, and what it yields holds no top-level `li`. */
  lemma CollectShape(bs: seq<Node>)
    ensures forall k :: 0 <= k < |Collect(bs)| ==> !IsLi(Collect(bs)[k])
    ensures forall k :: 0 <= k < |Groups(bs)| && Groups(bs)[k].Run? ==>
      Collect(bs)[k] == UL("ul", Groups(bs)[k].lis, "+") && Groups(bs)[k].lis != []
  {
    GroupsSpec(bs);
    forall k | 0 <= k < |Collect(bs)| ensures !IsLi(Collect(bs)[k]) {
      assert GroupShaped(Groups(bs)[k]);
    }
    forall k | 0 <= k < |Groups(bs)| && Groups(bs)[k].Run?
      ensures Collect(bs)[k] == UL("ul", Groups(bs)[k].lis, "+")
    {
      var lis := Groups(bs)[k].lis;
      assert GroupShaped(Groups(bs)[k]);
      KeepSpec(lis);
    }
  }

  /** The generator as it runs: li blocks gather in `lis`, which is flushed as one `ul`. */
  method ListCollect(blocks: seq<Node>) returns (out: seq<Node>)
    ensures out == Collect(blocks)
  {
    out := [];
    var lis: seq<Node> := [];
    ghost var done: seq<Group> := [];
    var i := 0;
    while i < |blocks|
      invariant 0 <= i <= |blocks|
      invariant out == EmitAll(done)
      invariant Groups(blocks[..i]) == done + Pending(lis)
      invariant done == [] || done[|done| - 1].Single?
    {
      var block := blocks[i];
      LoopStep(blocks, i, done, lis, out);
      if IsLi(block) {
        lis := lis + [block];
      } else {
        out := out + FlushOut(lis) + [block];
        done := done + Pending(lis) + [Single(block)];
        lis := [];
      }
      i := i + 1;
    }
    assert blocks[..i] == blocks;
    CollectEnd(blocks, done, lis, out);
    out := out + FlushOut(lis);
  }

  /** At the end of the loop, flushing the pending run completes `list_collect`. */
  lemma CollectEnd(blocks: seq<Node>, done: seq<Group>, lis: seq<Node>, out: seq<Node>)
    requires out == EmitAll(done) && Groups(blocks) == done + Pending(lis)
    ensures out + FlushOut(lis) == Collect(blocks)
  {
    Flushed(done, lis, out);
  }

  /** What flushing the pending run emits: one `ul` of its truthy blocks, or nothing when it is empty. */
  function FlushOut(lis: seq<Node>): seq<Node> {
    if lis != [] then [UL("ul", Keep(lis), "+")] else []
  }

  lemma Flushed(done: seq<Group>, lis: seq<Node>, out: seq<Node>)
    requires out == EmitAll(done)
    ensures EmitAll(done + Pending(lis)) == out + FlushOut(lis)
  {
    if lis != [] {
      EmitAllSnoc(done, Run(lis));
    } else {
      assert done + Pending(lis) == done;
    }
  }

  /** One turn of the `list_collect` loop keeps its invariant. */
  lemma LoopStep(blocks: seq<Node>, i: nat, done: seq<Group>, lis: seq<Node>, out: seq<Node>)
    requires i < |blocks| && out == EmitAll(done) && Groups(blocks[..i]) == done + Pending(lis)
    requires done == [] || done[|done| - 1].Single?
    ensures IsLi(blocks[i]) ==> Groups(blocks[..i + 1]) == done + Pending(lis + [blocks[i]])
    ensures !IsLi(blocks[i]) ==>
      var d := done + Pending(lis) + [Single(blocks[i])];
      && out + FlushOut(lis) + [blocks[i]] == EmitAll(d)
      && Groups(blocks[..i + 1]) == d + Pending([])
      && d[|d| - 1].Single?
  {
    CollectStep(blocks, i, done, lis);
    if !IsLi(blocks[i]) {
      Flushed(done, lis, out);
      EmitAllSnoc(done + Pending(lis), Single(blocks[i]));
    }
  }

  lemma CollectStep(blocks: seq<Node>, i: nat, done: seq<Group>, lis: seq<Node>)
    requires i < |blocks| && Groups(blocks[..i]) == done + Pending(lis)
    requires done == [] || done[|done| - 1].Single?
    ensures IsLi(blocks[i]) ==> Groups(blocks[..i + 1]) == done + Pending(lis + [blocks[i]])
    ensures !IsLi(blocks[i]) ==> Groups(blocks[..i + 1]) == done + Pending(lis) + [Single(blocks[i])]
  {
    GroupsPrefix(blocks, i);
    PendingStep(done, lis, blocks[i]);
  }

  /** One more block of the prefix is one more step. */
  lemma GroupsPrefix(blocks: seq<Node>, i: nat)
    requires i < |blocks|
    ensures Groups(blocks[..i + 1]) == Step(Groups(blocks[..i]), blocks[i])
  {
    var p := blocks[..i + 1];
    assert p[..|p| - 1] == blocks[..i] && p[|p| - 1] == blocks[i];
  }

  lemma PendingStep(done: seq<Group>, lis: seq<Node>, b: Node)
    requires done == [] || done[|done| - 1].Single?
    ensures IsLi(b) ==> Step(done + Pending(lis), b) == done + Pending(lis + [b])
    ensures !IsLi(b) ==> Step(done + Pending(lis), b) == done + Pending(lis) + [Single(b)]
  {
    var g := done + Pending(lis);
    if IsLi(b) {
      if lis != [] {
        assert g[..|g| - 1] == done && g[|g| - 1] == Run(lis);
        assert Step(g, b) == done + [Run(lis + [b])];
      } else {
        assert g == done;
        assert Step(g, b) == done + [Run([b])];
        assert lis + [b] == [b];
      }
    }
  }

  /** The run gathered so far, as the group it will become. */
  function Pending(lis: seq<Node>): seq<Group> {
    if lis == [] then [] else [Run(lis)]
  }
}
