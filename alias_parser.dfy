/**
 * The crawl-page parser of a hero (`BiligameParser` in `sgs/parser.py`, and
 * the same methods inside the older hero record `sgs/hero.py`): an
 * alias-matching state machine that stores the line after an alias line into
 * the aliased field, a header pass that finds the title, a module pass over
 * nested blocks, tables and pictures, and the one shared `Anchor`, whose
 * context raises a nesting level around each block and opens a nested list
 * for each matching section.
 *
 * Python lists are shared by reference here: an anchor's stack is the very
 * list a hero field holds, and a nested section's list is appended into its
 * parent. The model keeps every list in `lists`, addressed by its index, and
 * a field or a stack holds `VList(index)`.
 */
module AliasParser {
  import opened Wrappers
  import opened PyText
  import Crawler
  import HeroRecord
  import LegacyHero

  /** The mixin of `sgs/parser.py`, or the copy inside the older `Hero`. */
  datatype Variant = Mixin | Legacy

  /** A crawled item as the parse methods look at it. */
  datatype Line =
    | Plain(text: string)                                            // a str
    | Named(name: string, text: string)                              // a Text and its `__name__`
    | Block(classes: seq<string>, lines: seq<Line>)                  // any GeneralBlock but a 'table'
    | Table(headers: seq<Cell>, records: seq<Row>)                   // a GeneralBlock named 'table'
    | Picture(img: Crawler.Img)

  /** A table cell's contents, and a table row's cells. */
  datatype Cell = Cell(lines: seq<Line>)
  datatype Row = Row(cells: seq<Cell>)

  const TitleTag: string := "武将称号"
  const TitlePrefix: string := "武将称号："
  const PackName: string := "pack"
  const Jie: string := "界"
  const HistoryTag: string := "历史版本"
  const PortraitTag: string := "形象"

  /** The `val_trans` of a field: none, `int`, or one of the two `Camp.get_value`s. */
  datatype Trans = AsIs | ToInt | CampByName | CampByFirst

  /**
   * The `alias` metadata of a field: one string, or a tuple of strings, which
   * `alias_mapper` keeps as its key unchanged.
   */
  datatype Alias = One(text: string) | Many(texts: seq<string>)

  /** A field with an `alias`, in field order, with its metadata; no sections is `sections` []. */
  datatype AliasField = AliasField(alias: Alias, name: string, trans: Trans, anchorNum: int, sections: seq<string>)

  /** A field value; a list is the index of its contents in `lists`. */
  datatype Value = VNone | VStr(s: string) | VInt(i: int) | VCamp(c: HeroRecord.Camp) | VList(id: nat)

  /** The pending key: the portrait's author, or an aliased field. */
  datatype Key = AuthorKey | FieldKey(fd: AliasField)

  /** The attributes of the shared anchor. */
  datatype AnchorState = AnchorState(level: int, stack: Value, sections: seq<string>, secIdx: int, running: bool)

  /** The `search_ver` attribute: absent, or set. */
  datatype SearchVer = NoSearchVer | SearchVer(on: bool)

  /**
   * The parser's state: `pack` and `skillVer` are the hero's pack and
   * `biligame_skill_ver`; `key`, `hitAlias` and `hasAnchor` are the three
   * attributes `clear_alias_key` deletes; `anchor` is the shared instance,
   * None until its `__init__` first runs.
   */
  datatype PState = PState(
    pack: string,
    skillVer: string,
    fields: map<string, Value>,
    lists: seq<seq<Value>>,
    title: string,
    image: Option<Crawler.Img>,
    key: Option<Key>,
    hitAlias: Option<string>,
    hasAnchor: bool,
    anchor: Option<AnchorState>,
    searchVer: SearchVer)

  datatype ParseError = AttributeError(attr: string) | ValueError | TypeError | IndexError

  /** The state after a call and the exception it raised, if any. */
  datatype PR = PR(st: PState, err: Option<ParseError>)

  // ----- the shared anchor -----

  /** `Anchor.__init__(level, stack, sections)` */
  function NewAnchor(level: int, stack: Value, sections: seq<string>): (a: AnchorState)
    ensures a.level == level && a.stack == stack && a.sections == sections && a.running
    ensures a.secIdx == 0 <==> sections != []
    ensures a.secIdx == -1 <==> sections == []
  {
    AnchorState(level, stack, sections, if sections != [] then 0 else -1, true)
  }

  /** `Anchor()` */
  const DefaultAnchor: AnchorState := NewAnchor(-1, VNone, [])

  /** What entering the context did: whether the exit code will run, and the stack it will restore. */
  datatype Ent = Ent(st: PState, err: Option<ParseError>, active: bool, ori: Option<nat>)

  /**
   * Entering `anchor(classes, cf)`: when running at a level >= 0 the level
   * goes up by one, and when the current section is among the block's classes
   * a new list becomes the stack, appended to the old one.
   */
  function Entered(st: PState, classes: seq<string>): (r: Ent)
    ensures st.anchor.None? ==> r.err == Some(AttributeError("running")) && !r.active
    ensures r.st.fields == st.fields && r.st.key == st.key && r.st.hitAlias == st.hitAlias
    ensures |r.st.lists| >= |st.lists| && r.st.anchor.Some? == st.anchor.Some?
    ensures r.ori.Some? ==> r.ori.value < |st.lists|
    ensures st.anchor.Some? && st.anchor.value.running && st.anchor.value.level >= 0 ==>
      r.active && r.st.anchor.value.level == st.anchor.value.level + 1
  {
    match st.anchor
    case None => Ent(st, Some(AttributeError("running")), false, None)
    case Some(a) =>
      if !a.running then Ent(st, None, false, None)
      else if a.level < 0 then Ent(st, None, true, None)
      else
        var a1 := a.(level := a.level + 1);
        if 0 <= a1.secIdx < |a1.sections| && a1.sections[a1.secIdx] in classes then
          var n := |st.lists|;
          var lists1 := st.lists + [[]];
          var a2 := a1.(stack := VList(n));
          if a1.stack.VList? && a1.stack.id < n then
            var id := a1.stack.id;
            Ent(st.(lists := lists1[id := lists1[id] + [VList(n)]], anchor := Some(a2.(secIdx := a2.secIdx + 1))), None, true, Some(id))
          else Ent(st.(lists := lists1, anchor := Some(a2)), Some(AttributeError("append")), true, None)
        else Ent(st.(anchor := Some(a1)), None, true, None)
  }

  /**
   * Leaving the context: at a level >= 0 the level goes down by one, the
   * stack saved on entry comes back, and a level below 0 calls back
   * `clear_alias_key`.
   */
  function Exited(st: PState, ori: Option<nat>): (r: PR)
    ensures r.st.lists == st.lists && r.st.fields == st.fields
    ensures st.anchor.Some? && st.anchor.value.level >= 1 ==>
      r.err.None? && r.st.anchor.Some? && r.st.anchor.value.level == st.anchor.value.level - 1
    ensures st.anchor.Some? && st.anchor.value.level == 0 ==> r.st.key.None?
  {
    match st.anchor
    case None => PR(st, None)
    case Some(a) =>
      if a.level < 0 then PR(st, None)
      else
        var a1 := a.(level := a.level - 1);
        var a2 := if ori.Some? && ori.value < |st.lists| && st.lists[ori.value] != [] then a1.(stack := VList(ori.value), secIdx := a1.secIdx - 1) else a1;
        var st1 := st.(anchor := Some(a2));
        if a2.level < 0 then Cleared(st1) else PR(st1, None)
  }

  // ----- the alias state machine -----

  /** `clear_alias_key()`: `del self.key, self.hit_alias, self.anchor`, one after the other. */
  function Cleared(st: PState): (r: PR)
    ensures r.err.None? <==> st.key.Some? && st.hitAlias.Some? && st.hasAnchor
    ensures r.st.key.None? && r.st.lists == st.lists && r.st.fields == st.fields
    ensures r.err.None? ==> r.st.hitAlias.None? && !r.st.hasAnchor
  {
    if st.key.None? then PR(st, Some(AttributeError("key")))
    else if st.hitAlias.None? then PR(st.(key := None), Some(AttributeError("hit_alias")))
    else if !st.hasAnchor then PR(st.(key := None, hitAlias := None), Some(AttributeError("anchor")))
    else PR(st.(key := None, hitAlias := None, hasAnchor := false), None)
  }

  /** `int(s)` for an optional sign and ASCII digits. */
  function PyInt(s: string): (r: Option<int>)
    ensures r.Some? ==> s != [] && (r.value < 0 ==> s[0] == '-')
    ensures s == "+" || s == "-" || s == "" ==> r.None?
  {
    if s != [] && (s[0] == '+' || s[0] == '-') then
      var d := s[1..];
      if d != [] && AllDigits(d) then
        var n: int := DigitsValue(d);
        Some(if s[0] == '-' then -n else n)
      else None
    else if s != [] && AllDigits(s) then Some(DigitsValue(s))
    else None
  }

  /** `str(n)` */
  function IntToString(n: int): string {
    if n < 0 then "-" + NatToString(-n) else NatToString(n)
  }

  /** `int(str(n)) == n` */
  lemma PyIntRoundTrip(n: int)
    ensures PyInt(IntToString(n)) == Some(n)
  {
    if n < 0 {
      DigitsRoundTrip(-n);
      assert IntToString(n)[1..] == NatToString(-n);
    } else {
      DigitsRoundTrip(n);
    }
  }

  /** The field's `val_trans` applied to a line. */
  function Transformed(t: Trans, s: string): (r: Result<Value, ParseError>)
    ensures t == AsIs ==> r == Ok(VStr(s))
    ensures t == CampByName || t == CampByFirst ==> r.Ok? ==> r.value.VCamp?
    ensures r.Err? ==> (t == ToInt && r.error == ValueError) || (t == CampByFirst && s == [] && r.error == IndexError)
  {
    match t
    case AsIs => Ok(VStr(s))
    case ToInt => if PyInt(s).Some? then Ok(VInt(PyInt(s).value)) else Err(ValueError)
    case CampByName => Ok(VCamp(LegacyHero.GetValue(s)))
    case CampByFirst => if s == [] then Err(IndexError) else Ok(VCamp(HeroRecord.GetValue(s).value))
  }

  /**
   * Setting the portrait's author: the older hero writes `self.image.author`,
   * which fails without an image; the mixin calls `set_image_author`, which
   * its host in `sgs/heros/hero.py` skips without an image.
   */
  function AuthorSet(v: Variant, st: PState, s: string): PR {
    match st.image
    case Some(img) => PR(st.(image := Some(img.(author := Some(s)))), None)
    case None => if v == Mixin then PR(st, None) else PR(st, Some(AttributeError("author")))
  }

  /** `alias in sline` came out False: the alias is one string that does not occur in the line. */
  predicate Missed(a: Alias, s: string) {
    a.One? && !Contains(s, a.text)
  }

  /** The outcome of the loop over `alias_mapper`: a hit, no hit, or the TypeError of `tuple in str`. */
  datatype Scan = Found(i: nat) | NotFound | TupleInStr(at: nat)

  /**
   * The loop over the alias table in field order: it stops at the first
   * string alias that occurs in the line, and raises TypeError at the first
   * tuple alias it reaches before that.
   */
  function FirstAliasAt(al: seq<AliasField>, s: string): (r: Scan)
    ensures r.Found? ==> r.i < |al| && al[r.i].alias.One? && Contains(s, al[r.i].alias.text)
    ensures r.Found? ==> forall j :: 0 <= j < r.i ==> Missed(al[j].alias, s)
    ensures r.TupleInStr? ==> r.at < |al| && al[r.at].alias.Many? && forall j :: 0 <= j < r.at ==> Missed(al[j].alias, s)
    ensures r.NotFound? <==> forall j :: 0 <= j < |al| ==> Missed(al[j].alias, s)
  {
    if al == [] then NotFound
    else if al[0].alias.Many? then TupleInStr(0)
    else if Contains(s, al[0].alias.text) then Found(0)
    else
      match FirstAliasAt(al[1..], s)
      case Found(i) => Found(i + 1)
      case NotFound => NotFound
      case TupleInStr(i) => TupleInStr(i + 1)
  }

  /** `val` appended to the list `stack` names. */
  function Appended(st: PState, stack: Value, val: Value): PR {
    if stack.VList? && stack.id < |st.lists| then PR(st.(lists := st.lists[stack.id := st.lists[stack.id] + [val]]), None)
    else PR(st, Some(AttributeError("append")))
  }

  /** `alias_matcher(sline)` */
  function Matched(v: Variant, al: seq<AliasField>, st: PState, s: string): (r: PR)
    ensures st.hitAlias == Some(s) ==> r == PR(st, None)
    ensures st.key.None? && st.hitAlias != Some(s) ==> (r.err == Some(TypeError) <==> FirstAliasAt(al, s).TupleInStr?)
    ensures st.key.None? && st.hitAlias != Some(s) ==>
      (r.st.key.Some? <==> FirstAliasAt(al, s).Found?) && r.st.lists == st.lists && r.st.fields == st.fields
  {
    if st.hitAlias == Some(s) then PR(st, None)
    else match st.key
      case Some(AuthorKey) =>
        var r := AuthorSet(v, st, s);
        if r.err.Some? then r else Cleared(r.st)
      case Some(FieldKey(fd)) =>
        var t := Transformed(fd.trans, s);
        if t.Err? then PR(st, Some(t.error))
        else if st.hasAnchor && st.anchor.None? then PR(st, Some(AttributeError("level")))
        else if st.hasAnchor && st.anchor.value.level >= 0 then Appended(st, st.anchor.value.stack, t.value)
        else Cleared(st.(fields := st.fields[fd.name := t.value]))
      case None =>
        match FirstAliasAt(al, s)
        case NotFound => PR(st, None)
        case TupleInStr(_) => PR(st, Some(TypeError))
        case Found(i) =>
          var fd := al[i];
          var st1 := st.(key := Some(FieldKey(fd)), hitAlias := Some(s));
          if fd.name !in st.fields then PR(st1, Some(AttributeError(fd.name)))
          else PR(st1.(hasAnchor := true, anchor := Some(NewAnchor(fd.anchorNum, st.fields[fd.name], fd.sections))), None)
  }

  // ----- sizes for the nested passes -----

  function LSize(l: Line): (z: nat)
    ensures z >= 1
    decreases l
  {
    match l
    case Block(_, ls) => 1 + LSizeAll(ls)
    case Table(hs, rs) => 1 + CellsSize(hs) + RowsSize(rs)
    case _ => 1
  }

  function LSizeAll(ls: seq<Line>): (z: nat)
    ensures z >= 1
    decreases ls
  {
    if ls == [] then 1 else LSize(ls[0]) + LSizeAll(ls[1..])
  }

  function CellsSize(cs: seq<Cell>): (z: nat)
    ensures z >= 1
    decreases cs
  {
    if cs == [] then 1 else LSizeAll(cs[0].lines) + CellsSize(cs[1..])
  }

  function RowsSize(rs: seq<Row>): (z: nat)
    ensures z >= 1
    decreases rs
  {
    if rs == [] then 1 else CellsSize(rs[0].cells) + RowsSize(rs[1..])
  }

  // ----- parse_header -----

  /** The stripped text of a non-empty str line, if the line is one. */
  function Sline(l: Line): Option<string> {
    if (l.Plain? || l.Named?) && Strip(l.text) != "" then Some(Strip(l.text)) else None
  }

  predicate IsPackMarker(l: Line) {
    l.Named? && l.name == PackName
  }

  /** One header line: `stop` is the `return False` of a pack marker. */
  datatype HStep = HStep(st: PState, err: Option<ParseError>, skip: bool, stop: bool)

  function HeaderStep(v: Variant, al: seq<AliasField>, st: PState, l: Line, skip: bool): (r: HStep)
    ensures r.skip ==> skip
    decreases LSize(l), 0
  {
    if Sline(l).Some? then
      var sl := Sline(l).value;
      if Contains(sl, TitleTag) then HStep(st.(title := RemovePrefix(sl, TitlePrefix)), None, false, false)
      else if IsPackMarker(l) then HStep(st, None, false, true)
      else
        var r := Matched(v, al, st, sl);
        HStep(r.st, r.err, skip, false)
    else if l.Block? then
      assert LSizeAll(l.lines) < LSize(l);
      var r := HeaderFrom(v, al, st, l.lines, true);
      HStep(r.st, r.err, r.skip && skip, false)
    else HStep(st, None, skip, false)
  }

  /** The result of `parse_header`: the state, an exception, and the returned flag. */
  datatype Hdr = Hdr(st: PState, err: Option<ParseError>, skip: bool)

  /** `parse_header(headers)` from the line `ls[0]` on, with `skip` so far. */
  function HeaderFrom(v: Variant, al: seq<AliasField>, st: PState, ls: seq<Line>, skip: bool): (r: Hdr)
    ensures r.skip ==> skip
    decreases LSizeAll(ls), 1
  {
    if ls == [] then Hdr(st, None, skip)
    else
      assert LSizeAll(ls) == LSize(ls[0]) + LSizeAll(ls[1..]);
      var h := HeaderStep(v, al, st, ls[0], skip);
      if h.err.Some? then Hdr(h.st, h.err, h.skip)
      else if h.stop then Hdr(h.st, None, false)
      else HeaderFrom(v, al, h.st, ls[1..], h.skip)
  }

  // ----- parse_module -----

  /** One module line: `stop` is a `return True`. */
  datatype MStep = MStep(st: PState, err: Option<ParseError>, stop: bool)

  /** The alias matcher on a line, as a module step. */
  function MatchStep(v: Variant, al: seq<AliasField>, st: PState, s: string): MStep {
    var r := Matched(v, al, st, s);
    MStep(r.st, r.err, false)
  }

  /** `self.anchor.running = b` on the shared instance. */
  function WithRunning(st: PState, b: bool): PState {
    if st.anchor.Some? then st.(anchor := Some(st.anchor.value.(running := b))) else st
  }

  function ModuleStep(v: Variant, al: seq<AliasField>, st: PState, l: Line): MStep
    decreases LSize(l), 1
  {
    match l
    case Plain(_) => TextStep(v, al, st, l)
    case Named(_, _) => TextStep(v, al, st, l)
    case Table(hs, rs) =>
      var r := TableDone(v, al, st, hs, rs);
      MStep(r.st, r.err, false)
    case Block(classes, inner) =>
      assert LSizeAll(inner) < LSize(l);
      var e := Entered(st, classes);
      if e.err.Some? then MStep(e.st, e.err, false)
      else
        var r := ModuleFrom(v, al, e.st, inner);
        if r.err.Some? then MStep(r.st, r.err, false)
        else
          var x := if e.active then Exited(r.st, e.ori) else PR(r.st, None);
          MStep(x.st, x.err, x.err.None? && r.ret)
    case Picture(img) =>
      if img.alt.None? then MStep(st, Some(TypeError), false)
      else if Contains(img.alt.value, PortraitTag) then
        MStep(st.(image := Some(img), key := Some(AuthorKey), hitAlias := Some(PortraitTag), hasAnchor := true, anchor := Some(DefaultAnchor)), None, false)
      else MatchStep(v, al, st, Strip(img.alt.value))
  }

  /** A str line of a module: pack markers, the history heading, the version search, then the alias matcher. */
  function TextStep(v: Variant, al: seq<AliasField>, st: PState, l: Line): MStep
    requires l.Plain? || l.Named?
  {
    if Sline(l).None? then MStep(st, None, false)
    else
      var sl := Sline(l).value;
      if IsPackMarker(l) then
        if Contains(st.pack, Jie) != Contains(l.text, Jie) then MStep(st, None, true)
        else MatchStep(v, al, st, sl)
      else if sl == HistoryTag then MStep(st.(searchVer := SearchVer(true)), None, false)
      else if st.searchVer == SearchVer(true) then
        if sl != st.skillVer then MStep(st, None, false)
        else if !st.hasAnchor then MStep(st, Some(AttributeError("anchor")), false)
        else MStep(WithRunning(st, true).(searchVer := SearchVer(false)), None, false)
      else MatchStep(v, al, st, sl)
  }

  /** The result of `parse_module`: the state, an exception, and whether it returned True. */
  datatype Mod = Mod(st: PState, err: Option<ParseError>, ret: bool)

  /** `parse_module(mod)` from the line `ls[0]` on. */
  function ModuleFrom(v: Variant, al: seq<AliasField>, st: PState, ls: seq<Line>): (r: Mod)
    ensures r.ret ==> r.err.None? && ls != []
    decreases LSizeAll(ls), 2
  {
    if ls == [] then Mod(st, None, false)
    else
      assert LSizeAll(ls) == LSize(ls[0]) + LSizeAll(ls[1..]);
      var m := ModuleStep(v, al, st, ls[0]);
      if m.err.Some? then Mod(m.st, m.err, false)
      else if m.stop then Mod(m.st, None, true)
      else ModuleFrom(v, al, m.st, ls[1..])
  }

  /**
   * A 'table': the anchor stops running while the first header cell and the
   * first cell of each row are parsed; then a pending version search ends and
   * the anchor runs again, or else the anchor is reset and the pending key
   * cleared.
   */
  function TableDone(v: Variant, al: seq<AliasField>, st: PState, hs: seq<Cell>, rs: seq<Row>): (r: PR)
    ensures st.hasAnchor && st.anchor.None? ==> r == PR(st, Some(AttributeError("level")))
    ensures !(st.hasAnchor && st.anchor.None?) && hs == [] ==> r.err == Some(IndexError)
    ensures !(st.hasAnchor && st.anchor.None?) && hs == [] && st.hasAnchor && st.anchor.value.level >= 0 ==>
      r.st.anchor.Some? && !r.st.anchor.value.running
    decreases CellsSize(hs) + RowsSize(rs), 0
  {
    if st.hasAnchor && st.anchor.None? then PR(st, Some(AttributeError("level")))
    else
      var st1 := if st.hasAnchor && st.anchor.value.level >= 0 then WithRunning(st, false) else st;
      if hs == [] then PR(st1, Some(IndexError))
      else
        assert CellsSize(hs) == LSizeAll(hs[0].lines) + CellsSize(hs[1..]);
        var h := ModuleFrom(v, al, st1, hs[0].lines);
        if h.err.Some? then PR(h.st, h.err)
        else
          var r := RowsDone(v, al, h.st, rs);
          if r.err.Some? then r else VersionChecked(r.st)
  }

  /** `parse_module(row[0])` for each row. */
  function RowsDone(v: Variant, al: seq<AliasField>, st: PState, rs: seq<Row>): PR
    decreases RowsSize(rs), 0
  {
    if rs == [] then PR(st, None)
    else if rs[0].cells == [] then PR(st, Some(IndexError))
    else
      assert RowsSize(rs) == CellsSize(rs[0].cells) + RowsSize(rs[1..]);
      assert CellsSize(rs[0].cells) == LSizeAll(rs[0].cells[0].lines) + CellsSize(rs[0].cells[1..]);
      var m := ModuleFrom(v, al, st, rs[0].cells[0].lines);
      if m.err.Some? then PR(m.st, m.err) else RowsDone(v, al, m.st, rs[1..])
  }

  /** The end of a table: `if self.search_ver: ... else: ...`. */
  function VersionChecked(st: PState): PR {
    match st.searchVer
    case NoSearchVer => PR(st, Some(AttributeError("search_ver")))
    case SearchVer(on) =>
      if on then
        var st1 := st.(searchVer := NoSearchVer);
        if !st1.hasAnchor then PR(st1, Some(AttributeError("anchor"))) else PR(WithRunning(st1, true), None)
      else Cleared(st.(anchor := Some(DefaultAnchor), hasAnchor := true))
  }

  // ----- crawl_by_name -----

  /** Python truth of a field value. */
  predicate Truthy(st: PState, x: Value) {
    match x
    case VNone => false
    case VStr(s) => s != ""
    case VInt(i) => i != 0
    case VCamp(_) => true
    case VList(id) => id < |st.lists| && st.lists[id] != []
  }

  /** The items a crawled block yields when iterated; a 'table' has already drained its contents. */
  function Children(l: Line): seq<Line> {
    if l.Block? then l.lines else []
  }

  /**
   * The loop of `crawl_by_name` over the crawled blocks: header blocks until
   * one returns a false flag, then module blocks while they return True.
   */
  function CrawlFrom(v: Variant, al: seq<AliasField>, st: PState, ls: seq<Line>, header: bool): PR
    decreases |ls|
  {
    if ls == [] then PR(st, None)
    else if !(ls[0].Block? || ls[0].Table?) then CrawlFrom(v, al, st, ls[1..], header)
    else if header then
      var h := HeaderFrom(v, al, st, Children(ls[0]), true);
      if h.err.Some? then PR(h.st, h.err) else CrawlFrom(v, al, h.st, ls[1..], h.skip)
    else
      var m := ModuleFrom(v, al, st, Children(ls[0]));
      if m.err.Some? then PR(m.st, m.err)
      else if !m.ret then PR(m.st, None)
      else CrawlFrom(v, al, m.st, ls[1..], false)
  }

  /** `crawl_by_name()` of the older hero, given what the crawl yields. */
  function Crawled(al: seq<AliasField>, st: PState, biliKey: string, ls: seq<Line>): (r: PR)
    ensures "detail_pack" !in st.fields ==> r == PR(st, Some(AttributeError("detail_pack")))
    ensures "detail_pack" in st.fields && (Truthy(st, st.fields["detail_pack"]) || biliKey == "none") ==> r == PR(st, None)
  {
    if "detail_pack" !in st.fields then PR(st, Some(AttributeError("detail_pack")))
    else if Truthy(st, st.fields["detail_pack"]) || biliKey == "none" then PR(st, None)
    else CrawlFrom(Legacy, al, st, ls, true)
  }

  // ----- the older hero's aliased fields -----

  /** The aliased fields of the older `Hero`, in field order. */
  const LegacyAliases: seq<AliasField> := [
    AliasField(One("武将包"), "detail_pack", AsIs, -1, []),
    AliasField(One("勾玉"), "hp", ToInt, -1, []),
    AliasField(One("性别"), "gender", AsIs, -1, []),
    AliasField(One("势力"), "camp", CampByName, -1, []),
    AliasField(One("技能"), "skills", AsIs, 1, ["技能标签"]),
    AliasField(One("台词"), "lines", AsIs, 1, ["basic-info-row-label"]),
    AliasField(One("定位"), "position", AsIs, 1, [])]

  /**
   * The aliased fields of the `Hero` in `sgs/heros/hero.py`, in field order;
   * `position` has a tuple alias. That `Hero` takes its parser mixins from
   * `sgs/heros/parser.py`, which is not part of this model: the lemmas below
   * pair this table with the matcher of `sgs/parser.py` on the assumption
   * that the host mixes in that `HeroParser`.
   */
  const HostAliases: seq<AliasField> := [
    AliasField(One("性别"), "gender", AsIs, -1, []),
    AliasField(One("势力"), "camp", CampByFirst, -1, []),
    AliasField(Many(["定位", "武将定位"]), "position", AsIs, 1, [])]

  /**
   * If the host mixes in this `HeroParser` (assumed, see `HostAliases`), then
   * as written the host's table raises TypeError on every line that holds
   * neither 性别 nor 势力 while no key is pending: the loop reaches the tuple
   * alias and `tuple in str` is refused. Nothing changes.
   */
  lemma HostTableRaises(st: PState, s: string)
    requires st.key.None? && st.hitAlias != Some(s)
    requires !Contains(s, "性别") && !Contains(s, "势力")
    ensures FirstAliasAt(HostAliases, s) == TupleInStr(2)
    ensures Matched(Mixin, HostAliases, st, s) == PR(st, Some(TypeError))
  {
    assert Missed(HostAliases[0].alias, s) && Missed(HostAliases[1].alias, s);
    FirstTupleIs(HostAliases, s, 2);
  }

  lemma {:induction false} FirstTupleIs(al: seq<AliasField>, s: string, i: nat)
    requires i < |al| && al[i].alias.Many?
    requires forall j :: 0 <= j < i ==> Missed(al[j].alias, s)
    ensures FirstAliasAt(al, s) == TupleInStr(i)
  {
    if i > 0 {
      FirstTupleIs(al[1..], s, i - 1);
    }
  }

  /** Under the same assumed pairing, a line naming the host's position, such as "武将定位", raises rather than selecting `position`. */
  lemma HostPositionLineRaises(st: PState)
    requires st.key.None? && st.hitAlias != Some("武将定位")
    ensures Matched(Mixin, HostAliases, st, "武将定位") == PR(st, Some(TypeError))
  {
    ContainsFirstChar("武将定位", "性别");
    ContainsFirstChar("武将定位", "势力");
    HostTableRaises(st, "武将定位");
  }

  /** An alias occurs in a line: the string, or for a tuple any of its members. */
  predicate Hits(a: Alias, s: string) {
    match a
    case One(t) => Contains(s, t)
    case Many(ts) => exists k :: 0 <= k < |ts| && Contains(s, ts[k])
  }

  /**
   * The evidently intended scan: a tuple alias stands for each of its members,
   * so the first field in field order one of whose aliases occurs in the line is chosen.
   */
  function FirstAliasIntended(al: seq<AliasField>, s: string): (r: Option<nat>)
    ensures r.Some? ==> r.value < |al| && Hits(al[r.value].alias, s)
    ensures r.Some? ==> forall j :: 0 <= j < r.value ==> !Hits(al[j].alias, s)
    ensures r.None? <==> forall j :: 0 <= j < |al| ==> !Hits(al[j].alias, s)
  {
    if al == [] then None
    else if Hits(al[0].alias, s) then Some(0)
    else
      var r := FirstAliasIntended(al[1..], s);
      if r.Some? then Some(r.value + 1) else None
  }

  /** On a table of string aliases only, the intended scan agrees with the code as written. */
  lemma {:induction false} IntendedAgrees(al: seq<AliasField>, s: string)
    requires forall j :: 0 <= j < |al| ==> al[j].alias.One?
    ensures FirstAliasAt(al, s).Found? <==> FirstAliasIntended(al, s).Some?
    ensures FirstAliasAt(al, s).Found? ==> FirstAliasAt(al, s).i == FirstAliasIntended(al, s).value
    ensures !FirstAliasAt(al, s).TupleInStr?
  {
    if al != [] && !Contains(s, al[0].alias.text) {
      IntendedAgrees(al[1..], s);
    }
  }

  /** With the intended scan, a line holding either member of the host's position tuple, and no earlier alias, selects `position`. */
  lemma IntendedHostPosition(s: string, k: nat)
    requires k < 2 && Contains(s, ["定位", "武将定位"][k])
    requires !Contains(s, "性别") && !Contains(s, "势力")
    ensures FirstAliasIntended(HostAliases, s) == Some(2)
  {
    assert Hits(HostAliases[2].alias, s);
    assert !Hits(HostAliases[0].alias, s) && !Hits(HostAliases[1].alias, s);
  }

  /** A fresh older hero, as the parser sees it: default field values, its three lists empty, and no parser attributes. */
  function LegacyStart(pack: string, skillVer: string, anchor: Option<AnchorState>): PState {
    PState(pack, skillVer,
      map["detail_pack" := VStr(""), "hp" := VInt(0), "gender" := VStr(""), "camp" := VCamp(HeroRecord.Unknown),
          "skills" := VList(0), "lines" := VList(1), "position" := VList(2)],
      [[], [], []], "", None, None, None, false, anchor, NoSearchVer)
  }

  // ----- properties -----

  /** A line equal to the one that selected the pending key is ignored. */
  lemma MatchIgnoresHit(v: Variant, al: seq<AliasField>, st: PState, s: string)
    requires st.hitAlias == Some(s)
    ensures Matched(v, al, st, s) == PR(st, None)
  {
  }

  /**
   * With no pending key, the first alias in field order that occurs in the line
   * becomes the pending key; the line is recorded, and the shared anchor is
   * re-initialised from that field's anchor number, current value and sections.
   */
  lemma MatchSelects(v: Variant, al: seq<AliasField>, st: PState, s: string, i: nat)
    requires st.key.None? && st.hitAlias != Some(s)
    requires i < |al| && al[i].alias.One? && Contains(s, al[i].alias.text)
    requires forall j :: 0 <= j < i ==> Missed(al[j].alias, s)
    requires al[i].name in st.fields
    ensures Matched(v, al, st, s) ==
      PR(st.(key := Some(FieldKey(al[i])), hitAlias := Some(s), hasAnchor := true,
             anchor := Some(NewAnchor(al[i].anchorNum, st.fields[al[i].name], al[i].sections))), None)
  {
    FirstAliasIs(al, s, i);
  }

  lemma {:induction false} FirstAliasIs(al: seq<AliasField>, s: string, i: nat)
    requires i < |al| && al[i].alias.One? && Contains(s, al[i].alias.text)
    requires forall j :: 0 <= j < i ==> Missed(al[j].alias, s)
    ensures FirstAliasAt(al, s) == Found(i)
  {
    if i > 0 {
      FirstAliasIs(al[1..], s, i - 1);
    }
  }

  lemma {:induction false} FirstAliasNone(al: seq<AliasField>, s: string)
    requires forall j :: 0 <= j < |al| ==> Missed(al[j].alias, s)
    ensures FirstAliasAt(al, s) == NotFound
  {
    if al != [] {
      FirstAliasNone(al[1..], s);
    }
  }

  /** With no pending key, a line holding no alias changes nothing. */
  lemma MatchNoAlias(v: Variant, al: seq<AliasField>, st: PState, s: string)
    requires st.key.None? && st.hitAlias != Some(s)
    requires forall j :: 0 <= j < |al| ==> Missed(al[j].alias, s)
    ensures Matched(v, al, st, s) == PR(st, None)
  {
    FirstAliasNone(al, s);
  }

  /** With a pending field and the anchor below level 0, the converted line is stored into the field and the pending key cleared. */
  lemma MatchStores(v: Variant, al: seq<AliasField>, st: PState, s: string, fd: AliasField)
    requires st.key == Some(FieldKey(fd)) && st.hitAlias.Some? && st.hitAlias != Some(s)
    requires st.hasAnchor && st.anchor.Some? && st.anchor.value.level < 0
    requires Transformed(fd.trans, s).Ok?
    ensures Matched(v, al, st, s) ==
      PR(st.(fields := st.fields[fd.name := Transformed(fd.trans, s).value], key := None, hitAlias := None, hasAnchor := false), None)
  {
  }

  /** With a pending field and the anchor at level >= 0, the converted line is appended to the anchor's stack and no field is written. */
  lemma MatchAppends(v: Variant, al: seq<AliasField>, st: PState, s: string, fd: AliasField)
    requires st.key == Some(FieldKey(fd)) && st.hitAlias != Some(s)
    requires st.hasAnchor && st.anchor.Some? && st.anchor.value.level >= 0
    requires st.anchor.value.stack.VList? && st.anchor.value.stack.id < |st.lists|
    requires Transformed(fd.trans, s).Ok?
    ensures var id := st.anchor.value.stack.id;
      Matched(v, al, st, s) == PR(st.(lists := st.lists[id := st.lists[id] + [Transformed(fd.trans, s).value]]), None)
  {
  }

  /** A field whose conversion fails leaves everything as it was and raises. */
  lemma MatchBadValue(v: Variant, al: seq<AliasField>, st: PState, s: string, fd: AliasField)
    requires st.key == Some(FieldKey(fd)) && st.hitAlias != Some(s) && Transformed(fd.trans, s).Err?
    ensures Matched(v, al, st, s) == PR(st, Some(Transformed(fd.trans, s).error))
  {
  }

  /** The portrait's author line sets the author of the stored image and clears the pending key. */
  lemma MatchAuthor(v: Variant, al: seq<AliasField>, st: PState, s: string)
    requires st.key == Some(AuthorKey) && st.hitAlias.Some? && st.hitAlias != Some(s) && st.hasAnchor
    requires st.image.Some?
    ensures Matched(v, al, st, s) ==
      PR(st.(image := Some(st.image.value.(author := Some(s))), key := None, hitAlias := None, hasAnchor := false), None)
  {
  }

  /** A line that marks the end of the header: a title line or a pack marker, here or in a nested block. */
  predicate Marker(l: Line) {
    Sline(l).Some? && (Contains(Sline(l).value, TitleTag) || IsPackMarker(l))
  }

  predicate AnyMarker(ls: seq<Line>)
    decreases ls
  {
    ls != [] && (Marker(ls[0]) || (ls[0].Block? && AnyMarker(ls[0].lines)) || AnyMarker(ls[1..]))
  }

  /** When no exception is raised, `parse_header` returns True exactly when no title line and no pack marker occurs, at any depth. */
  lemma {:induction false} HeaderSkip(v: Variant, al: seq<AliasField>, st: PState, ls: seq<Line>, skip: bool)
    ensures var h := HeaderFrom(v, al, st, ls, skip);
      h.err.None? ==> (h.skip <==> skip && !AnyMarker(ls))
    decreases LSizeAll(ls)
  {
    if ls != [] {
      assert LSizeAll(ls) == LSize(ls[0]) + LSizeAll(ls[1..]);
      var l := ls[0];
      var h := HeaderStep(v, al, st, l, skip);
      if l.Block? && Sline(l).None? {
        assert LSizeAll(l.lines) < LSize(l);
        HeaderSkip(v, al, st, l.lines, true);
      }
      if h.err.None? && !h.stop {
        HeaderSkip(v, al, h.st, ls[1..], h.skip);
      }
    }
  }

  /** A title line sets the title without its '武将称号：' prefix and makes the header pass return False. */
  lemma HeaderTitle(v: Variant, al: seq<AliasField>, st: PState, t: string, rest: seq<Line>)
    requires Contains(Strip(t), TitleTag)
    ensures var h := HeaderFrom(v, al, st, [Plain(t)] + rest, true);
      h.err.None? ==> !h.skip
    ensures HeaderStep(v, al, st, Plain(t), true) == HStep(st.(title := RemovePrefix(Strip(t), TitlePrefix)), None, false, false)
    ensures StartsWith(Strip(t), TitlePrefix) ==> TitlePrefix + HeaderStep(v, al, st, Plain(t), true).st.title == Strip(t)
  {
    HeaderSkip(v, al, st, [Plain(t)] + rest, true);
    assert ([Plain(t)] + rest)[0] == Plain(t);
  }

  /** The anchor's context when it does not run changes nothing on entry and runs no exit code. */
  lemma EnterNotRunning(st: PState, classes: seq<string>)
    requires st.anchor.Some? && !st.anchor.value.running
    ensures Entered(st, classes) == Ent(st, None, false, None)
  {
  }

  /**
   * Running at a level >= 0, the context raises the level by one for the
   * block and restores level, stack and section index afterwards, without
   * calling back; a matching section has a new list as the stack during the
   * block, appended to the old one.
   */
  lemma EnterExitRestores(st: PState, classes: seq<string>)
    requires st.anchor.Some? && st.anchor.value.running && st.anchor.value.level >= 0
    requires st.anchor.value.stack.VList? && st.anchor.value.stack.id < |st.lists|
    ensures var e := Entered(st, classes);
      var a := st.anchor.value;
      && e.err.None? && e.active
      && e.st.anchor.Some? && e.st.anchor.value.level == a.level + 1
      && Exited(e.st, e.ori) == PR(st.(lists := e.st.lists), None)
    ensures var e := Entered(st, classes);
      var a := st.anchor.value;
      var n := |st.lists|;
      if 0 <= a.secIdx < |a.sections| && a.sections[a.secIdx] in classes then
        && e.st.anchor.value.stack == VList(n) && e.st.anchor.value.secIdx == a.secIdx + 1
        && e.st.lists == (st.lists + [[]])[a.stack.id := st.lists[a.stack.id] + [VList(n)]]
      else e.st == st.(anchor := Some(a.(level := a.level + 1)))
  {
    var e := Entered(st, classes);
    var a := st.anchor.value;
    if 0 <= a.secIdx < |a.sections| && a.sections[a.secIdx] in classes {
      assert e.st.lists[a.stack.id] != [];
    }
  }

  /** Leaving a block at level 0 drops the level below 0 and calls back `clear_alias_key`. */
  lemma ExitCallsBack(st: PState, ori: Option<nat>)
    requires st.anchor.Some? && st.anchor.value.level == 0
    ensures Exited(st, ori).st.anchor.Some? && Exited(st, ori).st.anchor.value.level == -1
    ensures Exited(st, ori).err.None? ==> Exited(st, ori).st.key.None? && !Exited(st, ori).st.hasAnchor
  {
  }

  /** `crawl_by_name` crawls nothing for a hero with a detail pack or the key 'none'. */
  lemma CrawlGuard(al: seq<AliasField>, st: PState, biliKey: string, ls: seq<Line>)
    requires "detail_pack" in st.fields
    requires Truthy(st, st.fields["detail_pack"]) || biliKey == "none"
    ensures Crawled(al, st, biliKey, ls) == PR(st, None)
  {
  }

  // ----- the invariant the passes keep -----

  predicate RefOk(x: Value, n: nat) {
    x.VList? ==> x.id < n
  }

  /**
   * The parser's attributes agree: a pending key comes with its hit line and
   * the anchor attribute, which is the initialised shared instance, and every
   * list reference points at a list.
   */
  predicate Valid(st: PState) {
    && (st.key.Some? <==> st.hitAlias.Some?)
    && (st.key.Some? <==> st.hasAnchor)
    && (st.hasAnchor ==> st.anchor.Some?)
    && (forall f :: f in st.fields ==> RefOk(st.fields[f], |st.lists|))
    && (forall i, j :: 0 <= i < |st.lists| && 0 <= j < |st.lists[i]| ==> RefOk(st.lists[i][j], |st.lists|))
    && (st.anchor.Some? ==> RefOk(st.anchor.value.stack, |st.lists|))
  }

  lemma LegacyStartValid(pack: string, skillVer: string)
    ensures Valid(LegacyStart(pack, skillVer, None))
  {
  }

  lemma ClearedValid(st: PState)
    requires Valid(st)
    ensures Cleared(st).err.None? ==> Valid(Cleared(st).st)
  {
  }

  lemma TransformedPlain(t: Trans, s: string)
    ensures Transformed(t, s).Ok? ==> !Transformed(t, s).value.VList?
  {
  }

  lemma MatchedValid(v: Variant, al: seq<AliasField>, st: PState, s: string)
    requires Valid(st)
    ensures Matched(v, al, st, s).err.None? ==> Valid(Matched(v, al, st, s).st)
  {
    if st.hitAlias != Some(s) && st.key.Some? && st.key.value.FieldKey? {
      var fd := st.key.value.fd;
      TransformedPlain(fd.trans, s);
      var t := Transformed(fd.trans, s);
      if t.Ok? && st.anchor.value.level >= 0 {
        var r := Matched(v, al, st, s);
        var stack := st.anchor.value.stack;
        if stack.VList? && stack.id < |st.lists| {
          assert forall i :: 0 <= i < |st.lists| && i != stack.id ==> r.st.lists[i] == st.lists[i];
        }
      }
    }
  }

  lemma EnteredValid(st: PState, classes: seq<string>)
    requires Valid(st)
    ensures var e := Entered(st, classes);
      e.err.None? ==> Valid(e.st) && e.st.anchor.Some? && (e.ori.Some? ==> e.ori.value < |e.st.lists|)
  {
    var e := Entered(st, classes);
    if e.err.None? && |e.st.lists| != |st.lists| {
      var n := |st.lists|;
      var id := st.anchor.value.stack.id;
      assert forall i :: 0 <= i < n && i != id ==> e.st.lists[i] == st.lists[i];
      assert e.st.lists[n] == [];
      assert e.st.lists[id] == st.lists[id] + [VList(n)];
    }
  }

  lemma ExitedValid(st: PState, ori: Option<nat>)
    requires Valid(st)
    ensures Exited(st, ori).err.None? ==> Valid(Exited(st, ori).st)
  {
  }

  lemma VersionCheckedValid(st: PState)
    requires Valid(st)
    ensures VersionChecked(st).err.None? ==> Valid(VersionChecked(st).st)
  {
  }

  lemma {:induction false} HeaderStepValid(v: Variant, al: seq<AliasField>, st: PState, l: Line, skip: bool)
    requires Valid(st)
    ensures HeaderStep(v, al, st, l, skip).err.None? ==> Valid(HeaderStep(v, al, st, l, skip).st)
    decreases LSize(l), 0
  {
    if Sline(l).Some? {
      MatchedValid(v, al, st, Sline(l).value);
    } else if l.Block? {
      assert LSizeAll(l.lines) < LSize(l);
      HeaderFromValid(v, al, st, l.lines, true);
    }
  }

  /** The header pass keeps the parser's attributes in agreement. */
  lemma {:induction false} HeaderFromValid(v: Variant, al: seq<AliasField>, st: PState, ls: seq<Line>, skip: bool)
    requires Valid(st)
    ensures HeaderFrom(v, al, st, ls, skip).err.None? ==> Valid(HeaderFrom(v, al, st, ls, skip).st)
    decreases LSizeAll(ls), 1
  {
    if ls != [] {
      assert LSizeAll(ls) == LSize(ls[0]) + LSizeAll(ls[1..]);
      var h := HeaderStep(v, al, st, ls[0], skip);
      HeaderStepValid(v, al, st, ls[0], skip);
      if h.err.None? && !h.stop {
        HeaderFromValid(v, al, h.st, ls[1..], h.skip);
      }
    }
  }

  lemma {:induction false} ModuleStepValid(v: Variant, al: seq<AliasField>, st: PState, l: Line)
    requires Valid(st)
    ensures ModuleStep(v, al, st, l).err.None? ==> Valid(ModuleStep(v, al, st, l).st)
    decreases LSize(l), 1
  {
    if l.Plain? || l.Named? {
      TextStepValid(v, al, st, l);
    } else if l.Table? {
      TableDoneValid(v, al, st, l.headers, l.records);
    } else if l.Block? {
      BlockStepValid(v, al, st, l);
    } else {
      PictureStepValid(v, al, st, l);
    }
  }

  lemma TextStepValid(v: Variant, al: seq<AliasField>, st: PState, l: Line)
    requires Valid(st) && (l.Plain? || l.Named?)
    ensures TextStep(v, al, st, l).err.None? ==> Valid(TextStep(v, al, st, l).st)
  {
    if Sline(l).Some? {
      var sl := Sline(l).value;
      MatchedValid(v, al, st, sl);
      assert MatchStep(v, al, st, sl).st == Matched(v, al, st, sl).st;
      RunningValid(st);
    }
  }

  /** Switching the version search on or off, or the anchor's running flag with it, keeps the attributes in agreement. */
  lemma RunningValid(st: PState)
    requires Valid(st)
    ensures Valid(st.(searchVer := SearchVer(true)))
    ensures Valid(WithRunning(st, true).(searchVer := SearchVer(false)))
  {
  }

  lemma PictureStepValid(v: Variant, al: seq<AliasField>, st: PState, l: Line)
    requires Valid(st) && l.Picture?
    ensures ModuleStep(v, al, st, l).err.None? ==> Valid(ModuleStep(v, al, st, l).st)
  {
    var img := l.img;
    if img.alt.Some? && !Contains(img.alt.value, PortraitTag) {
      MatchedValid(v, al, st, Strip(img.alt.value));
    }
  }

  lemma {:induction false} BlockStepValid(v: Variant, al: seq<AliasField>, st: PState, l: Line)
    requires Valid(st) && l.Block?
    ensures ModuleStep(v, al, st, l).err.None? ==> Valid(ModuleStep(v, al, st, l).st)
    decreases LSize(l), 0
  {
    assert LSizeAll(l.lines) < LSize(l);
    var e := Entered(st, l.classes);
    EnteredValid(st, l.classes);
    if e.err.None? {
      var r := ModuleFrom(v, al, e.st, l.lines);
      ModuleFromValid(v, al, e.st, l.lines);
      if r.err.None? && e.active {
        ExitedValid(r.st, e.ori);
      }
    }
  }

  /** The module pass keeps the parser's attributes in agreement. */
  lemma {:induction false} ModuleFromValid(v: Variant, al: seq<AliasField>, st: PState, ls: seq<Line>)
    requires Valid(st)
    ensures ModuleFrom(v, al, st, ls).err.None? ==> Valid(ModuleFrom(v, al, st, ls).st)
    decreases LSizeAll(ls), 2
  {
    if ls != [] {
      assert LSizeAll(ls) == LSize(ls[0]) + LSizeAll(ls[1..]);
      var m := ModuleStep(v, al, st, ls[0]);
      ModuleStepValid(v, al, st, ls[0]);
      if m.err.None? && !m.stop {
        ModuleFromValid(v, al, m.st, ls[1..]);
      }
    }
  }

  lemma {:induction false} TableDoneValid(v: Variant, al: seq<AliasField>, st: PState, hs: seq<Cell>, rs: seq<Row>)
    requires Valid(st)
    ensures TableDone(v, al, st, hs, rs).err.None? ==> Valid(TableDone(v, al, st, hs, rs).st)
    decreases CellsSize(hs) + RowsSize(rs), 0
  {
    if !(st.hasAnchor && st.anchor.None?) && hs != [] {
      var st1 := if st.hasAnchor && st.anchor.value.level >= 0 then WithRunning(st, false) else st;
      assert Valid(st1);
      assert CellsSize(hs) == LSizeAll(hs[0].lines) + CellsSize(hs[1..]);
      var h := ModuleFrom(v, al, st1, hs[0].lines);
      ModuleFromValid(v, al, st1, hs[0].lines);
      if h.err.None? {
        RowsDoneValid(v, al, h.st, rs);
        var r := RowsDone(v, al, h.st, rs);
        if r.err.None? {
          VersionCheckedValid(r.st);
        }
      }
    }
  }

  lemma {:induction false} RowsDoneValid(v: Variant, al: seq<AliasField>, st: PState, rs: seq<Row>)
    requires Valid(st)
    ensures RowsDone(v, al, st, rs).err.None? ==> Valid(RowsDone(v, al, st, rs).st)
    decreases RowsSize(rs), 0
  {
    if rs != [] && rs[0].cells != [] {
      assert RowsSize(rs) == CellsSize(rs[0].cells) + RowsSize(rs[1..]);
      assert CellsSize(rs[0].cells) == LSizeAll(rs[0].cells[0].lines) + CellsSize(rs[0].cells[1..]);
      var m := ModuleFrom(v, al, st, rs[0].cells[0].lines);
      ModuleFromValid(v, al, st, rs[0].cells[0].lines);
      if m.err.None? {
        RowsDoneValid(v, al, m.st, rs[1..]);
      }
    }
  }

  // ----- the classes -----

  /** The one shared `Anchor` instance; `ready` says whether its `__init__` has run. */
  class Anchor {
    var ready: bool
    var level: int
    var stack: Value
    var sections: seq<string>
    var secIdx: int
    var running: bool

    function Attrs(): Option<AnchorState>
      reads this
    {
      if ready then Some(AnchorState(level, stack, sections, secIdx, running)) else None
    }

    /** `Anchor.get_ins()` the first time: `object.__new__`, with no attributes yet. */
    constructor ()
      ensures Attrs() == None
    {
      ready, level, stack, sections, secIdx, running := false, -1, VNone, [], -1, true;
    }

    /** `Anchor(level, stack, sections)`: the shared instance, re-initialised. */
    method Init(level: int, stack: Value, sections: seq<string>)
      modifies this
      ensures Attrs() == Some(NewAnchor(level, stack, sections))
    {
      this.ready := true;
      this.level := level;
      this.stack := stack;
      this.sections := sections;
      this.secIdx := if sections != [] then 0 else -1;
      this.running := true;
    }
  }

  /** A hero with the parser's methods, over the one shared anchor. */
  class HeroParser {
    const variant: Variant
    const aliases: seq<AliasField>
    const pack: string
    const skillVer: string
    const shared: Anchor
    var fields: map<string, Value>
    var lists: seq<seq<Value>>
    var title: string
    var image: Option<Crawler.Img>
    var key: Option<Key>
    var hitAlias: Option<string>
    var hasAnchor: bool
    var searchVer: SearchVer

    function State(): PState
      reads this, shared
    {
      PState(pack, skillVer, fields, lists, title, image, key, hitAlias, hasAnchor, shared.Attrs(), searchVer)
    }

    constructor (variant: Variant, aliases: seq<AliasField>, pack: string, skillVer: string,
                 fields: map<string, Value>, lists: seq<seq<Value>>, shared: Anchor)
      ensures this.variant == variant && this.aliases == aliases && this.shared == shared
      ensures State() == PState(pack, skillVer, fields, lists, "", None, None, None, false, shared.Attrs(), NoSearchVer)
    {
      this.variant := variant;
      this.aliases := aliases;
      this.pack := pack;
      this.skillVer := skillVer;
      this.shared := shared;
      this.fields := fields;
      this.lists := lists;
      title, image, key, hitAlias, hasAnchor, searchVer := "", None, None, None, false, NoSearchVer;
    }

    /** `clear_alias_key()` */
    method ClearAliasKey() returns (err: Option<ParseError>)
      modifies this
      ensures PR(State(), err) == Cleared(old(State()))
    {
      if key.None? {
        return Some(AttributeError("key"));
      }
      key := None;
      if hitAlias.None? {
        return Some(AttributeError("hit_alias"));
      }
      hitAlias := None;
      if !hasAnchor {
        return Some(AttributeError("anchor"));
      }
      hasAnchor := false;
      err := None;
    }

    /** `alias_matcher(sline)` */
    method AliasMatcher(s: string) returns (err: Option<ParseError>)
      modifies this, shared
      ensures PR(State(), err) == Matched(variant, aliases, old(State()), s)
    {
      if hitAlias == Some(s) {
        return None;
      }
      match key {
        case Some(AuthorKey) =>
          if image.Some? {
            image := Some(image.value.(author := Some(s)));
          } else if variant == Legacy {
            return Some(AttributeError("author"));
          }
          err := ClearAliasKey();
        case Some(FieldKey(fd)) =>
          var t := Transformed(fd.trans, s);
          if t.Err? {
            return Some(t.error);
          }
          if hasAnchor && !shared.ready {
            return Some(AttributeError("level"));
          }
          if hasAnchor && shared.level >= 0 {
            if shared.stack.VList? && shared.stack.id < |lists| {
              var id := shared.stack.id;
              lists := lists[id := lists[id] + [t.value]];
              err := None;
            } else {
              err := Some(AttributeError("append"));
            }
          } else {
            fields := fields[fd.name := t.value];
            err := ClearAliasKey();
          }
        case None =>
          var i := FirstAliasAt(aliases, s);
          err := None;
          if i.TupleInStr? {
            return Some(TypeError);
          }
          if i.Found? {
            var fd := aliases[i.i];
            key, hitAlias := Some(FieldKey(fd)), Some(s);
            if fd.name !in fields {
              return Some(AttributeError(fd.name));
            }
            hasAnchor := true;
            shared.Init(fd.anchorNum, fields[fd.name], fd.sections);
          }
      }
    }

    /** `parse_header(headers)` */
    method ParseHeader(ls: seq<Line>) returns (skip: bool, err: Option<ParseError>)
      modifies this, shared
      ensures Hdr(State(), err, skip) == HeaderFrom(variant, aliases, old(State()), ls, true)
      decreases LSizeAll(ls), 1
    {
      skip := true;
      var i := 0;
      while i < |ls|
        invariant 0 <= i <= |ls|
        invariant HeaderFrom(variant, aliases, State(), ls[i..], skip) == HeaderFrom(variant, aliases, old(State()), ls, true)
        decreases |ls| - i
      {
        LSizeAllAt(ls, i);
        assert ls[i..][1..] == ls[i + 1..];
        var stop;
        skip, stop, err := HeaderLine(ls[i], skip);
        if err.Some? {
          return;
        }
        if stop {
          return false, None;
        }
        i := i + 1;
      }
      err := None;
    }

    /** One line of the header loop. */
    method HeaderLine(l: Line, skip0: bool) returns (skip: bool, stop: bool, err: Option<ParseError>)
      modifies this, shared
      ensures HStep(State(), err, skip, stop) == HeaderStep(variant, aliases, old(State()), l, skip0)
      decreases LSize(l), 0
    {
      skip, stop, err := skip0, false, None;
      var sl := Sline(l);
      if sl.Some? {
        if Contains(sl.value, TitleTag) {
          skip := false;
          title := RemovePrefix(sl.value, TitlePrefix);
        } else if IsPackMarker(l) {
          skip, stop := false, true;
        } else {
          err := AliasMatcher(sl.value);
        }
      } else if l.Block? {
        assert LSizeAll(l.lines) < LSize(l);
        var inner;
        inner, err := ParseHeader(l.lines);
        skip := inner && skip0;
      }
    }

    /** `parse_module(mod)` */
    method ParseModule(ls: seq<Line>) returns (ret: bool, err: Option<ParseError>)
      modifies this, shared
      ensures Mod(State(), err, ret) == ModuleFrom(variant, aliases, old(State()), ls)
      decreases LSizeAll(ls), 2
    {
      var i := 0;
      while i < |ls|
        invariant 0 <= i <= |ls|
        invariant ModuleFrom(variant, aliases, State(), ls[i..]) == ModuleFrom(variant, aliases, old(State()), ls)
        decreases |ls| - i
      {
        LSizeAllAt(ls, i);
        assert ls[i..][1..] == ls[i + 1..];
        var stop;
        stop, err := ModuleLine(ls[i]);
        if err.Some? {
          return false, err;
        }
        if stop {
          return true, None;
        }
        i := i + 1;
      }
      ret, err := false, None;
    }

    /** One line of the module loop. */
    method ModuleLine(l: Line) returns (stop: bool, err: Option<ParseError>)
      modifies this, shared
      ensures MStep(State(), err, stop) == ModuleStep(variant, aliases, old(State()), l)
      decreases LSize(l), 1
    {
      stop, err := false, None;
      match l {
        case Plain(_) =>
          stop, err := TextLine(l);
        case Named(_, _) =>
          stop, err := TextLine(l);
        case Table(hs, rs) =>
          err := ParseTable(hs, rs);
        case Block(classes, inner) =>
          assert LSizeAll(inner) < LSize(l);
          var active, ori;
          err, active, ori := Enter(classes);
          if err.Some? {
            return;
          }
          var ret;
          ret, err := ParseModule(inner);
          if err.Some? {
            return;
          }
          if active {
            err := Exit(ori);
          }
          stop := err.None? && ret;
        case Picture(img) =>
          if img.alt.None? {
            return false, Some(TypeError);
          }
          if Contains(img.alt.value, PortraitTag) {
            image := Some(img);
            key, hitAlias, hasAnchor := Some(AuthorKey), Some(PortraitTag), true;
            shared.Init(-1, VNone, []);
          } else {
            err := AliasMatcher(Strip(img.alt.value));
          }
      }
    }

    /** A str line of a module. */
    method TextLine(l: Line) returns (stop: bool, err: Option<ParseError>)
      requires l.Plain? || l.Named?
      modifies this, shared
      ensures MStep(State(), err, stop) == TextStep(variant, aliases, old(State()), l)
    {
      stop, err := false, None;
      var sl := Sline(l);
      if sl.None? {
        return;
      }
      if IsPackMarker(l) {
        if Contains(pack, Jie) != Contains(l.text, Jie) {
          return true, None;
        }
        err := AliasMatcher(sl.value);
      } else if sl.value == HistoryTag {
        searchVer := SearchVer(true);
      } else if searchVer == SearchVer(true) {
        if sl.value == skillVer {
          if !hasAnchor {
            return false, Some(AttributeError("anchor"));
          }
          if shared.ready {
            shared.running := true;
          }
          searchVer := SearchVer(false);
        }
      } else {
        err := AliasMatcher(sl.value);
      }
    }

    /** The 'table' branch of `parse_module`. */
    method ParseTable(hs: seq<Cell>, rs: seq<Row>) returns (err: Option<ParseError>)
      modifies this, shared
      ensures PR(State(), err) == TableDone(variant, aliases, old(State()), hs, rs)
      decreases CellsSize(hs) + RowsSize(rs), 0
    {
      if hasAnchor && !shared.ready {
        return Some(AttributeError("level"));
      }
      if hasAnchor && shared.level >= 0 {
        shared.running := false;
      }
      if hs == [] {
        return Some(IndexError);
      }
      assert CellsSize(hs) == LSizeAll(hs[0].lines) + CellsSize(hs[1..]);
      var ret;
      ret, err := ParseModule(hs[0].lines);
      if err.Some? {
        return;
      }
      err := ParseRows(rs);
      if err.Some? {
        return;
      }
      err := CheckVersion();
    }

    /** The loop `for row in rows: self.parse_module(row[0])` of the 'table' branch. */
    method ParseRows(rs: seq<Row>) returns (err: Option<ParseError>)
      modifies this, shared
      ensures PR(State(), err) == RowsDone(variant, aliases, old(State()), rs)
      decreases RowsSize(rs), 1
    {
      var j := 0;
      while j < |rs|
        invariant 0 <= j <= |rs|
        invariant RowsDone(variant, aliases, State(), rs[j..]) == RowsDone(variant, aliases, old(State()), rs)
        decreases |rs| - j
      {
        RowsSizeAt(rs, j);
        assert rs[j..][1..] == rs[j + 1..];
        if rs[j].cells == [] {
          return Some(IndexError);
        }
        var ret;
        ret, err := ParseModule(rs[j].cells[0].lines);
        if err.Some? {
          return;
        }
        j := j + 1;
      }
      err := None;
    }

    /** The end of the 'table' branch. */
    method CheckVersion() returns (err: Option<ParseError>)
      modifies this, shared
      ensures PR(State(), err) == VersionChecked(old(State()))
    {
      match searchVer {
        case NoSearchVer =>
          return Some(AttributeError("search_ver"));
        case SearchVer(on) =>
          if on {
            searchVer := NoSearchVer;
            if !hasAnchor {
              return Some(AttributeError("anchor"));
            }
            if shared.ready {
              shared.running := true;
            }
            err := None;
          } else {
            shared.Init(-1, VNone, []);
            hasAnchor := true;
            err := ClearAliasKey();
          }
      }
    }

    /** Entering `anchor(classes, self.clear_alias_key)`. */
    method Enter(classes: seq<string>) returns (err: Option<ParseError>, active: bool, ori: Option<nat>)
      modifies this, shared
      ensures Ent(State(), err, active, ori) == Entered(old(State()), classes)
    {
      err, active, ori := None, false, None;
      if !shared.ready {
        return Some(AttributeError("running")), false, None;
      }
      if !shared.running {
        return;
      }
      active := true;
      if shared.level < 0 {
        return;
      }
      shared.level := shared.level + 1;
      if 0 <= shared.secIdx < |shared.sections| && shared.sections[shared.secIdx] in classes {
        var old_stack := shared.stack;
        var n := |lists|;
        lists := lists + [[]];
        shared.stack := VList(n);
        if old_stack.VList? && old_stack.id < n {
          lists := lists[old_stack.id := lists[old_stack.id] + [VList(n)]];
          shared.secIdx := shared.secIdx + 1;
          ori := Some(old_stack.id);
        } else {
          err := Some(AttributeError("append"));
        }
      }
    }

    /** Leaving the anchor's context. */
    method Exit(ori: Option<nat>) returns (err: Option<ParseError>)
      modifies this, shared
      ensures PR(State(), err) == Exited(old(State()), ori)
    {
      err := None;
      if !shared.ready || shared.level < 0 {
        return;
      }
      shared.level := shared.level - 1;
      if ori.Some? && ori.value < |lists| && lists[ori.value] != [] {
        shared.stack := VList(ori.value);
        shared.secIdx := shared.secIdx - 1;
      }
      if shared.level < 0 {
        err := ClearAliasKey();
      }
    }

    /** The loop of `crawl_by_name`, given what the crawl yields. */
    method CrawlByName(biliKey: string, ls: seq<Line>) returns (err: Option<ParseError>)
      requires variant == Legacy
      modifies this, shared
      ensures PR(State(), err) == Crawled(aliases, old(State()), biliKey, ls)
    {
      if "detail_pack" !in fields {
        return Some(AttributeError("detail_pack"));
      }
      if Truthy(State(), fields["detail_pack"]) || biliKey == "none" {
        return None;
      }
      var header := true;
      var i := 0;
      while i < |ls|
        invariant 0 <= i <= |ls|
        invariant CrawlFrom(Legacy, aliases, State(), ls[i..], header) == Crawled(aliases, old(State()), biliKey, ls)
        decreases |ls| - i
      {
        assert ls[i..][1..] == ls[i + 1..];
        if ls[i].Block? || ls[i].Table? {
          if header {
            header, err := ParseHeader(Children(ls[i]));
            if err.Some? {
              return;
            }
          } else {
            var ret;
            ret, err := ParseModule(Children(ls[i]));
            if err.Some? || !ret {
              return;
            }
          }
        }
        i := i + 1;
      }
      err := None;
    }
  }

  lemma {:induction false} LSizeAllAt(ls: seq<Line>, i: nat)
    requires i < |ls|
    ensures LSize(ls[i]) <= LSizeAll(ls) && LSizeAll(ls[i + 1..]) < LSizeAll(ls)
    ensures LSizeAll(ls[i..]) <= LSizeAll(ls)
    decreases i
  {
    if i > 0 {
      LSizeAllAt(ls[1..], i - 1);
      assert ls[1..][i - 1] == ls[i] && ls[1..][i..] == ls[i + 1..] && ls[1..][i - 1..] == ls[i..];
    }
  }

  lemma {:induction false} RowsSizeAt(rs: seq<Row>, j: nat)
    requires j < |rs|
    ensures CellsSize(rs[j].cells) < RowsSize(rs) && RowsSize(rs[j..]) <= RowsSize(rs)
    decreases j
  {
    if j > 0 {
      RowsSizeAt(rs[1..], j - 1);
      assert rs[1..][j - 1] == rs[j] && rs[1..][j - 1..] == rs[j..];
    }
  }
}
