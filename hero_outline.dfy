/**
 * The hero managers that walk the Markdown outline of the hero file
 * (`sgs/heros/__init__.py`, and its older copy `sgs/__init__.py`): a
 * heading-level/status state machine that picks the pack headings, the hero
 * headings and the body paragraphs of each hero, a paragraph pass that reads
 * `HP=a/b` lines, `key: value` lines and monarch markers, and the queries over
 * the heroes found.
 *
 * The outline is the tree mistletoe builds from the file; parsing the file
 * itself is not modelled. The two managers differ in two places, named by
 * `Variant`: the older one has `key: value` patterns for the two fields its
 * hero class marks with an md key, and it appends a hero for every level-3
 * heading without looking at the heading's first child.
 *
 * The current manager imports `GeneralBlock`, `Text` and `UList` from
 * `sgs/heros/crawler.py`, which is not part of this model. Its `Current`
 * variant assumes that module's blocks behave as those of `sgs/crawler.py`,
 * which the model uses for both managers.
 */
module HeroOutline {
  import opened Wrappers
  import opened PyText
  import opened Crawler
  import HeroRecord

  /**
   * The inline children mistletoe gives a heading or a paragraph. Only raw
   * text has a `content`; bold and italic spans hold their own children.
   */
  datatype Inline =
    | RawText(content: string)
    | Strong(children: seq<Inline>)
    | Emphasis(children: seq<Inline>)
    | LineBreak
    | OtherInline(kind: string)

  /**
   * The block nodes of the outline. ATX (`#`) and setext (underlined)
   * headings both carry a level, but only the former has the type 'Heading'.
   */
  datatype MdNode =
    | Heading(level: int, inlines: seq<Inline>)
    | SetextHeading(level: int, inlines: seq<Inline>)
    | Paragraph(inlines: seq<Inline>)
    | ListBlock(items: seq<ListItem>)
    | OtherBlock(kind: string)

  datatype ListItem = ListItem(leader: string, children: seq<MdNode>)

  /** The manager of `sgs/heros/__init__.py`, or the older one of `sgs/__init__.py`. */
  datatype Variant = Current | Legacy

  const ValidHeading: string := "武将牌"
  const MonarchTag: string := "主公技"

  /** A hero as the managers fill it in; `mdFields` holds the fields set from `key: value` lines. */
  datatype HeroEntry = HeroEntry(
    pack: string,
    name: string,
    contents: seq<Node>,
    hp: int,
    hpMax: int,
    isMonarch: bool,
    mdFields: map<string, string>)

  /** `Hero(pack, name)` */
  function NewHero(pack: string, name: string): HeroEntry {
    HeroEntry(pack, name, [], 0, 0, false, map[])
  }

  /** The manager's fields. */
  datatype MgrState = MgrState(heros: seq<HeroEntry>, level: int, curPack: string, status: bool, linePrefix: string)

  /** A fresh manager. */
  const Initial: MgrState := MgrState([], 1, "", true, "")

  datatype OutlineError =
    | NoLevelHandler(level: int)   // no `process_level_<n>` method
    | NoTypeHandler(kind: string)  // no `process_<type>` method
    | IndexError
    | KeyError
    | TypeError(kind: string)

  /** The state after a call, and the exception it raised, if any. */
  datatype Outcome = Outcome(st: MgrState, err: Option<OutlineError>)

  function TypeName(n: MdNode): string {
    match n
    case Heading(_, _) => "Heading"
    case SetextHeading(_, _) => "SetextHeading"
    case Paragraph(_) => "Paragraph"
    case ListBlock(_) => "List"
    case OtherBlock(k) => k
  }

  /** The field names with a `key: value` pattern, in field order. */
  function MdKeys(v: Variant): seq<string> {
    if v == Legacy then ["biligame_key", "biligame_skill_ver"] else []
  }

  // ----- the level/status walker -----

  /** A node with a `level` key: a heading of either kind. */
  predicate HasLevel(node: MdNode) {
    node.Heading? || node.SetextHeading?
  }

  /** `pre_process`: headings no deeper than the current level always pass, deeper ones only while status is on; body nodes always pass. */
  predicate PreProcess(st: MgrState, node: MdNode) {
    !HasLevel(node) || node.level <= st.level || st.status
  }

  /** The level update of `process_node`: a heading sets its level and turns status on; the first body node after it descends one level. */
  function Enter(st: MgrState, node: MdNode): MgrState {
    if HasLevel(node) && node.level != 0 then st.(level := node.level, status := true)
    else if st.status then st.(level := st.level + 1, status := false)
    else st
  }

  /** `children[0]['content']` of a heading or of a bold or italic span. */
  function FirstContent(inlines: seq<Inline>): Result<string, OutlineError> {
    if inlines == [] then Err(IndexError)
    else if inlines[0].RawText? then Ok(inlines[0].content)
    else Err(OutlineError.KeyError)
  }

  function NodeSize(n: MdNode): (z: nat)
    ensures z >= 1
  {
    match n
    case ListBlock(items) => 1 + ItemsSize(items)
    case _ => 1
  }

  function ItemsSize(items: seq<ListItem>): (z: nat)
    ensures z >= 1
  {
    if items == [] then 1 else ChildrenSize(items[0].children) + ItemsSize(items[1..])
  }

  function ChildrenSize(cs: seq<MdNode>): (z: nat)
    ensures z >= 1
  {
    if cs == [] then 1 else NodeSize(cs[0]) + ChildrenSize(cs[1..])
  }

  /** `process_node(node)` */
  function Processed(v: Variant, st: MgrState, node: MdNode): (r: Outcome)
    ensures !PreProcess(st, node) ==> r == Outcome(st, None)
    ensures PreProcess(st, node) && HasLevel(node) && node.level !in {0, 1, 2, 3, 4} ==>
      r == Outcome(Enter(st, node), Some(NoLevelHandler(node.level)))
    decreases NodeSize(node), 1
  {
    if !PreProcess(st, node) then Outcome(st, None) else Dispatched(v, Enter(st, node), node)
  }

  /** `getattr(self, f'process_level_{self.level}')(node)` */
  function Dispatched(v: Variant, st: MgrState, node: MdNode): (r: Outcome)
    ensures st.level !in {1, 2, 3, 4} ==> r == Outcome(st, Some(NoLevelHandler(st.level)))
    ensures st.level in {1, 2} ==> r.st.heros == st.heros
    ensures st.level == 3 && r.st.heros != st.heros ==>
      && |r.st.heros| == |st.heros| + 1 && r.st.heros[..|st.heros|] == st.heros
      && r.st.heros[|st.heros|] == NewHero(st.curPack, r.st.heros[|st.heros|].name)
    ensures st.level in {1, 2, 3} ==> r.st.level == st.level
    decreases NodeSize(node), 0
  {
    if st.level == 1 then
      if !node.Heading? then Outcome(st.(status := false), None)
      else
        var c := FirstContent(node.inlines);
        if c.Err? then Outcome(st, Some(c.error))
        else if c.value != ValidHeading then Outcome(st.(status := false), None)
        else Outcome(st, None)
    else if st.level == 2 then
      if !node.Heading? then Outcome(st, None)
      else
        var c := FirstContent(node.inlines);
        if c.Err? then Outcome(st, Some(c.error)) else Outcome(st.(curPack := c.value), None)
    else if st.level == 3 then
      if !node.Heading? then Outcome(st, None)
      else if v == Current then
        if node.inlines == [] then Outcome(st, Some(IndexError))
        else if node.inlines[0].RawText? then
          Outcome(st.(heros := st.heros + [NewHero(st.curPack, node.inlines[0].content)]), None)
        else Outcome(st.(status := false), None)
      else
        var c := FirstContent(node.inlines);
        if c.Err? then Outcome(st, Some(c.error))
        else Outcome(st.(heros := st.heros + [NewHero(st.curPack, c.value)]), None)
    else if st.level == 4 then
      match node
      case Paragraph(inl) => ParagraphDone(v, st, inl)
      case ListBlock(items) => ItemsDone(v, st, items)
      case _ => Outcome(st, Some(NoTypeHandler(TypeName(node))))
    else Outcome(st, Some(NoLevelHandler(st.level)))
  }

  /** `process_List`: each item's children with the item's leader as line prefix, which is cleared after the item. */
  function ItemsDone(v: Variant, st: MgrState, items: seq<ListItem>): Outcome
    decreases ItemsSize(items), 2
  {
    if items == [] then Outcome(st, None)
    else
      var o := ChildrenDone(v, st.(linePrefix := items[0].leader), items[0].children);
      if o.err.Some? then o else ItemsDone(v, o.st.(linePrefix := ""), items[1..])
  }

  /** The nodes processed in order, stopping at the first exception. */
  function ChildrenDone(v: Variant, st: MgrState, cs: seq<MdNode>): Outcome
    decreases ChildrenSize(cs), 2
  {
    if cs == [] then Outcome(st, None)
    else
      var o := Processed(v, st, cs[0]);
      if o.err.Some? then o else ChildrenDone(v, o.st, cs[1..])
  }

  // ----- the paragraph pass -----

  /** `str(GeneralBlock('div', cur_strs))`: the texts run together. */
  function PlainText(cs: seq<Node>): string {
    if cs == [] then ""
    else
      var head := match cs[0] case Str(s) => s case Txt(_, t) => t case _ => "";
      head + PlainText(cs[1..])
  }

  /** The hp pair an `HP=a` or `HP=a/b` line gives; b is 0 when absent. */
  datatype HpPair = HpPair(hp: nat, hpMax: nat)

  /** The length of the leading run of ASCII digits. */
  function DigitRun(s: string): (i: nat)
    ensures i <= |s| && AllDigits(s[..i]) && (i < |s| ==> !IsDigit(s[i]))
  {
    if s == [] || !IsDigit(s[0]) then 0
    else
      var i := 1 + DigitRun(s[1..]);
      assert forall k :: 1 <= k < i ==> s[..i][k] == s[1..][..i - 1][k - 1];
      i
  }

  /** `HP_PATTERN.fullmatch(line)`: `HP=`, digits, and optionally `/` and digits, and nothing else. */
  function HpLine(s: string): (r: Option<HpPair>)
    ensures r.Some? ==> StartsWith(s, "HP=") && |s| > 3 && IsDigit(s[3])
  {
    if StartsWith(s, "HP=") then HpValues(s[3..]) else None
  }

  /** The part of `HpLine` after `HP=`. */
  function HpValues(t: string): Option<HpPair> {
    var i := DigitRun(t);
    if i == 0 then None
    else if i == |t| then Some(HpPair(DigitsValue(t), 0))
    else if t[i] == '/' && i + 1 < |t| && AllDigits(t[i + 1..]) then Some(HpPair(DigitsValue(t[..i]), DigitsValue(t[i + 1..])))
    else None
  }

  /** The lines the pattern accepts, written without the parser. */
  predicate HpShaped(s: string) {
    && StartsWith(s, "HP=")
    && var t := s[3..];
      || (t != [] && AllDigits(t))
      || exists i :: 0 < i < |t| - 1 && t[i] == '/' && AllDigits(t[..i]) && AllDigits(t[i + 1..])
  }

  /** The parser accepts exactly the lines of the pattern's shape. */
  lemma HpLineAccepts(s: string)
    ensures HpLine(s).Some? <==> HpShaped(s)
  {
    if StartsWith(s, "HP=") {
      var t := s[3..];
      var i := DigitRun(t);
      if t != [] && AllDigits(t) {
        DigitRunAll(t);
        assert t[..i] == t;
      } else if HpShaped(s) {
        var j :| 0 < j < |t| - 1 && t[j] == '/' && AllDigits(t[..j]) && AllDigits(t[j + 1..]);
        assert t == t[..j] + t[j..];
        DigitRunStops(t[..j], t[j..]);
      }
      if HpLine(s).Some? && i != |t| {
        assert 0 < i < |t| - 1 && t[i] == '/' && AllDigits(t[..i]) && AllDigits(t[i + 1..]);
      }
    }
  }

  /** Rendering hp values as the file writes them parses back to the same values. */
  lemma HpLineRoundTrip(a: nat, b: nat)
    ensures HpLine("HP=" + NatToString(a)) == Some(HpPair(a, 0))
    ensures HpLine("HP=" + NatToString(a) + "/" + NatToString(b)) == Some(HpPair(a, b))
  {
    var da, db := NatToString(a), NatToString(b);
    HpPrefix(da);
    HpPrefix(da + "/" + db);
    assert "HP=" + da + "/" + db == "HP=" + (da + "/" + db);
    HpValuesRoundTrip(a, b);
  }

  lemma HpPrefix(t: string)
    ensures HpLine("HP=" + t) == HpValues(t)
  {
    var s := "HP=" + t;
    assert s[..3] == "HP=" && s[3..] == t;
  }

  lemma HpValuesRoundTrip(a: nat, b: nat)
    ensures HpValues(NatToString(a)) == Some(HpPair(a, 0))
    ensures HpValues(NatToString(a) + "/" + NatToString(b)) == Some(HpPair(a, b))
  {
    var da, db := NatToString(a), NatToString(b);
    DigitsRoundTrip(a);
    DigitsRoundTrip(b);
    DigitRunAll(da);
    var t := da + "/" + db;
    assert t == da + ("/" + db);
    DigitRunStops(da, "/" + db);
    assert t[..|da|] == da && t[|da| + 1..] == db;
  }

  lemma {:induction false} DigitRunAll(s: string)
    requires AllDigits(s)
    ensures DigitRun(s) == |s|
    decreases |s|
  {
    if s != [] {
      DigitRunAll(s[1..]);
    }
  }

  lemma {:induction false} DigitRunStops(d: string, rest: string)
    requires AllDigits(d) && rest != [] && !IsDigit(rest[0])
    ensures DigitRun(d + rest) == |d|
    decreases |d|
  {
    if d != [] {
      assert (d + rest)[0] == d[0] && IsDigit(d[0]);
      assert (d + rest)[1..] == d[1..] + rest;
      assert AllDigits(d[1..]);
      DigitRunStops(d[1..], rest);
    } else {
      assert d + rest == rest;
    }
  }

  /** The hero after an hp line: hp is a, and hp_max is b, or a when b is 0. */
  function WithHp(h: HeroEntry, p: HpPair): (r: HeroEntry)
    ensures r.hp == p.hp && r.hpMax == (if p.hpMax != 0 then p.hpMax else p.hp)
    ensures r.(hp := h.hp, hpMax := h.hpMax) == h
  {
    h.(hp := p.hp, hpMax := if p.hpMax == 0 && p.hp != 0 then p.hp else p.hpMax)
  }

  /**
   * `re.compile(key + r':\s*([^\s]*)$').match(line)`: the line starts with the
   * key and a colon, then white space, a run without white space — the value —
   * and at most a final newline.
   */
  function MdKeyValue(line: string, key: string): (r: Option<string>)
    ensures r.Some? ==> StartsWith(line, key + ":")
    ensures r.Some? ==> forall k :: 0 <= k < |r.value| ==> !IsSpace(r.value[k])
  {
    if !StartsWith(line, key + ":") then None
    else
      var t := StripLeft(line[|key| + 1..]);
      var i := FirstSpace(t);
      if t[i..] == "" || t[i..] == "\n" then Some(t[..i]) else None
  }

  /** A `key: value` line written with a blank and a value without white space reads back its value. */
  lemma MdKeyRoundTrip(key: string, value: string)
    requires forall k :: 0 <= k < |value| ==> !IsSpace(value[k])
    ensures MdKeyValue(key + ": " + value, key) == Some(value)
    ensures MdKeyValue(key + ": " + value + "\n", key) == Some(value)
  {
    assert key + ": " + value == key + ": " + value + "";
    MdKeyRoundTripWith(key, value, "");
    MdKeyRoundTripWith(key, value, "\n");
  }

  /** One case of the round trip: the line ends right after the value, or with a newline. */
  lemma MdKeyRoundTripWith(key: string, value: string, tail: string)
    requires forall k :: 0 <= k < |value| ==> !IsSpace(value[k])
    requires tail == "" || tail == "\n"
    ensures MdKeyValue(key + ": " + value + tail, key) == Some(value)
  {
    var v := value + tail;
    assert key + ": " + value + tail == key + ":" + (" " + v);
    MdKeyLine(key, " " + v);
    StripLeftBlank(v);
    if value == [] {
      assert v == tail;
      assert StripLeft("\n") == StripLeft("");
    } else {
      assert v[0] == value[0];
      StripLeftNone(v);
      if tail == [] {
        assert v == value;
        FirstSpaceNone(value);
      } else {
        FirstSpaceStops(value, tail);
      }
      var u := StripLeft(" " + v);
      assert u == v && FirstSpace(u) == |value|;
      assert u[..|value|] == value && u[|value|..] == tail;
    }
  }

  lemma StripLeftBlank(s: string)
    ensures StripLeft(" " + s) == StripLeft(s)
  {
    assert (" " + s)[1..] == s;
  }

  /** The line `key:` followed by `t` is matched on what `t` holds after its leading white space. */
  lemma MdKeyLine(key: string, t: string)
    ensures var u := StripLeft(t);
      var i := FirstSpace(u);
      MdKeyValue(key + ":" + t, key) == if u[i..] == "" || u[i..] == "\n" then Some(u[..i]) else None
  {
    var l := key + ":" + t;
    assert l[..|key + ":"|] == key + ":" && l[|key| + 1..] == t;
  }

  lemma StripLeftNone(s: string)
    requires s == [] || !IsSpace(s[0])
    ensures StripLeft(s) == s
  {
  }

  lemma {:induction false} FirstSpaceNone(s: string)
    requires forall k :: 0 <= k < |s| ==> !IsSpace(s[k])
    ensures FirstSpace(s) == |s|
    decreases |s|
  {
    if s != [] {
      FirstSpaceNone(s[1..]);
    }
  }

  lemma {:induction false} FirstSpaceStops(s: string, rest: string)
    requires forall k :: 0 <= k < |s| ==> !IsSpace(s[k])
    requires rest != [] && IsSpace(rest[0])
    ensures FirstSpace(s + rest) == |s|
    decreases |s|
  {
    if s != [] {
      assert (s + rest)[1..] == s[1..] + rest;
      FirstSpaceStops(s[1..], rest);
    } else {
      assert s + rest == rest;
    }
  }

  /** The first field whose pattern matches, in field order. */
  function FirstKey(keys: seq<string>, line: string): (r: Option<string>)
    ensures r.Some? ==> r.value in keys && MdKeyValue(line, r.value).Some?
    ensures r.None? ==> forall k :: k in keys ==> MdKeyValue(line, k).None?
  {
    if keys == [] then None
    else if MdKeyValue(line, keys[0]).Some? then Some(keys[0])
    else FirstKey(keys[1..], line)
  }

  function SetLast(st: MgrState, h: HeroEntry): MgrState
    requires st.heros != []
  {
    st.(heros := st.heros[..|st.heros| - 1] + [h])
  }

  function LastHero(st: MgrState): HeroEntry
    requires st.heros != []
  {
    st.heros[|st.heros| - 1]
  }

  /** The state of a paragraph pass: the manager, the kept lines, and an exception. */
  datatype Para = Para(st: MgrState, lines: seq<Node>, err: Option<OutlineError>)

  /**
   * `add_to_lines()` on the pieces `cur` gathered since the last line break:
   * an empty line is dropped; an hp line or a `key: value` line sets the
   * current hero's fields and is dropped; any other line marks the hero as
   * a monarch when it holds the tag, and is kept, as an `li` with the list
   * leader inside a list item.
   */
  function AddedLine(v: Variant, st: MgrState, cur: seq<Node>, lines: seq<Node>): (r: Para)
    ensures r.err.Some? ==> r.err == Some(IndexError) && st.heros == [] && r.st == st
    ensures r.st.(heros := st.heros) == st && |r.st.heros| == |st.heros|
    ensures r.lines == lines || (|r.lines| == |lines| + 1 && r.lines[..|lines|] == lines)
  {
    var raw := PlainText(Keep(cur));
    if raw == "" then Para(st, lines, None)
    else if st.heros == [] then Para(st, lines, Some(IndexError))
    else
      var h := LastHero(st);
      var hp := HpLine(raw);
      if hp.Some? then Para(SetLast(st, WithHp(h, hp.value)), lines, None)
      else
        var key := FirstKey(MdKeys(v), raw);
        if key.Some? then
          Para(SetLast(st, h.(mdFields := h.mdFields[key.value := MdKeyValue(raw, key.value).value])), lines, None)
        else
          var h' := if Contains(raw, MonarchTag) then h.(isMonarch := true) else h;
          var line := if st.linePrefix != "" then UL("li", Keep(cur), st.linePrefix) else Block("div", Keep(cur));
          Para(SetLast(st, h'), lines + [line], None)
  }

  /** The paragraph loop from the inline `inl` on, with the pieces `cur` and the kept `lines`. */
  function ParaFrom(v: Variant, st: MgrState, inl: seq<Inline>, cur: seq<Node>, lines: seq<Node>): (r: Para)
    ensures r.st.(heros := st.heros) == st && |r.st.heros| == |st.heros|
    decreases |inl|
  {
    if inl == [] then AddedLine(v, st, cur, lines)
    else
      match inl[0]
      case Strong(cs) =>
        var t := FirstContent(cs);
        if t.Err? then Para(st, lines, Some(t.error)) else ParaFrom(v, st, inl[1..], cur + [Txt(BC, t.value)], lines)
      case Emphasis(cs) =>
        var t := FirstContent(cs);
        if t.Err? then Para(st, lines, Some(t.error)) else ParaFrom(v, st, inl[1..], cur + [Txt(IC, t.value)], lines)
      case RawText(c) => ParaFrom(v, st, inl[1..], cur + [Str(c)], lines)
      case LineBreak =>
        var p := AddedLine(v, st, cur, lines);
        if p.err.Some? then p else ParaFrom(v, p.st, inl[1..], [], p.lines)
      case OtherInline(k) => Para(st, lines, Some(TypeError(k)))
  }

  /** `process_Paragraph(node)`: the kept lines become one `p` block of the current hero, `li` runs grouped into `ul`. */
  function ParagraphDone(v: Variant, st: MgrState, inl: seq<Inline>): (r: Outcome)
    ensures r.st.(heros := st.heros) == st && |r.st.heros| == |st.heros|
  {
    var p := ParaFrom(v, st, inl, [], []);
    if p.err.Some? then Outcome(p.st, p.err)
    else if p.lines == [] then Outcome(p.st, None)
    else if p.st.heros == [] then Outcome(p.st, Some(IndexError))
    else
      var h := LastHero(p.st);
      Outcome(SetLast(p.st, h.(contents := h.contents + [Block("p", Keep(Collect(p.lines)))])), None)
  }

  /** The whole document, node by node, as `load` feeds it. */
  function DocumentDone(v: Variant, nodes: seq<MdNode>): Outcome {
    ChildrenDone(v, Initial, nodes)
  }

  // ----- properties of the walker -----

  /** A processed heading sets the level to its own; then status is on, except where its level's handler turns it off. */
  lemma HeadingSetsLevel(v: Variant, st: MgrState, node: MdNode)
    requires node.Heading? && node.level != 0 && PreProcess(st, node) && node.level != 4
    ensures Processed(v, st, node).st.level == node.level
    ensures Processed(v, st, node).err.None? && node.level == 2 ==> Processed(v, st, node).st.status
    ensures Processed(v, st, node).err.None? && node.level == 1 ==>
      (Processed(v, st, node).st.status <==> FirstContent(node.inlines) == Ok(ValidHeading))
    ensures node.level !in {1, 2, 3, 4} ==> Processed(v, st, node).err == Some(NoLevelHandler(node.level))
  {
  }

  /** A heading deeper than the current level is skipped while status is off, and nothing changes. */
  lemma DeeperSkipped(v: Variant, st: MgrState, node: MdNode)
    requires node.Heading? && node.level > st.level && !st.status
    ensures Processed(v, st, node) == Outcome(st, None)
  {
  }

  /** A heading at the current level or above is always processed, whatever the status. */
  lemma ShallowerProcessed(st: MgrState, node: MdNode)
    requires node.Heading? && node.level <= st.level
    ensures PreProcess(st, node)
  {
  }

  /** The first body node after a heading descends one level and turns status off; later ones stay at that level. */
  lemma BodyDescends(st: MgrState, node: MdNode)
    requires !HasLevel(node)
    ensures PreProcess(st, node)
    ensures st.status ==> Enter(st, node) == st.(level := st.level + 1, status := false)
    ensures !st.status ==> Enter(st, node) == st
  {
  }

  /** A level-1 node other than the heading '武将牌' turns status off, so the level-2 heading after it is ignored. */
  lemma InvalidTopIgnoresSub(v: Variant, st: MgrState, top: MdNode, sub: MdNode)
    requires top.Heading? && top.level == 1
    requires FirstContent(top.inlines).Ok? && FirstContent(top.inlines).value != ValidHeading
    requires sub.Heading? && sub.level == 2
    ensures var o := Processed(v, st, top);
      o.err.None? && !o.st.status && Processed(v, o.st, sub) == Outcome(o.st, None)
  {
  }

  /**
   * A level-3 heading whose first child is raw text appends exactly one hero
   * for the current pack; in the current manager another first child turns
   * status off instead, while the older one reads its content regardless.
   */
  lemma HeroHeading(v: Variant, st: MgrState, node: MdNode)
    requires node.Heading? && node.level == 3 && PreProcess(st, node) && node.inlines != []
    ensures node.inlines[0].RawText? ==>
      Processed(v, st, node) ==
        Outcome(st.(level := 3, status := true, heros := st.heros + [NewHero(st.curPack, node.inlines[0].content)]), None)
    ensures !node.inlines[0].RawText? && v == Current ==>
      Processed(v, st, node) == Outcome(st.(level := 3, status := false), None)
    ensures !node.inlines[0].RawText? && v == Legacy ==>
      Processed(v, st, node) == Outcome(st.(level := 3, status := true), Some(OutlineError.KeyError))
  {
  }

  /**
   * A setext heading sets the level like any heading, but no level handler
   * takes it for a 'Heading': at level 1 it turns status off, at levels 2
   * and 3 it names no pack and no hero, and at level 4 there is no
   * `process_SetextHeading`.
   */
  lemma SetextHeadingNotHeading(v: Variant, st: MgrState, level: int, inl: seq<Inline>)
    requires level in {1, 2, 3, 4} && PreProcess(st, SetextHeading(level, inl))
    ensures var o := Processed(v, st, SetextHeading(level, inl));
      && o.st.heros == st.heros && o.st.curPack == st.curPack && o.st.level == level
      && (level in {1, 2, 3} ==> o.err.None? && (o.st.status <==> level != 1))
      && (level == 4 ==> o.err == Some(NoTypeHandler("SetextHeading")))
  {
  }

  /**
   * A bold or italic span is read through its first child's `content`: a
   * span with no children raises IndexError, one whose first child is not
   * raw text (a link, a nested span) raises KeyError, and either way the
   * paragraph stops with the manager unchanged. Otherwise only that first
   * child's text is kept.
   */
  lemma SpanFirstChild(v: Variant, st: MgrState, span: Inline, rest: seq<Inline>, cur: seq<Node>, lines: seq<Node>)
    requires span.Strong? || span.Emphasis?
    ensures span.children == [] ==> ParaFrom(v, st, [span] + rest, cur, lines) == Para(st, lines, Some(IndexError))
    ensures span.children != [] && !span.children[0].RawText? ==>
      ParaFrom(v, st, [span] + rest, cur, lines) == Para(st, lines, Some(OutlineError.KeyError))
    ensures span.children != [] && span.children[0].RawText? ==>
      ParaFrom(v, st, [span] + rest, cur, lines) ==
        ParaFrom(v, st, rest, cur + [Txt(if span.Strong? then BC else IC, span.children[0].content)], lines)
  {
    assert ([span] + rest)[0] == span && ([span] + rest)[1..] == rest;
  }

  /** The only change a pass over a single line makes to the manager is to its last hero. */
  lemma {:induction false} AddedLineKeeps(v: Variant, st: MgrState, cur: seq<Node>, lines: seq<Node>)
    ensures var p := AddedLine(v, st, cur, lines);
      && p.st.level == st.level && p.st.status == st.status && p.st.curPack == st.curPack && p.st.linePrefix == st.linePrefix
      && |p.st.heros| == |st.heros|
      && p.st.heros[..|st.heros| - (if st.heros == [] then 0 else 1)] == st.heros[..|st.heros| - (if st.heros == [] then 0 else 1)]
      && (p.lines == lines || (p.err.None? && p.lines == lines + [p.lines[|p.lines| - 1]]))
  {
    var p := AddedLine(v, st, cur, lines);
    if st.heros != [] {
      assert p.st.heros[..|st.heros| - 1] == st.heros[..|st.heros| - 1];
    }
  }

  /** An hp line sets hp and hp_max of the current hero and is not kept. */
  lemma HpLineNotKept(v: Variant, st: MgrState, cur: seq<Node>, lines: seq<Node>)
    requires st.heros != [] && HpLine(PlainText(Keep(cur))).Some?
    ensures var p := AddedLine(v, st, cur, lines);
      var hp := HpLine(PlainText(Keep(cur))).value;
      && p == Para(SetLast(st, WithHp(LastHero(st), hp)), lines, None)
      && LastHero(p.st).hp == hp.hp
      && LastHero(p.st).hpMax == (if hp.hpMax != 0 then hp.hpMax else hp.hp)
  {
  }

  /** In the older manager a `key: value` line for an md-key field sets that field and is not kept. */
  lemma MdKeyLineNotKept(st: MgrState, cur: seq<Node>, lines: seq<Node>, key: string)
    requires st.heros != [] && key in MdKeys(Legacy)
    requires var raw := PlainText(Keep(cur)); HpLine(raw).None? && MdKeyValue(raw, key).Some?
    ensures var p := AddedLine(Legacy, st, cur, lines);
      var raw := PlainText(Keep(cur));
      var k := FirstKey(MdKeys(Legacy), raw).value;
      && p.lines == lines && p.err.None? && k in MdKeys(Legacy)
      && LastHero(p.st) == LastHero(st).(mdFields := LastHero(st).mdFields[k := MdKeyValue(raw, k).value])
  {
  }

  /**
   * Any other non-empty line is kept, as an `li` with the leader inside a list
   * item; a line holding '主公技' also marks the current hero as a monarch.
   */
  lemma MonarchLineKept(v: Variant, st: MgrState, cur: seq<Node>, lines: seq<Node>)
    requires st.heros != []
    requires var raw := PlainText(Keep(cur)); raw != "" && HpLine(raw).None? && FirstKey(MdKeys(v), raw).None?
    ensures var p := AddedLine(v, st, cur, lines);
      var raw := PlainText(Keep(cur));
      && p.err.None?
      && p.lines == lines + [if st.linePrefix != "" then UL("li", Keep(cur), st.linePrefix) else Block("div", Keep(cur))]
      && LastHero(p.st).isMonarch == (LastHero(st).isMonarch || Contains(raw, MonarchTag))
      && LastHero(p.st).(isMonarch := LastHero(st).isMonarch) == LastHero(st)
  {
  }

  /** The heroes `b` after some processing of `a`: none removed, none renamed or moved, and only the last one written to. */
  predicate Extends(a: seq<HeroEntry>, b: seq<HeroEntry>) {
    && |a| <= |b|
    && (forall k :: 0 <= k < |a| ==> b[k].name == a[k].name && b[k].pack == a[k].pack)
    && (forall k :: 0 <= k < |a| - 1 ==> b[k] == a[k])
  }

  lemma ExtendsTrans(a: seq<HeroEntry>, b: seq<HeroEntry>, c: seq<HeroEntry>)
    requires Extends(a, b) && Extends(b, c)
    ensures Extends(a, c)
  {
  }

  /** Replacing the last hero by one of the same name and pack extends the heroes. */
  lemma SetLastExtends(st: MgrState, h: HeroEntry)
    requires st.heros != [] && h.name == LastHero(st).name && h.pack == LastHero(st).pack
    ensures Extends(st.heros, SetLast(st, h).heros)
  {
    var hs := SetLast(st, h).heros;
    assert hs[..|st.heros| - 1] == st.heros[..|st.heros| - 1];
  }

  lemma AddedLineExtends(v: Variant, st: MgrState, cur: seq<Node>, lines: seq<Node>)
    ensures Extends(st.heros, AddedLine(v, st, cur, lines).st.heros)
  {
    var raw := PlainText(Keep(cur));
    if raw != "" && st.heros != [] {
      var h := LastHero(st);
      var hp := HpLine(raw);
      var key := FirstKey(MdKeys(v), raw);
      if hp.Some? {
        SetLastExtends(st, WithHp(h, hp.value));
      } else if key.Some? {
        SetLastExtends(st, h.(mdFields := h.mdFields[key.value := MdKeyValue(raw, key.value).value]));
      } else {
        SetLastExtends(st, if Contains(raw, MonarchTag) then h.(isMonarch := true) else h);
      }
    }
  }

  lemma {:induction false} ParaFromExtends(v: Variant, st: MgrState, inl: seq<Inline>, cur: seq<Node>, lines: seq<Node>)
    ensures Extends(st.heros, ParaFrom(v, st, inl, cur, lines).st.heros)
    decreases |inl|
  {
    if inl == [] {
      AddedLineExtends(v, st, cur, lines);
    } else if inl[0].LineBreak? {
      var p := AddedLine(v, st, cur, lines);
      AddedLineExtends(v, st, cur, lines);
      if p.err.None? {
        ParaFromExtends(v, p.st, inl[1..], [], p.lines);
        ExtendsTrans(st.heros, p.st.heros, ParaFrom(v, p.st, inl[1..], [], p.lines).st.heros);
      }
    } else if inl[0].RawText? {
      ParaFromExtends(v, st, inl[1..], cur + [Str(inl[0].content)], lines);
    } else if (inl[0].Strong? || inl[0].Emphasis?) && FirstContent(inl[0].children).Ok? {
      var t := FirstContent(inl[0].children).value;
      ParaFromExtends(v, st, inl[1..], cur + [Txt(if inl[0].Strong? then BC else IC, t)], lines);
    }
  }

  lemma ParagraphExtends(v: Variant, st: MgrState, inl: seq<Inline>)
    ensures Extends(st.heros, ParagraphDone(v, st, inl).st.heros)
  {
    var p := ParaFrom(v, st, inl, [], []);
    ParaFromExtends(v, st, inl, [], []);
    if p.err.None? && p.lines != [] && p.st.heros != [] {
      var h := LastHero(p.st);
      var h' := h.(contents := h.contents + [Block("p", Keep(Collect(p.lines)))]);
      assert ParagraphDone(v, st, inl).st == SetLast(p.st, h');
      SetLastExtends(p.st, h');
      ExtendsTrans(st.heros, p.st.heros, SetLast(p.st, h').heros);
    }
  }

  /**
   * Processing never removes, renames or reorders a hero, and writes only to
   * the last one: body lines always belong to the hero of the latest level-3
   * heading.
   */
  lemma {:induction false} ProcessedExtends(v: Variant, st: MgrState, node: MdNode)
    ensures Extends(st.heros, Processed(v, st, node).st.heros)
    decreases NodeSize(node), 1
  {
    if PreProcess(st, node) {
      DispatchedExtends(v, Enter(st, node), node);
    }
  }

  lemma {:induction false} DispatchedExtends(v: Variant, st: MgrState, node: MdNode)
    ensures Extends(st.heros, Dispatched(v, st, node).st.heros)
    decreases NodeSize(node), 0
  {
    if st.level == 4 {
      match node
      case Paragraph(inl) => ParagraphExtends(v, st, inl);
      case ListBlock(items) => ItemsExtends(v, st, items);
      case _ =>
    }
  }

  lemma {:induction false} ItemsExtends(v: Variant, st: MgrState, items: seq<ListItem>)
    ensures Extends(st.heros, ItemsDone(v, st, items).st.heros)
    decreases ItemsSize(items), 2
  {
    if items != [] {
      var st1 := st.(linePrefix := items[0].leader);
      var o := ChildrenDone(v, st1, items[0].children);
      ChildrenExtends(v, st1, items[0].children);
      if o.err.None? {
        ItemsExtends(v, o.st.(linePrefix := ""), items[1..]);
        ExtendsTrans(st.heros, o.st.heros, ItemsDone(v, o.st.(linePrefix := ""), items[1..]).st.heros);
      }
    }
  }

  lemma {:induction false} ChildrenExtends(v: Variant, st: MgrState, cs: seq<MdNode>)
    ensures Extends(st.heros, ChildrenDone(v, st, cs).st.heros)
    decreases ChildrenSize(cs), 2
  {
    if cs != [] {
      var o := Processed(v, st, cs[0]);
      ProcessedExtends(v, st, cs[0]);
      if o.err.None? {
        ChildrenExtends(v, o.st, cs[1..]);
        ExtendsTrans(st.heros, o.st.heros, ChildrenDone(v, o.st, cs[1..]).st.heros);
      }
    }
  }

  // ----- queries -----

  /** `search(name, pack)`, without the crawl each found hero triggers. */
  function Search(hs: seq<HeroEntry>, name: string, pack: string): (r: seq<HeroEntry>)
    ensures |r| <= |hs|
  {
    if hs == [] then []
    else
      var h := hs[0];
      (if (pack == "*" || Contains(h.pack, pack)) && Contains(h.name, name) then [h] else []) + Search(hs[1..], name, pack)
  }

  /** A hero is found exactly when its name contains the query and its pack the filter, '*' matching every pack. */
  lemma {:induction false} SearchSpec(hs: seq<HeroEntry>, name: string, pack: string)
    ensures forall h :: h in Search(hs, name, pack) <==>
      h in hs && (pack == "*" || Contains(h.pack, pack)) && Contains(h.name, name)
  {
    if hs != [] {
      SearchSpec(hs[1..], name, pack);
      assert forall h :: h in hs <==> h == hs[0] || h in hs[1..];
    }
  }

  /** `monarchs`: the names of the heroes marked as monarchs. */
  function Monarchs(hs: seq<HeroEntry>): (r: set<string>)
    ensures forall k :: 0 <= k < |hs| && hs[k].isMonarch ==> hs[k].name in r
    ensures forall n :: n in r ==> exists k :: 0 <= k < |hs| && hs[k].isMonarch && hs[k].name == n
  {
    set h | h in hs && h.isMonarch :: h.name
  }

  /** `all_heros`: `name@pack` of every hero, in order. */
  function AllHeros(hs: seq<HeroEntry>): (r: seq<string>)
    ensures |r| == |hs|
    ensures forall k :: 0 <= k < |hs| ==> r[k] == HeroRecord.UniName(hs[k].name, hs[k].pack)
  {
    seq(|hs|, k requires 0 <= k < |hs| => HeroRecord.UniName(hs[k].name, hs[k].pack))
  }

  /** A monarch line of the current hero puts that hero's name among the monarchs. */
  lemma MonarchListed(v: Variant, st: MgrState, cur: seq<Node>, lines: seq<Node>)
    requires st.heros != []
    requires var raw := PlainText(Keep(cur)); HpLine(raw).None? && FirstKey(MdKeys(v), raw).None? && Contains(raw, MonarchTag)
    ensures LastHero(st).name in Monarchs(AddedLine(v, st, cur, lines).st.heros)
  {
    var raw := PlainText(Keep(cur));
    assert raw != "";
    var p := AddedLine(v, st, cur, lines);
    assert LastHero(p.st) in p.st.heros;
  }

  /** The hero a raw-text level-3 heading appends is listed last in `all_heros`, as `name@pack`. */
  lemma HeroHeadingListed(v: Variant, st: MgrState, node: MdNode)
    requires node.Heading? && node.level == 3 && PreProcess(st, node) && node.inlines != [] && node.inlines[0].RawText?
    ensures var hs := Processed(v, st, node).st.heros;
      AllHeros(hs) == AllHeros(st.heros) + [HeroRecord.UniName(node.inlines[0].content, st.curPack)]
  {
    HeroHeading(v, st, node);
    var hs := st.heros + [NewHero(st.curPack, node.inlines[0].content)];
    assert AllHeros(hs)[..|st.heros|] == AllHeros(st.heros);
  }

  /** `HeroMgr`: the walker's fields, updated node by node. */
  class HeroMgr {
    const variant: Variant
    var heros: seq<HeroEntry>
    var level: int
    var curPack: string
    var status: bool
    var linePrefix: string

    function State(): MgrState
      reads this
    {
      MgrState(heros, level, curPack, status, linePrefix)
    }

    /** `HeroMgr()` */
    constructor (variant: Variant)
      ensures this.variant == variant && State() == Initial
    {
      this.variant := variant;
      heros, level, curPack, status, linePrefix := [], 1, "", true, "";
    }

    /** `process_node` on each node in turn, as `load` and `process_List` do; an exception ends the loop. */
    method ProcessNodes(cs: seq<MdNode>) returns (err: Option<OutlineError>)
      modifies this
      ensures Outcome(State(), err) == ChildrenDone(variant, old(State()), cs)
      decreases ChildrenSize(cs), 2
    {
      var i := 0;
      while i < |cs|
        invariant 0 <= i <= |cs|
        invariant ChildrenDone(variant, State(), cs[i..]) == ChildrenDone(variant, old(State()), cs)
        decreases |cs| - i
      {
        ChildrenSizeBounds(cs, i);
        assert cs[i..][1..] == cs[i + 1..];
        err := ProcessNode(cs[i]);
        if err.Some? {
          return;
        }
        i := i + 1;
      }
      err := None;
    }

    /** `process_node(node)` */
    method ProcessNode(node: MdNode) returns (err: Option<OutlineError>)
      modifies this
      ensures Outcome(State(), err) == Processed(variant, old(State()), node)
      decreases NodeSize(node), 1
    {
      if !PreProcess(State(), node) {
        return None;
      }
      if HasLevel(node) && node.level != 0 {
        level, status := node.level, true;
      } else if status {
        level, status := level + 1, false;
      }
      err := ProcessLevel(node);
    }

    /** `process_level_1` to `process_level_4`, by the current level. */
    method ProcessLevel(node: MdNode) returns (err: Option<OutlineError>)
      modifies this
      ensures Outcome(State(), err) == Dispatched(variant, old(State()), node)
      decreases NodeSize(node), 0
    {
      err := None;
      if level == 1 {
        if !node.Heading? {
          status := false;
        } else {
          var c := FirstContent(node.inlines);
          if c.Err? {
            err := Some(c.error);
          } else if c.value != ValidHeading {
            status := false;
          }
        }
      } else if level == 2 {
        if node.Heading? {
          var c := FirstContent(node.inlines);
          if c.Err? {
            err := Some(c.error);
          } else {
            curPack := c.value;
          }
        }
      } else if level == 3 {
        if node.Heading? {
          if variant == Current {
            if node.inlines == [] {
              err := Some(IndexError);
            } else if node.inlines[0].RawText? {
              heros := heros + [NewHero(curPack, node.inlines[0].content)];
            } else {
              status := false;
            }
          } else {
            var c := FirstContent(node.inlines);
            if c.Err? {
              err := Some(c.error);
            } else {
              heros := heros + [NewHero(curPack, c.value)];
            }
          }
        }
      } else if level == 4 {
        match node
        case Paragraph(inl) =>
          err := ProcessParagraph(inl);
        case ListBlock(items) =>
          err := ProcessList(items);
        case _ =>
          err := Some(NoTypeHandler(TypeName(node)));
      } else {
        err := Some(NoLevelHandler(level));
      }
    }

    /** `process_List(node)` */
    method ProcessList(items: seq<ListItem>) returns (err: Option<OutlineError>)
      modifies this
      ensures Outcome(State(), err) == ItemsDone(variant, old(State()), items)
      decreases ItemsSize(items), 2
    {
      var i := 0;
      while i < |items|
        invariant 0 <= i <= |items|
        invariant ItemsDone(variant, State(), items[i..]) == ItemsDone(variant, old(State()), items)
        decreases |items| - i
      {
        ItemsSizeBounds(items, i);
        assert items[i..][1..] == items[i + 1..];
        linePrefix := items[i].leader;
        err := ProcessNodes(items[i].children);
        if err.Some? {
          return;
        }
        linePrefix := "";
        i := i + 1;
      }
      err := None;
    }

    /** `process_Paragraph(node)`, with the local `add_to_lines`. */
    method ProcessParagraph(inl: seq<Inline>) returns (err: Option<OutlineError>)
      modifies this
      ensures Outcome(State(), err) == ParagraphDone(variant, old(State()), inl)
    {
      var cur: seq<Node> := [];
      var lines: seq<Node> := [];
      var i := 0;
      while i < |inl|
        invariant 0 <= i <= |inl|
        invariant ParaFrom(variant, State(), inl[i..], cur, lines) == ParaFrom(variant, old(State()), inl, [], [])
        decreases |inl| - i
      {
        assert inl[i..][1..] == inl[i + 1..];
        match inl[i] {
          case Strong(cs) =>
            var t := FirstContent(cs);
            if t.Err? {
              return Some(t.error);
            }
            cur := cur + [Txt(BC, t.value)];
          case Emphasis(cs) =>
            var t := FirstContent(cs);
            if t.Err? {
              return Some(t.error);
            }
            cur := cur + [Txt(IC, t.value)];
          case RawText(c) =>
            cur := cur + [Str(c)];
          case LineBreak =>
            lines, err := AddToLines(cur, lines);
            if err.Some? {
              return;
            }
            cur := [];
          case OtherInline(k) =>
            return Some(TypeError(k));
        }
        i := i + 1;
      }
      lines, err := AddToLines(cur, lines);
      if err.Some? {
        return;
      }
      if lines != [] {
        if heros == [] {
          return Some(IndexError);
        }
        var h := heros[|heros| - 1];
        var lis := ListCollect(lines);
        heros := heros[..|heros| - 1] + [h.(contents := h.contents + [Block("p", Keep(lis))])];
      }
    }

    /** `add_to_lines()` */
    method AddToLines(cur: seq<Node>, lines: seq<Node>) returns (lines': seq<Node>, err: Option<OutlineError>)
      modifies this
      ensures Para(State(), lines', err) == AddedLine(variant, old(State()), cur, lines)
    {
      lines', err := lines, None;
      var raw := PlainText(Keep(cur));
      if raw == "" {
        return;
      }
      if heros == [] {
        return lines, Some(IndexError);
      }
      var h := heros[|heros| - 1];
      var hp := HpLine(raw);
      if hp.Some? {
        heros := heros[..|heros| - 1] + [WithHp(h, hp.value)];
        return;
      }
      var keys := MdKeys(variant);
      var k := 0;
      while k < |keys|
        invariant 0 <= k <= |keys|
        invariant FirstKey(keys[k..], raw) == FirstKey(keys, raw)
        decreases |keys| - k
      {
        assert keys[k..][1..] == keys[k + 1..];
        var m := MdKeyValue(raw, keys[k]);
        if m.Some? {
          heros := heros[..|heros| - 1] + [h.(mdFields := h.mdFields[keys[k] := m.value])];
          return;
        }
        k := k + 1;
      }
      if Contains(raw, MonarchTag) {
        h := h.(isMonarch := true);
      }
      heros := heros[..|heros| - 1] + [h];
      if linePrefix != "" {
        lines' := lines + [UL("li", Keep(cur), linePrefix)];
      } else {
        lines' := lines + [Block("div", Keep(cur))];
      }
    }
  }

  /** `HeroMgr.load(file_path)`, given the top-level nodes of the parsed document. */
  method Load(v: Variant, nodes: seq<MdNode>) returns (mgr: HeroMgr, err: Option<OutlineError>)
    ensures fresh(mgr) && mgr.variant == v
    ensures Outcome(mgr.State(), err) == DocumentDone(v, nodes)
  {
    mgr := new HeroMgr(v);
    err := mgr.ProcessNodes(nodes);
  }

  lemma {:induction false} ChildrenSizeBounds(cs: seq<MdNode>, i: nat)
    requires i < |cs|
    ensures NodeSize(cs[i]) < ChildrenSize(cs) && ChildrenSize(cs[i + 1..]) < ChildrenSize(cs)
    decreases i
  {
    if i > 0 {
      ChildrenSizeBounds(cs[1..], i - 1);
      assert cs[1..][i - 1] == cs[i] && cs[1..][i..] == cs[i + 1..];
    }
  }

  lemma {:induction false} ItemsSizeBounds(items: seq<ListItem>, i: nat)
    requires i < |items|
    ensures ChildrenSize(items[i].children) < ItemsSize(items) && ItemsSize(items[i + 1..]) < ItemsSize(items)
    decreases i
  {
    if i > 0 {
      ItemsSizeBounds(items[1..], i - 1);
      assert items[1..][i - 1] == items[i] && items[1..][i..] == items[i + 1..];
    }
  }
}
