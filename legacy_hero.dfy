/**
 * The pure parts of the older hero record `sgs/hero.py`: its camp lookup by
 * the whole camp name, the fields the hero file names with `key: value`
 * lines, and the grouping `to_str` applies to a crawled skill or line list.
 */
module LegacyHero {
  import opened Wrappers
  import opened PyText
  import opened Crawler
  import HeroRecord
  import HeroOutline

  /** `Camp.get_value(zn_name)`: the member whose value is the whole name, Unknown for any other name. */
  function GetValue(zn: string): (c: HeroRecord.Camp)
    ensures c != HeroRecord.Unknown ==> HeroRecord.CampValue(c) == zn
    ensures HeroRecord.CampOf(zn).None? ==> c == HeroRecord.Unknown
  {
    match HeroRecord.CampOf(zn)
    case Some(c) => c
    case None => HeroRecord.Unknown
  }

  /** Every camp's own value reads back as that camp. */
  lemma GetValueRoundTrip(c: HeroRecord.Camp)
    ensures GetValue(HeroRecord.CampValue(c)) == c
  {
  }

  /** Unlike the current record, a longer name such as "蜀国" is not a camp here. */
  lemma GetValueWholeName()
    ensures GetValue("蜀国") == HeroRecord.Unknown
    ensures HeroRecord.GetValue("蜀国") == Ok(HeroRecord.Shu)
  {
    assert ["蜀国"[0]] == "蜀";
  }

  /** A dataclass field with its `md_key` metadata, if it has one. */
  datatype FieldMeta = FieldMeta(name: string, mdKey: Option<string>)

  /** The fields of the older `Hero`, in declaration order, with their md keys. */
  const Fields: seq<FieldMeta> := [
    FieldMeta("pack", None), FieldMeta("name", None),
    FieldMeta("biligame_key", Some("")), FieldMeta("biligame_skill_ver", Some("")),
    FieldMeta("title", None), FieldMeta("detail_pack", None), FieldMeta("contents", None),
    FieldMeta("hp", None), FieldMeta("hp_max", None), FieldMeta("image", None),
    FieldMeta("gender", None), FieldMeta("camp", None), FieldMeta("skills", None),
    FieldMeta("lines", None), FieldMeta("position", None), FieldMeta("is_monarch", None)]

  /** One entry of `md_fields`: a field name and the key the hero file uses for it. */
  datatype MdField = MdField(field: string, key: string)

  /** `md_fields`: the fields with an md key, in order, each with its key, or its own name when the key is empty. */
  function MdFields(fs: seq<FieldMeta>): (r: seq<MdField>)
    ensures |r| <= |fs|
    ensures fs != [] && fs[0].mdKey.Some? ==> r != [] && r[0] == MdField(fs[0].name, EffectiveKey(fs[0]))
  {
    if fs == [] then []
    else
      var rest := MdFields(fs[1..]);
      var f := fs[0];
      if f.mdKey.Some? then [MdField(f.name, EffectiveKey(f))] + rest else rest
  }

  function EffectiveKey(f: FieldMeta): string
    requires f.mdKey.Some?
  {
    if f.mdKey.value != "" then f.mdKey.value else f.name
  }

  /** Exactly the fields with md key metadata have an entry, under the key or, when that is empty, the field name. */
  lemma {:induction false} MdFieldsSpec(fs: seq<FieldMeta>)
    ensures |MdFields(fs)| <= |fs|
    ensures forall e :: e in MdFields(fs) ==> exists f :: f in fs && f.mdKey.Some? && e == MdField(f.name, EffectiveKey(f))
    ensures forall f :: f in fs && f.mdKey.Some? ==> MdField(f.name, EffectiveKey(f)) in MdFields(fs)
  {
    if fs != [] {
      MdFieldsSpec(fs[1..]);
      assert forall f :: f in fs <==> f == fs[0] || f in fs[1..];
    }
  }

  function Keys(es: seq<MdField>): (r: seq<string>)
    ensures |r| == |es| && forall k :: 0 <= k < |es| ==> r[k] == es[k].key
  {
    if es == [] then [] else [es[0].key] + Keys(es[1..])
  }

  /**
   * The older hero's md fields are its two biligame fields, each under its own
   * name, and they are exactly the keys the older hero manager matches.
   */
  lemma LegacyMdFields()
    ensures MdFields(Fields) == [MdField("biligame_key", "biligame_key"), MdField("biligame_skill_ver", "biligame_skill_ver")]
    ensures Keys(MdFields(Fields)) == HeroOutline.MdKeys(HeroOutline.Legacy)
  {
    BiligameFields();
    assert Fields[1..][1..] == Fields[2..];
    assert MdFields(Fields) == MdFields(Fields[1..]);
  }

  lemma BiligameFields()
    ensures MdFields(Fields[2..]) == [MdField("biligame_key", "biligame_key"), MdField("biligame_skill_ver", "biligame_skill_ver")]
  {
    PlainFields();
    var f2, f3 := Fields[2], Fields[3];
    assert f2 == FieldMeta("biligame_key", Some("")) && f3 == FieldMeta("biligame_skill_ver", Some(""));
    assert Fields[3..][0] == f3 && Fields[3..][1..] == Fields[4..];
    assert MdFields(Fields[3..]) == [MdField("biligame_skill_ver", "biligame_skill_ver")];
    assert Fields[2..][0] == f2 && Fields[2..][1..] == Fields[3..];
  }

  lemma PlainFields()
    ensures MdFields(Fields[4..]) == []
  {
    var tail := Fields[4..];
    assert forall k :: 0 <= k < |tail| ==> tail[k].mdKey.None?;
    NoMdKeys(tail);
  }

  lemma {:induction false} NoMdKeys(fs: seq<FieldMeta>)
    requires forall k :: 0 <= k < |fs| ==> fs[k].mdKey.None?
    ensures MdFields(fs) == []
  {
    if fs != [] {
      NoMdKeys(fs[1..]);
    }
  }

  // ----- to_str -----

  /** An entry of a crawled skill or line list: a line, or a nested list of strings opening a new section. */
  datatype Item = Line(s: string) | Sub(parts: seq<string>)

  /** What an item contributes to its section: the line itself, or a bold heading of the joined strings. */
  function ItemNode(it: Item): Node {
    match it
    case Line(s) => Str(s)
    case Sub(ps) => Txt(BC, Join(ps, ""))
  }

  /** The sections of `to_str`, from the items left, the closed sections and the open one. */
  function SectionsFrom(items: seq<Item>, secs: seq<seq<Node>>, sec: seq<Node>): seq<seq<Node>>
    decreases |items|
  {
    if items == [] then secs + [sec]
    else match items[0]
      case Sub(_) =>
        if sec != [] then SectionsFrom(items[1..], secs + [sec], [ItemNode(items[0])])
        else SectionsFrom(items[1..], secs, [ItemNode(items[0])])
      case Line(_) => SectionsFrom(items[1..], secs, sec + [ItemNode(items[0])])
  }

  function Sections(items: seq<Item>): (r: seq<seq<Node>>)
    ensures Concat(r) == Nodes(items)
  {
    SectionsFromConcat(items, [], []);
    SectionsFrom(items, [], [])
  }

  function Concat(secs: seq<seq<Node>>): seq<Node> {
    if secs == [] then [] else secs[0] + Concat(secs[1..])
  }

  lemma {:induction false} ConcatSnoc(secs: seq<seq<Node>>, sec: seq<Node>)
    ensures Concat(secs + [sec]) == Concat(secs) + sec
    decreases |secs|
  {
    if secs == [] {
      assert [] + [sec] == [sec];
    } else {
      assert (secs + [sec])[1..] == secs[1..] + [sec];
      ConcatSnoc(secs[1..], sec);
    }
  }

  function Nodes(items: seq<Item>): seq<Node> {
    seq(|items|, k requires 0 <= k < |items| => ItemNode(items[k]))
  }

  /** Closed sections: none empty, each but the first headed in bold, and no bold text past a section's start. */
  predicate Good(secs: seq<seq<Node>>) {
    && (forall k :: 0 <= k < |secs| ==> secs[k] != [])
    && (forall k :: 1 <= k < |secs| ==> secs[k][0].Txt?)
    && (forall k, j :: 0 <= k < |secs| && 0 < j < |secs[k]| ==> !secs[k][j].Txt?)
  }

  /** No bold text past the start of a section. */
  predicate PlainTail(sec: seq<Node>) {
    forall j :: 0 < j < |sec| ==> !sec[j].Txt?
  }

  lemma GoodSnoc(secs: seq<seq<Node>>, sec: seq<Node>)
    requires Good(secs) && sec != [] && PlainTail(sec) && (secs != [] ==> sec[0].Txt?)
    ensures Good(secs + [sec])
  {
    var r := secs + [sec];
    assert forall k :: 0 <= k < |secs| ==> r[k] == secs[k];
  }

  lemma {:induction false} SectionsFromConcat(items: seq<Item>, secs: seq<seq<Node>>, sec: seq<Node>)
    ensures Concat(SectionsFrom(items, secs, sec)) == Concat(secs) + sec + Nodes(items)
    decreases |items|
  {
    if items == [] {
      ConcatSnoc(secs, sec);
      assert Nodes(items) == [];
    } else {
      var n := ItemNode(items[0]);
      assert Nodes(items) == [n] + Nodes(items[1..]);
      if items[0].Sub? {
        if sec != [] {
          SectionsFromConcat(items[1..], secs + [sec], [n]);
          ConcatSnoc(secs, sec);
        } else {
          SectionsFromConcat(items[1..], secs, [n]);
        }
      } else {
        SectionsFromConcat(items[1..], secs, sec + [n]);
      }
    }
  }

  lemma {:induction false} SectionsFromGood(items: seq<Item>, secs: seq<seq<Node>>, sec: seq<Node>)
    requires Good(secs) && PlainTail(sec) && (secs != [] ==> sec != [] && sec[0].Txt?)
    ensures var r := SectionsFrom(items, secs, sec);
      && |r| >= 1 && Good(r[..|r| - 1])
      && var last := r[|r| - 1];
      && PlainTail(last) && (|r| > 1 ==> last != [] && last[0].Txt?)
      && (last == [] <==> items == [] && sec == [])
    decreases |items|
  {
    var r := SectionsFrom(items, secs, sec);
    if items == [] {
      assert r[..|r| - 1] == secs;
    } else {
      var n := ItemNode(items[0]);
      if items[0].Sub? {
        if sec != [] {
          GoodSnoc(secs, sec);
          SectionsFromGood(items[1..], secs + [sec], [n]);
        } else {
          SectionsFromGood(items[1..], secs, [n]);
        }
      } else {
        SectionsFromGood(items[1..], secs, sec + [n]);
      }
    }
  }

  lemma {:induction false} SectionsFromKeeps(items: seq<Item>, secs: seq<seq<Node>>, sec: seq<Node>)
    requires sec != []
    ensures var r := SectionsFrom(items, secs, sec);
      |r| > |secs| && r[|secs|] != [] && r[|secs|][0] == sec[0]
    decreases |items|
  {
    if items != [] {
      var n := ItemNode(items[0]);
      if items[0].Sub? {
        SectionsFromKeeps(items[1..], secs + [sec], [n]);
        SectionsFromPrefix(items[1..], secs + [sec], [n]);
      } else {
        SectionsFromKeeps(items[1..], secs, sec + [n]);
      }
    }
  }

  lemma {:induction false} SectionsFromPrefix(items: seq<Item>, secs: seq<seq<Node>>, sec: seq<Node>)
    ensures var r := SectionsFrom(items, secs, sec);
      |r| > |secs| && r[..|secs|] == secs
    decreases |items|
  {
    if items == [] {
      assert (secs + [sec])[..|secs|] == secs;
    } else {
      var n := ItemNode(items[0]);
      if items[0].Sub? && sec != [] {
        SectionsFromPrefix(items[1..], secs + [sec], [n]);
        var r := SectionsFrom(items, secs, sec);
        assert r[..|secs| + 1][..|secs|] == r[..|secs|];
        assert (secs + [sec])[..|secs|] == secs;
      } else if items[0].Sub? {
        SectionsFromPrefix(items[1..], secs, [n]);
      } else {
        SectionsFromPrefix(items[1..], secs, sec + [n]);
      }
    }
  }

  /**
   * The grouping keeps every item, in order, each as its node; each nested list
   * opens a section headed by its joined text in bold, the line items join the
   * open section, no section but the last is empty, and the last one is empty
   * only when there are no items.
   */
  lemma SectionsSpec(items: seq<Item>)
    ensures var r := Sections(items);
      && Concat(r) == Nodes(items)
      && |r| >= 1
      && (forall k :: 1 <= k < |r| ==> r[k] != [] && r[k][0].Txt?)
      && (forall k, j :: 0 <= k < |r| && 0 < j < |r[k]| ==> !r[k][j].Txt?)
      && (forall k :: 0 <= k < |r| - 1 ==> r[k] != [])
      && (items != [] <==> r[|r| - 1] != [])
  {
    SectionsFromConcat(items, [], []);
    assert Concat([]) == [];
    SectionsFromGood(items, [], []);
    var r := Sections(items);
    assert forall k :: 0 <= k < |r| - 1 ==> r[k] == r[..|r| - 1][k];
  }

  /** A nested list first in the items heads the first section, with no empty section before it. */
  lemma SubFirst(parts: seq<string>, rest: seq<Item>)
    ensures var r := Sections([Sub(parts)] + rest);
      r != [] && r[0] != [] && r[0][0] == Txt(BC, Join(parts, ""))
  {
    var items := [Sub(parts)] + rest;
    assert items[1..] == rest;
    SectionsFromKeeps(rest, [], [ItemNode(Sub(parts))]);
  }

  /** The loop of `to_str` with its `sec`/`secs` accumulators; the final `str` of the nested lists is left out. */
  method ToStr(items: seq<Item>) returns (secs: seq<seq<Node>>)
    ensures secs == Sections(items)
  {
    secs := [];
    var sec: seq<Node> := [];
    var i := 0;
    while i < |items|
      invariant 0 <= i <= |items|
      invariant SectionsFrom(items[i..], secs, sec) == Sections(items)
      decreases |items| - i
    {
      assert items[i..][1..] == items[i + 1..];
      match items[i] {
        case Sub(ps) =>
          if sec != [] {
            secs := secs + [sec];
          }
          sec := [Txt(BC, Join(ps, ""))];
        case Line(s) =>
          sec := sec + [Str(s)];
      }
      i := i + 1;
    }
    secs := secs + [sec];
  }
}
