/**
 * The hero record of the current hero manager: the camp enum decoded from the
 * first character of a camp name, the unique name `name@pack`, the hp/hp_max
 * fallback to the parsed hp values, the image-author setter and the pickle
 * file names `dump` writes and `load` reads.
 *
 * The record imports `GeneralBlock` and `Img` from `sgs/heros/crawler.py`,
 * which is not part of this model; the image is assumed to behave as the
 * `Img` of `sgs/crawler.py`.
 */
module HeroRecord {
  import opened Wrappers
  import opened PyText

  datatype Camp = Unknown | Shu | Wei | Wu | Qun | Jin

  /** The enum value of each camp, one character apart from Unknown's. */
  function CampValue(c: Camp): string {
    match c
    case Unknown => "未知"
    case Shu => "蜀"
    case Wei => "魏"
    case Wu => "吴"
    case Qun => "群"
    case Jin => "晋"
  }

  /** `Camp(s)`: the member whose value is exactly `s`. */
  function CampOf(s: string): (c: Option<Camp>)
    ensures c.Some? ==> CampValue(c.value) == s
  {
    if s == CampValue(Unknown) then Some(Unknown)
    else if s == CampValue(Shu) then Some(Shu)
    else if s == CampValue(Wei) then Some(Wei)
    else if s == CampValue(Wu) then Some(Wu)
    else if s == CampValue(Qun) then Some(Qun)
    else if s == CampValue(Jin) then Some(Jin)
    else None
  }

  datatype HeroError = IndexError | EmptyHps

  /**
   * `Camp.get_value(zn_name)`: the camp whose value is the first character of the
   * name, Unknown when there is none; an empty name raises IndexError, which the
   * method does not catch.
   */
  function GetValue(zn: string): (r: Result<Camp, HeroError>)
    ensures zn == [] <==> r.Err?
    ensures r.Ok? && r.value != Unknown ==> CampValue(r.value) == [zn[0]]
  {
    if zn == [] then Err(IndexError)
    else match CampOf([zn[0]])
      case Some(c) => Ok(c)
      case None => Ok(Unknown)
  }

  /** Only the first character counts: a full camp name such as "蜀国" decodes like "蜀". */
  lemma GetValueFirstChar(c: Camp, rest: string)
    requires c != Unknown
    ensures GetValue(CampValue(c) + rest) == Ok(c)
  {
    assert (CampValue(c) + rest)[0] == CampValue(c)[0];
    assert [CampValue(c)[0]] == CampValue(c);
  }

  /** The two-character value of Unknown does not decode to Unknown by itself: '未' names no camp. */
  lemma GetValueUnknownName()
    ensures GetValue(CampValue(Unknown)) == Ok(Unknown)
    ensures CampOf(CampValue(Unknown)[..1]) == None
  {
    assert CampValue(Unknown)[..1] == ['未'];
    assert [CampValue(Unknown)[0]] == ['未'];
  }

  /** `uni_name`: `name@pack`. */
  function UniName(name: string, pack: string): (u: string)
    ensures StartsWith(u, name + "@") && u[|name| + 1..] == pack
  {
    assert (name + "@" + pack)[..|name| + 1] == name + "@";
    name + "@" + pack
  }

  /** The unique name determines the pack, and the name too when the name holds no '@'. */
  lemma UniNameInjective(name1: string, pack1: string, name2: string, pack2: string)
    requires '@' !in name1 && '@' !in name2
    requires UniName(name1, pack1) == UniName(name2, pack2)
    ensures name1 == name2 && pack1 == pack2
  {
    var u := UniName(name1, pack1);
    assert IndexOf(u, '@') == |name1| by {
      assert u[|name1|] == '@';
      assert forall j :: 0 <= j < |name1| ==> u[j] == name1[j];
    }
    assert IndexOf(u, '@') == |name2| by {
      assert u[|name2|] == '@';
      assert forall j :: 0 <= j < |name2| ==> u[j] == name2[j];
    }
    assert name1 == u[..|name1|] && name2 == u[..|name2|];
  }

  /** Which stored field the fallback applies to. */
  datatype HpField = Hp | HpMax

  /**
   * Reading `hp` or `hp_max` on a hero: a non-zero stored value is returned as is;
   * a zero on a hero that has a parser mixed in becomes min(hps) or max(hps),
   * which raises on an empty `hps`.
   */
  function HpView(stored: int, isParser: bool, hps: seq<int>, f: HpField): (r: Result<int, HeroError>)
    ensures stored != 0 || !isParser ==> r == Ok(stored)
    ensures stored == 0 && isParser ==> (r.Ok? <==> hps != [])
    ensures stored == 0 && isParser && r.Ok? ==> r.value in hps
    ensures stored == 0 && isParser && r.Ok? && f == Hp ==> forall k :: 0 <= k < |hps| ==> r.value <= hps[k]
    ensures stored == 0 && isParser && r.Ok? && f == HpMax ==> forall k :: 0 <= k < |hps| ==> hps[k] <= r.value
  {
    if stored != 0 || !isParser then Ok(stored)
    else if hps == [] then Err(EmptyHps)
    else if f == Hp then Ok(Min(hps)) else Ok(Max(hps))
  }

  function Min(xs: seq<int>): (m: int)
    requires xs != []
    ensures m in xs && forall k :: 0 <= k < |xs| ==> m <= xs[k]
  {
    if |xs| == 1 then xs[0]
    else
      var m := Min(xs[1..]);
      assert forall k :: 1 <= k < |xs| ==> xs[k] == xs[1..][k - 1];
      if xs[0] <= m then xs[0] else m
  }

  function Max(xs: seq<int>): (m: int)
    requires xs != []
    ensures m in xs && forall k :: 0 <= k < |xs| ==> xs[k] <= m
  {
    if |xs| == 1 then xs[0]
    else
      var m := Max(xs[1..]);
      assert forall k :: 1 <= k < |xs| ==> xs[k] == xs[1..][k - 1];
      if xs[0] >= m then xs[0] else m
  }

  /** A hero's hp view is never above its hp_max view when both fall back to the same hps. */
  lemma HpBelowMax(hps: seq<int>)
    requires hps != []
    ensures HpView(0, true, hps, Hp).value <= HpView(0, true, hps, HpMax).value
  {
  }

  /** The picture of a hero; only its author is written by the hero. */
  datatype Image = Image(src: string, author: Option<string>)

  /** The mutable part of a hero record that `set_image`/`set_image_author` write. */
  class Hero {
    const pack: string
    const name: string
    var image: Option<Image>

    constructor (pack: string, name: string)
      ensures this.pack == pack && this.name == name && image == None
    {
      this.pack := pack;
      this.name := name;
      image := None;
    }

    /** `set_image` */
    method SetImage(img: Option<Image>)
      modifies this
      ensures image == img
    {
      image := img;
    }

    /** `set_image_author`: the author is set only when the hero has an image. */
    method SetImageAuthor(author: string)
      modifies this
      ensures old(image).None? ==> image == None
      ensures old(image).Some? ==> image == Some(old(image).value.(author := Some(author)))
    {
      if image.Some? {
        image := Some(image.value.(author := Some(author)));
      }
    }
  }

  const PickleExt := ".pickle"

  /** `dump(file_path)`: the file written; a directory-like path gets `name@pack.pickle` appended. */
  function DumpPath(filePath: string, name: string, pack: string): (p: string)
    ensures EndsWith(p, PickleExt)
  {
    if EndsWith(filePath, PickleExt) then filePath
    else
      var p := filePath + UniName(name, pack) + PickleExt;
      assert p[|p| - |PickleExt|..] == PickleExt;
      p
  }

  /** The file names `load` tries under `file_path`. */
  datatype LoadTarget =
    | Direct(fileName: string)            // the path, or the path plus this name
    | Glob(prefix: string, suffix: string) // every `prefix*suffix` in the directory

  /** `load(file_path, name, pack)`: a `.pickle` path is read as is; else by pack, or by glob when pack is falsy. */
  function LoadTargetOf(filePath: string, name: string, pack: string): (t: LoadTarget)
    ensures t.Glob? <==> !EndsWith(filePath, PickleExt) && pack == ""
    ensures t.Glob? ==> t.prefix == name + "@" && t.suffix == PickleExt
    ensures t.Direct? && !EndsWith(filePath, PickleExt) ==> EndsWith(t.fileName, PickleExt)
  {
    if EndsWith(filePath, PickleExt) then Direct("")
    else if pack != "" then Direct(UniName(name, pack) + PickleExt)
    else Glob(name + "@", PickleExt)
  }

  /** Whether a file name matches a `prefix*suffix` pattern. */
  predicate GlobMatches(fileName: string, prefix: string, suffix: string) {
    |prefix| + |suffix| <= |fileName| && StartsWith(fileName, prefix) && EndsWith(fileName, suffix)
  }

  /**
   * What `dump` writes, `load` reads back: the exact file when a pack is given or
   * the path is a `.pickle` file, and a file the glob matches otherwise.
   */
  lemma DumpThenLoad(filePath: string, name: string, pack: string)
    ensures EndsWith(filePath, PickleExt) || pack != "" ==>
      && LoadTargetOf(filePath, name, pack).Direct?
      && filePath + LoadTargetOf(filePath, name, pack).fileName == DumpPath(filePath, name, pack)
    ensures !EndsWith(filePath, PickleExt) && pack == "" ==>
      var t := LoadTargetOf(filePath, name, pack);
      GlobMatches(DumpPath(filePath, name, pack)[|filePath|..], t.prefix, t.suffix)
  {
    if !EndsWith(filePath, PickleExt) {
      var f := UniName(name, pack) + PickleExt;
      assert DumpPath(filePath, name, pack)[|filePath|..] == f;
      assert f[..|name| + 1] == name + "@";
      assert f[|f| - |PickleExt|..] == PickleExt;
    } else {
      assert filePath + "" == filePath;
    }
  }
}
