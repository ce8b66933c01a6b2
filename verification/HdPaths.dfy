/**
 Derivation paths (src/utils/hdPath.ts): the text of a path and the indices of a hardware wallet are
 made from the same template by different code, and must name the same key (BIP-32 section "Extended
 keys", BIP-44 section "Path levels").

 `Number` covers what a path can hold, the empty text and decimal digits; None stands for whatever the
 source makes of other text.
 */
module HdPaths {
  import opened Wrappers
  import opened Sequences

  const HARDENED_OFFSET := 0x8000_0000
  const PLACEHOLDER := "<account>"
  const MAX_INDICES := 5

  datatype Result = Indices(indices: seq<Option<nat>>) | TooManyIndices

  // ----- Text

  /** `s.split('/')` */
  function Split(s: string): (r: seq<string>)
    ensures r != []
  {
    if s == "" then [""]
    else
      var rest := Split(s[1..]);
      if s[0] == '/' then [""] + rest else [[s[0]] + rest[0]] + rest[1..]
  }

  /** `s.indexOf(pattern) > -1` */
  predicate Contains(s: string, pattern: string) {
    pattern <= s || (s != "" && Contains(s[1..], pattern))
  }

  /** `s.replace(pattern, text)`: the first occurrence. */
  function Replace(s: string, pattern: string, text: string): string {
    if pattern <= s then text + s[|pattern|..]
    else if s == "" then ""
    else [s[0]] + Replace(s[1..], pattern, text)
  }

  /** `s.split(pattern)[0]`: what precedes the first occurrence. */
  function Before(s: string, pattern: string): string {
    if pattern <= s || s == "" then "" else [s[0]] + Before(s[1..], pattern)
  }

  function Digit(d: nat): char
    requires d < 10
  {
    '0' + d as char
  }

  /** `n.toString()` */
  function Decimal(n: nat): (r: string)
    ensures r != "" && forall c :: c in r ==> '0' <= c <= '9'
  {
    if n < 10 then [Digit(n)] else Decimal(n / 10) + [Digit(n % 10)]
  }

  function Number(s: string): Option<nat> {
    if s == "" then Some(0)
    else
      var c := s[|s| - 1];
      match Number(s[..|s| - 1])
      case None => None
      case Some(n) => if '0' <= c <= '9' then Some(10 * n + (c - '0') as nat) else None
  }

  // ----- The source's functions

  function GetHdPathFromTemplate(template: string, index: nat): string {
    Replace(template, PLACEHOLDER, Decimal(index))
  }

  function GetParentHdPathFromTemplate(template: string): string {
    Before(template, "/" + PLACEHOLDER)
  }

  predicate IsHardened(component: string) {
    component != "" && component[|component| - 1] == '\''
  }

  function Plus(x: nat, y: Option<nat>): Option<nat> {
    match y
    case None => None
    case Some(n) => Some(x + n)
  }

  /** The index of one component of a path or template. */
  function ComponentIndex(component: string, insertIdx: nat): Option<nat> {
    var offset := if IsHardened(component) then HARDENED_OFFSET else 0;
    if Contains(component, PLACEHOLDER) then Some(offset + insertIdx)
    else Plus(offset, Number(if IsHardened(component) then component[..|component| - 1] else component))
  }

  function ComponentIndices(components: seq<string>, insertIdx: nat): seq<Option<nat>> {
    Map(c => ComponentIndex(c, insertIdx), components)
  }

  predicate UsesPlaceholder(components: seq<string>) {
    exists c :: c in components && Contains(c, PLACEHOLDER)
  }

  function HdPathIndices(template: string, insertIdx: nat): Result {
    var path := Split(template)[1..];
    var indices := ComponentIndices(path, insertIdx) + if UsesPlaceholder(path) then [] else [Some(insertIdx)];
    if |indices| > MAX_INDICES then TooManyIndices else Indices(indices)
  }

  method GetHDPathIndices(template: string, insertIdx: nat) returns (r: Result)
    ensures r == HdPathIndices(template, insertIdx)
  {
    var path := Split(template)[1..];
    var indices: seq<Option<nat>>, usedX := [], false;
    for k := 0 to |path|
      invariant indices == ComponentIndices(path[..k], insertIdx)
      invariant usedX == UsesPlaceholder(path[..k])
    {
      var component := path[k];
      assert path[..k + 1] == path[..k] + [component];
      var isHardened := |component| > 0 && component[|component| - 1] == '\'';
      var idx := if isHardened then HARDENED_OFFSET else 0;
      if Contains(component, PLACEHOLDER) {
        indices := indices + [Some(idx + insertIdx)];
        usedX := true;
      } else if isHardened {
        indices := indices + [Plus(idx, Number(component[..|component| - 1]))];
      } else {
        indices := indices + [Plus(idx, Number(component))];
      }
    }
    assert path[..|path|] == path;
    if !usedX {
      indices := indices + [Some(insertIdx)];
    }
    if |indices| > MAX_INDICES { return TooManyIndices; }
    return Indices(indices);
  }

  // ----- Paths and templates

  /** A level of a path, or the place of the account. */
  datatype Level = Fixed(value: nat, hardened: bool) | Account(hardened: bool)

  function Body(l: Level): string {
    match l
    case Fixed(n, _) => Decimal(n)
    case Account(_) => PLACEHOLDER
  }

  function Mark(l: Level): string {
    if l.hardened then "'" else ""
  }

  function LevelText(l: Level): string {
    Body(l) + Mark(l)
  }

  function LevelsText(levels: seq<Level>): string {
    if levels == [] then "" else "/" + LevelText(levels[0]) + LevelsText(levels[1..])
  }

  /** The notation of BIP-32. */
  function PathText(levels: seq<Level>): string {
    "m" + LevelsText(levels)
  }

  function Place(l: Level, index: nat): Level {
    if l.Account? then Fixed(index, l.hardened) else l
  }

  function PlaceAll(levels: seq<Level>, index: nat): seq<Level> {
    Map(l => Place(l, index), levels)
  }

  function LevelIndex(l: Level): nat
    requires l.Fixed?
  {
    l.value + if l.hardened then HARDENED_OFFSET else 0
  }

  predicate IsPath(levels: seq<Level>) {
    forall l :: l in levels ==> l.Fixed?
  }

  function PathIndices(path: seq<Level>): (r: seq<nat>)
    requires IsPath(path)
    ensures |r| == |path| && forall k :: 0 <= k < |path| ==> r[k] == LevelIndex(path[k])
  {
    if path == [] then [] else [LevelIndex(path[0])] + PathIndices(path[1..])
  }

  /** The parse of a path's text: what `getHDPathIndices` does with it before it appends anything. */
  function ParsePath(text: string): seq<Option<nat>> {
    ComponentIndices(Split(text)[1..], 0)
  }

  ghost predicate OnePlaceholder(levels: seq<Level>, k: int) {
    && 0 <= k < |levels| && levels[k].Account?
    && forall j :: 0 <= j < |levels| && j != k ==> levels[j].Fixed?
  }

  // ----- Splitting

  lemma {:induction false} SplitPart(part: string, rest: string)
    requires '/' !in part
    ensures Split(part) == [part]
    ensures Split(part + "/" + rest) == [part] + Split(rest)
  {
    var all := part + "/" + rest;
    if part == "" {
      assert all[0] == '/' && all[1..] == rest;
    } else {
      SplitPart(part[1..], rest);
      assert all[1..] == part[1..] + "/" + rest;
      assert [part[0]] + part[1..] == part;
    }
  }

  lemma {:induction false} LevelTextIsPlain(l: Level)
    ensures '/' !in LevelText(l) && (l.Fixed? ==> '<' !in LevelText(l))
  {
  }

  lemma {:induction false} Regroup(a: string, b: string, c: string, d: string)
    ensures a + (b + c + d) == a + b + (c + d)
  {
  }

  lemma {:induction false} TextsOf(levels: seq<Level>)
    requires levels != []
    ensures Map(LevelText, levels) == [LevelText(levels[0])] + Map(LevelText, levels[1..])
  {
  }

  lemma {:induction false} SplitLevels(part: string, levels: seq<Level>)
    requires '/' !in part
    ensures Split(part + LevelsText(levels)) == [part] + Map(LevelText, levels)
    decreases |levels|
  {
    if levels == [] {
      SplitPart(part, "");
      assert part + LevelsText(levels) == part;
    } else {
      var text, below := LevelText(levels[0]), LevelsText(levels[1..]);
      LevelTextIsPlain(levels[0]);
      SplitLevels(text, levels[1..]);
      SplitPart(part, text + below);
      Regroup(part, "/", text, below);
      TextsOf(levels);
    }
  }

  lemma {:induction false} SplitPath(levels: seq<Level>)
    ensures Split(PathText(levels))[1..] == Map(LevelText, levels)
  {
    SplitLevels("m", levels);
  }

  // ----- Numbers

  /** Digits are read back as the number they were written from. */
  lemma {:induction false} NumberOfDecimal(n: nat)
    ensures Number(Decimal(n)) == Some(n)
  {
    if n < 10 {
      assert Decimal(n)[..0] == "";
    } else {
      NumberOfDecimal(n / 10);
      assert Decimal(n)[..|Decimal(n)| - 1] == Decimal(n / 10);
    }
  }

  lemma {:induction false} ContainsNeedsBracket(s: string)
    requires '<' !in s
    ensures !Contains(s, PLACEHOLDER)
  {
    assert PLACEHOLDER[0] == '<';
    if s != "" {
      ContainsNeedsBracket(s[1..]);
    }
  }

  lemma {:induction false} IndexOfLevel(l: Level, index: nat)
    ensures ComponentIndex(LevelText(l), index) == Some(LevelIndex(Place(l, index)))
    ensures Contains(LevelText(l), PLACEHOLDER) <==> l.Account?
  {
    var text := LevelText(l);
    match l
    case Fixed(n, hardened) =>
      NumberOfDecimal(n);
      ContainsNeedsBracket(text);
      if hardened {
        assert text[..|text| - 1] == Decimal(n);
      } else {
        assert text == Decimal(n);
        assert text[|text| - 1] in text;
      }
    case Account(hardened) =>
      assert PLACEHOLDER <= text;
  }

  lemma {:induction false} IndicesOfLevels(levels: seq<Level>, index: nat)
    requires IsPath(PlaceAll(levels, index))
    ensures ComponentIndices(Map(LevelText, levels), index) == Map(n => Some(n), PathIndices(PlaceAll(levels, index)))
  {
    forall k | 0 <= k < |levels|
      ensures ComponentIndices(Map(LevelText, levels), index)[k] == Some(PathIndices(PlaceAll(levels, index))[k])
    {
      IndexOfLevel(levels[k], index);
    }
  }

  lemma {:induction false} PlacedIsPath(levels: seq<Level>, index: nat)
    ensures IsPath(PlaceAll(levels, index)) && |PlaceAll(levels, index)| == |levels|
    ensures IsPath(levels) ==> PlaceAll(levels, index) == levels
  {
    forall l | l in PlaceAll(levels, index) ensures l.Fixed? {
    }
    if IsPath(levels) {
      forall j | 0 <= j < |levels| ensures PlaceAll(levels, index)[j] == levels[j] {
        assert levels[j] in levels;
      }
    }
  }

  /** Printing a path and parsing its text gives back its indices. */
  lemma {:induction false} ParseOfPrint(path: seq<Level>)
    requires IsPath(path)
    ensures ParsePath(PathText(path)) == Map(n => Some(n), PathIndices(path))
  {
    SplitPath(path);
    PlacedIsPath(path, 0);
    IndicesOfLevels(path, 0);
  }

  // ----- Filling the placeholder in

  lemma {:induction false} FirstApart(before: string, middle: string, after: string)
    requires before != ""
    ensures (before + middle + after)[0] == before[0] && before[0] in before
    ensures (before + middle + after)[1..] == before[1..] + middle + after
    ensures [before[0]] + (before[1..] + middle + after) == before + middle + after
  {
  }

  lemma {:induction false} ReplaceAfter(before: string, after: string, text: string)
    requires '<' !in before
    ensures Replace(before + PLACEHOLDER + after, PLACEHOLDER, text) == before + text + after
  {
    if before == "" {
      assert before + PLACEHOLDER + after == PLACEHOLDER + after;
      assert (PLACEHOLDER + after)[|PLACEHOLDER|..] == after;
      assert before + text + after == text + after;
    } else {
      ReplaceAfter(before[1..], after, text);
      FirstApart(before, PLACEHOLDER, after);
      FirstApart(before, text, after);
      assert PLACEHOLDER[0] == '<';
      assert !(PLACEHOLDER <= before + PLACEHOLDER + after);
    }
  }

  lemma {:induction false} BeforeFirst(before: string, after: string)
    requires '<' !in before
    ensures Before(before + "/" + PLACEHOLDER + after, "/" + PLACEHOLDER) == before
  {
    var all, pattern := before + "/" + PLACEHOLDER + after, "/" + PLACEHOLDER;
    if before == "" {
      assert pattern <= all;
    } else {
      BeforeFirst(before[1..], after);
      assert all[1..] == before[1..] + "/" + PLACEHOLDER + after;
      assert pattern[1] == '<';
      assert all[1] != '<' by {
        if |before| > 1 {
          assert all[1] == before[1] && before[1] in before;
        }
      }
      assert !(pattern <= all);
    }
  }

  lemma {:induction false} PathHasNoBracket(path: seq<Level>)
    requires IsPath(path)
    ensures '<' !in LevelsText(path)
  {
    if path != [] {
      assert path[0] in path && forall l :: l in path[1..] ==> l in path;
      LevelTextIsPlain(path[0]);
      PathHasNoBracket(path[1..]);
    }
  }

  lemma {:induction false} Associate(a: string, b: string, c: string)
    ensures (a + b) + c == a + (b + c)
  {
  }

  lemma {:induction false} SlicesOfRest<T>(s: seq<T>, k: nat)
    requires 0 < k < |s|
    ensures s[..k] == [s[0]] + s[1..][..k - 1] && s[1..][k..] == s[k + 1..] && s[1..][k - 1] == s[k]
  {
  }

  /** The text of the levels around one of them. */
  lemma {:induction false} AroundLevel(levels: seq<Level>, k: nat)
    requires k < |levels|
    ensures LevelsText(levels) == LevelsText(levels[..k]) + ("/" + LevelText(levels[k]) + LevelsText(levels[k + 1..]))
  {
    if k == 0 {
      assert levels[..0] == [];
      assert LevelsText(levels[..0]) == "";
    } else {
      AroundLevel(levels[1..], k - 1);
      SlicesOfRest(levels, k);
      OneMoreLevel(levels[0], levels[1..][..k - 1]);
      Associate("/" + LevelText(levels[0]), LevelsText(levels[1..][..k - 1]),
                "/" + LevelText(levels[k]) + LevelsText(levels[k + 1..]));
    }
  }

  function Prefix(levels: seq<Level>, k: nat): string
    requires k < |levels|
  {
    PathText(levels[..k]) + "/"
  }

  function Suffix(levels: seq<Level>, k: nat): string
    requires k < |levels|
  {
    Mark(levels[k]) + LevelsText(levels[k + 1..])
  }

  lemma {:induction false} BodyApart(a: string, b: string, c: string, d: string)
    ensures "m" + (a + ("/" + (b + c) + d)) == ("m" + a) + "/" + b + (c + d)
  {
  }

  lemma {:induction false} AroundBody(levels: seq<Level>, k: nat)
    requires k < |levels|
    ensures PathText(levels) == Prefix(levels, k) + Body(levels[k]) + Suffix(levels, k)
  {
    AroundLevel(levels, k);
    BodyApart(LevelsText(levels[..k]), Body(levels[k]), Mark(levels[k]), LevelsText(levels[k + 1..]));
  }

  lemma {:induction false} PrefixHasNoBracket(levels: seq<Level>, k: nat)
    requires OnePlaceholder(levels, k)
    ensures '<' !in PathText(levels[..k]) && '<' !in Prefix(levels, k)
  {
    assert IsPath(levels[..k]);
    PathHasNoBracket(levels[..k]);
  }

  /** Putting a level in the placeholder's place changes the text in that place only. */
  lemma {:induction false} PlacedAround(levels: seq<Level>, k: nat, index: nat)
    requires OnePlaceholder(levels, k)
    ensures PathText(PlaceAll(levels, index)) == Prefix(levels, k) + Decimal(index) + Suffix(levels, k)
  {
    var placed := PlaceAll(levels, index);
    AroundBody(placed, k);
    assert placed[..k] == levels[..k];
    assert placed[k + 1..] == levels[k + 1..];
  }

  /** The text made from a template is that of the path with the index in the placeholder's place. */
  lemma {:induction false} TemplateText(levels: seq<Level>, k: nat, index: nat)
    requires OnePlaceholder(levels, k)
    ensures GetHdPathFromTemplate(PathText(levels), index) == PathText(PlaceAll(levels, index))
  {
    AroundBody(levels, k);
    PlacedAround(levels, k, index);
    PrefixHasNoBracket(levels, k);
    ReplaceAfter(Prefix(levels, k), Suffix(levels, k), Decimal(index));
  }

  /** The parent of a template is the path above its placeholder. */
  lemma {:induction false} ParentIsThePathAbove(levels: seq<Level>, k: nat)
    requires OnePlaceholder(levels, k)
    ensures GetParentHdPathFromTemplate(PathText(levels)) == PathText(levels[..k])
  {
    AroundBody(levels, k);
    PrefixHasNoBracket(levels, k);
    BeforeFirst(PathText(levels[..k]), Suffix(levels, k));
  }

  lemma {:induction false} PlaceholderIsUsed(levels: seq<Level>)
    ensures UsesPlaceholder(Map(LevelText, levels)) <==> exists j :: 0 <= j < |levels| && levels[j].Account?
  {
    if j :| 0 <= j < |levels| && levels[j].Account? {
      IndexOfLevel(levels[j], 0);
      assert Map(LevelText, levels)[j] in Map(LevelText, levels);
    }
    if UsesPlaceholder(Map(LevelText, levels)) {
      var c :| c in Map(LevelText, levels) && Contains(c, PLACEHOLDER);
      var j :| 0 <= j < |levels| && LevelText(levels[j]) == c;
      IndexOfLevel(levels[j], 0);
    }
  }

  /**
   For every template with one placeholder and every index, the indices made from the template are
   those of the text made from it, and they are refused exactly when there are more than 5.
   */
  lemma {:induction false} IndicesAreThoseOfTheText(levels: seq<Level>, k: nat, index: nat)
    requires OnePlaceholder(levels, k)
    ensures HdPathIndices(PathText(levels), index) ==
            if |levels| > MAX_INDICES then TooManyIndices
            else Indices(ParsePath(GetHdPathFromTemplate(PathText(levels), index)))
  {
    SplitPath(levels);
    PlaceholderIsUsed(levels);
    PlacedIsPath(levels, index);
    IndicesOfLevels(levels, index);
    TemplateText(levels, k, index);
    ParseOfPrint(PlaceAll(levels, index));
    var indices := ComponentIndices(Map(LevelText, levels), index);
    assert indices + [] == indices;
  }

  /** Without a placeholder the index is one more level below the path. */
  lemma {:induction false} IndexIsAppended(path: seq<Level>, index: nat)
    requires IsPath(path) && |path| < MAX_INDICES
    ensures HdPathIndices(PathText(path), index) == Indices(ParsePath(PathText(path + [Fixed(index, false)])))
  {
    var longer := path + [Fixed(index, false)];
    SplitPath(path);
    PlaceholderIsUsed(path);
    forall j | 0 <= j < |path| ensures path[j].Fixed? {
      assert path[j] in path;
    }
    PlacedIsPath(path, index);
    IndicesOfLevels(path, index);
    ParseOfPrint(longer);
    assert Map((n: nat) => Some(n), PathIndices(path)) + [Some(index)] == Map((n: nat) => Some(n), PathIndices(longer));
  }

  // ----- What indices tell of a path

  ghost predicate InRange(path: seq<Level>) {
    forall l :: l in path ==> l.Fixed? && l.value < HARDENED_OFFSET
  }

  lemma {:induction false} LevelFromIndex(l: Level, m: Level)
    requires l.Fixed? && m.Fixed? && l.value < HARDENED_OFFSET && m.value < HARDENED_OFFSET
    requires LevelIndex(l) == LevelIndex(m)
    ensures l == m
  {
  }

  /** With levels below 2^31 the indices determine the path, and with it its text. */
  lemma {:induction false} IndicesDetermineThePath(path: seq<Level>, other: seq<Level>)
    requires InRange(path) && InRange(other)
    ensures IsPath(path) && IsPath(other)
    ensures ParsePath(PathText(path)) == ParsePath(PathText(other)) <==> path == other
  {
    ParseOfPrint(path);
    ParseOfPrint(other);
    if ParsePath(PathText(path)) == ParsePath(PathText(other)) {
      var ps, os := PathIndices(path), PathIndices(other);
      assert |ps| == |ParsePath(PathText(path))| == |os|;
      forall k | 0 <= k < |path| ensures path[k] == other[k] {
        assert path[k] in path && other[k] in other;
        assert Some(ps[k]) == ParsePath(PathText(path))[k] == ParsePath(PathText(other))[k] == Some(os[k]);
        LevelFromIndex(path[k], other[k]);
      }
    }
  }

  /** Beyond 2^31 they do not: a large normal level and a hardened one have the same index. */
  lemma {:induction false} LargeLevelsCollide(n: nat)
    ensures ParsePath(PathText([Fixed(n + HARDENED_OFFSET, false)])) == ParsePath(PathText([Fixed(n, true)]))
  {
    ParseOfPrint([Fixed(n + HARDENED_OFFSET, false)]);
    ParseOfPrint([Fixed(n, true)]);
    assert PathIndices([Fixed(n + HARDENED_OFFSET, false)]) == [n + HARDENED_OFFSET] == PathIndices([Fixed(n, true)]);
  }

  /** Different accounts of a template have different indices. */
  lemma {:induction false} TemplatesAreInjective(levels: seq<Level>, k: nat, i: nat, j: nat)
    requires OnePlaceholder(levels, k) && |levels| <= MAX_INDICES
    ensures HdPathIndices(PathText(levels), i) == HdPathIndices(PathText(levels), j) <==> i == j
  {
    IndicesOfTemplate(levels, k, i);
    IndicesOfTemplate(levels, k, j);
    var s, t := PathIndices(PlaceAll(levels, i)), PathIndices(PlaceAll(levels, j));
    assert Map((n: nat) => Some(n), s)[k] == Some(s[k]) && Map((n: nat) => Some(n), t)[k] == Some(t[k]);
  }

  lemma {:induction false} IndicesOfTemplate(levels: seq<Level>, k: nat, index: nat)
    requires OnePlaceholder(levels, k) && |levels| <= MAX_INDICES
    ensures IsPath(PlaceAll(levels, index)) && |PlaceAll(levels, index)| == |levels|
    ensures HdPathIndices(PathText(levels), index)
            == Indices(Map((n: nat) => Some(n), PathIndices(PlaceAll(levels, index))))
  {
    IndicesAreThoseOfTheText(levels, k, index);
    TemplateText(levels, k, index);
    PlacedIsPath(levels, index);
    ParseOfPrint(PlaceAll(levels, index));
  }

  // ----- The templates of src/consts/derivation.ts

  const BIP44_STANDARD_DERIVATION_TEMPLATE := "m/44'/60'/0'/0/<account>"
  const BIP44_LEDGER_DERIVATION_TEMPLATE := "m/44'/60'/<account>'/0/0"
  const LEGACY_POPULAR_DERIVATION_TEMPLATE := "m/44'/60'/0'/<account>"
  const BIP44_STANDARD_TESTNET_DERIVATION_TEMPLATE := "m/44'/1'/0'/0/<account>"

  lemma {:induction false} OneMoreLevel(l: Level, levels: seq<Level>)
    ensures LevelsText([l] + levels) == "/" + LevelText(l) + LevelsText(levels)
  {
    assert ([l] + levels)[1..] == levels;
  }

  lemma {:induction false} SmallDecimals()
    ensures Decimal(44) == "44" && Decimal(60) == "60" && Decimal(0) == "0" && Decimal(1) == "1"
  {
    assert Decimal(4) == "4" && Decimal(6) == "6";
  }

  lemma {:induction false} LevelTexts()
    ensures LevelText(Fixed(44, true)) == "44'" && LevelText(Fixed(60, true)) == "60'"
            && LevelText(Fixed(1, true)) == "1'"
    ensures LevelText(Fixed(0, true)) == "0'" && LevelText(Fixed(0, false)) == "0"
    ensures LevelText(Account(true)) == "<account>'" && LevelText(Account(false)) == PLACEHOLDER
  {
    SmallDecimals();
  }

  lemma {:induction false} ThreeLevels(a: Level, b: Level, c: Level)
    ensures LevelsText([a, b, c]) == "/" + LevelText(a) + ("/" + LevelText(b) + ("/" + LevelText(c)))
  {
    assert [a, b, c][1..] == [b, c] && [b, c][1..] == [c] && [c][1..] == [];
    OneMoreLevel(c, []);
    assert [c] + [] == [c];
    OneMoreLevel(b, [c]);
    assert [b] + [c] == [b, c];
  }

  lemma {:induction false} FiveLevels(a: Level, b: Level, c: Level, d: Level, e: Level)
    ensures PathText([a, b, c, d, e]) ==
            "m" + ("/" + LevelText(a) +
              ("/" + LevelText(b) + ("/" + LevelText(c) + ("/" + LevelText(d) + ("/" + LevelText(e))))))
  {
    ThreeLevels(c, d, e);
    OneMoreLevel(b, [c, d, e]);
    OneMoreLevel(a, [b] + [c, d, e]);
    assert [a] + ([b] + [c, d, e]) == [a, b, c, d, e];
  }

  /** The templates have one placeholder and no more than 5 levels, so everything above holds of them. */
  lemma {:induction false} StandardIsWellFormed()
    ensures PathText([Fixed(44, true), Fixed(60, true), Fixed(0, true), Fixed(0, false), Account(false)])
            == BIP44_STANDARD_DERIVATION_TEMPLATE
  {
    FiveLevels(Fixed(44, true), Fixed(60, true), Fixed(0, true), Fixed(0, false), Account(false));
    LevelTexts();
    StandardText();
  }

  lemma {:induction false} StandardText()
    ensures "m" + ("/" + "44'" + ("/" + "60'" + ("/" + "0'" + ("/" + "0" + ("/" + PLACEHOLDER)))))
            == BIP44_STANDARD_DERIVATION_TEMPLATE
  {
  }

  lemma {:induction false} LedgerIsWellFormed()
    ensures PathText([Fixed(44, true), Fixed(60, true), Account(true), Fixed(0, false), Fixed(0, false)])
            == BIP44_LEDGER_DERIVATION_TEMPLATE
  {
    FiveLevels(Fixed(44, true), Fixed(60, true), Account(true), Fixed(0, false), Fixed(0, false));
    LevelTexts();
    LedgerText();
  }

  lemma {:induction false} LedgerText()
    ensures "m" + ("/" + "44'" + ("/" + "60'" + ("/" + "<account>'" + ("/" + "0" + ("/" + "0")))))
            == BIP44_LEDGER_DERIVATION_TEMPLATE
  {
  }

  lemma {:induction false} TestnetIsWellFormed()
    ensures PathText([Fixed(44, true), Fixed(1, true), Fixed(0, true), Fixed(0, false), Account(false)])
            == BIP44_STANDARD_TESTNET_DERIVATION_TEMPLATE
  {
    FiveLevels(Fixed(44, true), Fixed(1, true), Fixed(0, true), Fixed(0, false), Account(false));
    LevelTexts();
    TestnetText();
  }

  lemma {:induction false} TestnetText()
    ensures "m" + ("/" + "44'" + ("/" + "1'" + ("/" + "0'" + ("/" + "0" + ("/" + PLACEHOLDER)))))
            == BIP44_STANDARD_TESTNET_DERIVATION_TEMPLATE
  {
  }

  lemma {:induction false} LegacyIsWellFormed()
    ensures PathText([Fixed(44, true), Fixed(60, true), Fixed(0, true), Account(false)])
            == LEGACY_POPULAR_DERIVATION_TEMPLATE
  {
    ThreeLevels(Fixed(60, true), Fixed(0, true), Account(false));
    OneMoreLevel(Fixed(44, true), [Fixed(60, true), Fixed(0, true), Account(false)]);
    assert [Fixed(44, true)] + [Fixed(60, true), Fixed(0, true), Account(false)] ==
           [Fixed(44, true), Fixed(60, true), Fixed(0, true), Account(false)];
    LevelTexts();
    LegacyText();
  }

  lemma {:induction false} LegacyText()
    ensures "m" + ("/" + "44'" + ("/" + "60'" + ("/" + "0'" + ("/" + PLACEHOLDER))))
            == LEGACY_POPULAR_DERIVATION_TEMPLATE
  {
  }
}
