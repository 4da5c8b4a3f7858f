// The text filter (src/filters/text.rs): an update passes when its text
// equals one of the patterns (or matches one of the regexes), contains one
// of the parts, or starts or ends with one of the given strings. With
// `ignore_case` the patterns are lowercased once, when the filter is made,
// and the text each time it is checked.
module TextFilter {
  import opened Wrappers
  import opened StrUtil
  import SrcTypes
  import SrcUpdate

  /** A compiled regex, given by what it matches; `caselessMatch` is what the
      same pattern compiled behind the `(?i)` flag matches. */
  datatype Regex = Regex(isMatch: string -> bool, caselessMatch: string -> bool)

  /** `PatternType`: a whole text or a regex. */
  datatype PatternType = TextPattern(text: string) | RegexPattern(regex: Regex)

  datatype Text = Text(
    texts: seq<PatternType>,
    contains: seq<string>,
    startsWith: seq<string>,
    endsWith: seq<string>,
    ignoreCase: bool)

  /** Some element of `xs` satisfies `p` (the iterators' `any`). */
  function Any<T>(xs: seq<T>, p: T -> bool): (b: bool)
    ensures b <==> exists i | 0 <= i < |xs| :: p(xs[i])
    decreases |xs|
  {
    if |xs| == 0 then false
    else if p(xs[0]) then true
    else
      var b := Any(xs[1..], p);
      assert forall i | 1 <= i < |xs| :: xs[1..][i - 1] == xs[i];
      b
  }

  /** A pattern made case-insensitive: a text lowercased, a regex
      recompiled behind `(?i)`. */
  function Caseless(p: PatternType): (r: PatternType)
    ensures p.TextPattern? <==> r.TextPattern?
    ensures r.TextPattern? ==> r.text == Lower(p.text)
    ensures r.RegexPattern? ==> r.regex.isMatch == p.regex.caselessMatch
  {
    match p
    case TextPattern(t) => TextPattern(Lower(t))
    case RegexPattern(r) => RegexPattern(Regex(r.caselessMatch, r.caselessMatch))
  }

  function LowerAll(ss: seq<string>): (r: seq<string>)
    ensures |r| == |ss| && forall i | 0 <= i < |ss| :: r[i] == Lower(ss[i])
  {
    seq(|ss|, i requires 0 <= i < |ss| => Lower(ss[i]))
  }

  /** `Text::new`: with `ignore_case` every pattern and part is made
      case-insensitive; otherwise all are kept as given. */
  function New(texts: seq<PatternType>, contains: seq<string>, startsWith: seq<string>, endsWith: seq<string>, ignoreCase: bool): (t: Text)
    ensures t.ignoreCase == ignoreCase
    ensures |t.texts| == |texts| && |t.contains| == |contains| && |t.startsWith| == |startsWith| && |t.endsWith| == |endsWith|
    ensures !ignoreCase ==> t.texts == texts && t.contains == contains && t.startsWith == startsWith && t.endsWith == endsWith
    ensures ignoreCase ==> forall i | 0 <= i < |texts| :: t.texts[i] == Caseless(texts[i])
    ensures ignoreCase ==> forall i | 0 <= i < |contains| :: t.contains[i] == Lower(contains[i])
    ensures ignoreCase ==> forall i | 0 <= i < |startsWith| :: t.startsWith[i] == Lower(startsWith[i])
    ensures ignoreCase ==> forall i | 0 <= i < |endsWith| :: t.endsWith[i] == Lower(endsWith[i])
  {
    if ignoreCase then
      Text(seq(|texts|, i requires 0 <= i < |texts| => Caseless(texts[i])),
           LowerAll(contains), LowerAll(startsWith), LowerAll(endsWith), true)
    else
      Text(texts, contains, startsWith, endsWith, false)
  }

  /** `prepare_text`: the text lowercased when case is ignored. */
  function PrepareText(t: Text, text: string): (r: string)
    ensures |r| == |text|
    ensures t.ignoreCase ==> forall i | 0 <= i < |text| :: r[i] == LowerChar(text[i])
    ensures !t.ignoreCase ==> r == text
  {
    if t.ignoreCase then Lower(text) else text
  }

  /** One pattern against the prepared text. */
  predicate PatternMatches(p: PatternType, text: string) {
    match p
    case TextPattern(allowed) => allowed == text
    case RegexPattern(r) => r.isMatch(text)
  }

  /** `validate_texts`. */
  function ValidateTexts(t: Text, text: string): (b: bool)
    ensures b <==> exists i | 0 <= i < |t.texts| :: PatternMatches(t.texts[i], PrepareText(t, text))
  {
    var prepared := PrepareText(t, text);
    Any(t.texts, (p: PatternType) => PatternMatches(p, prepared))
  }

  /** `validate_contains`. */
  function ValidateContains(t: Text, text: string): (b: bool)
    ensures b <==> exists i | 0 <= i < |t.contains| :: Contains(PrepareText(t, text), t.contains[i])
  {
    var prepared := PrepareText(t, text);
    Any(t.contains, (part: string) => Contains(prepared, part))
  }

  /** `validate_starts_with`. */
  function ValidateStartsWith(t: Text, text: string): (b: bool)
    ensures b <==> exists i | 0 <= i < |t.startsWith| :: StartsWith(PrepareText(t, text), t.startsWith[i])
  {
    var prepared := PrepareText(t, text);
    Any(t.startsWith, (part: string) => StartsWith(prepared, part))
  }

  /** `validate_ends_with`. */
  function ValidateEndsWith(t: Text, text: string): (b: bool)
    ensures b <==> exists i | 0 <= i < |t.endsWith| :: EndsWith(PrepareText(t, text), t.endsWith[i])
  {
    var prepared := PrepareText(t, text);
    Any(t.endsWith, (part: string) => EndsWith(prepared, part))
  }

  /** `validate_text`: any of the four; a filter with no patterns at all
      passes nothing. */
  function ValidateText(t: Text, text: string): (b: bool)
    ensures b <==> ValidateTexts(t, text) || ValidateContains(t, text) || ValidateStartsWith(t, text) || ValidateEndsWith(t, text)
    ensures t.texts == [] && t.contains == [] && t.startsWith == [] && t.endsWith == [] ==> !b
  {
    ValidateTexts(t, text) || ValidateContains(t, text) || ValidateStartsWith(t, text) || ValidateEndsWith(t, text)
  }

  /** `Filter::check`: the update's text must exist and pass. */
  function Check(t: Text, u: SrcTypes.Update): (b: bool)
    ensures SrcUpdate.Text(u).None? ==> !b
    ensures SrcUpdate.Text(u).Some? ==> (b <==> ValidateText(t, SrcUpdate.Text(u).value))
  {
    match SrcUpdate.Text(u)
    case None => false
    case Some(text) => ValidateText(t, text)
  }

  /** A filter that ignores case gives the same answer for a text and for
      its lowercase form. */
  lemma IgnoreCaseIgnoresInputCase(t: Text, text: string)
    requires t.ignoreCase
    ensures ValidateText(t, text) == ValidateText(t, Lower(text))
  {
    LowerIdempotent(text);
    assert PrepareText(t, Lower(text)) == PrepareText(t, text);
  }

  /** With `ignore_case` a text pattern matches exactly the texts equal to
      it up to case; without, exactly the text itself. */
  lemma OneTextPattern(p: string, text: string, ignoreCase: bool)
    ensures ValidateTexts(New([TextPattern(p)], [], [], [], ignoreCase), text)
       <==> (if ignoreCase then Lower(p) == Lower(text) else p == text)
  {
    var t := New([TextPattern(p)], [], [], [], ignoreCase);
    assert t.texts[0] == if ignoreCase then TextPattern(Lower(p)) else TextPattern(p);
  }

  /** With `ignore_case` a part is found in a text when its lowercase form
      is found in the text's lowercase form (and likewise for prefixes and
      suffixes). */
  lemma OnePartIgnoringCase(p: string, text: string)
    ensures ValidateContains(New([], [p], [], [], true), text) <==> Contains(Lower(text), Lower(p))
    ensures ValidateStartsWith(New([], [], [p], [], true), text) <==> StartsWith(Lower(text), Lower(p))
    ensures ValidateEndsWith(New([], [], [], [p], true), text) <==> EndsWith(Lower(text), Lower(p))
  {
    assert New([], [p], [], [], true).contains[0] == Lower(p);
    assert New([], [], [p], [], true).startsWith[0] == Lower(p);
    assert New([], [], [], [p], true).endsWith[0] == Lower(p);
  }

  /** A prefix or a suffix is also a contained part: moving the prefixes
      and suffixes into `contains` loses no text. */
  lemma ContainsCoversPrefixesAndSuffixes(t: Text, text: string)
    ensures ValidateStartsWith(t, text) || ValidateEndsWith(t, text)
       ==> ValidateContains(t.(contains := t.contains + t.startsWith + t.endsWith), text)
  {
    var wide := t.(contains := t.contains + t.startsWith + t.endsWith);
    var prepared := PrepareText(t, text);
    assert PrepareText(wide, text) == prepared;
    if ValidateStartsWith(t, text) {
      var i :| 0 <= i < |t.startsWith| && StartsWith(prepared, t.startsWith[i]);
      assert wide.contains[|t.contains| + i] == t.startsWith[i];
    } else if ValidateEndsWith(t, text) {
      var i :| 0 <= i < |t.endsWith| && EndsWith(prepared, t.endsWith[i]);
      ContainsSuffix(prepared, t.endsWith[i]);
      assert wide.contains[|t.contains| + |t.startsWith| + i] == t.endsWith[i];
    }
  }

  // ---------------------------------------------------------------------
  // The builder

  datatype TextBuilder = TextBuilder(
    texts: seq<PatternType>,
    contains: seq<string>,
    startsWith: seq<string>,
    endsWith: seq<string>,
    ignoreCase: bool)

  /** `Text::builder`: nothing given and case respected. */
  function Builder(): (b: TextBuilder)
    ensures b.texts == [] && b.contains == [] && b.startsWith == [] && b.endsWith == [] && !b.ignoreCase
  {
    TextBuilder([], [], [], [], false)
  }

  /** `text` and `texts`: patterns appended after those given. */
  function AddTexts(b: TextBuilder, val: seq<PatternType>): (r: TextBuilder)
    ensures |r.texts| == |b.texts| + |val| && r.texts[..|b.texts|] == b.texts && r.texts[|b.texts|..] == val
    ensures r.contains == b.contains && r.startsWith == b.startsWith && r.endsWith == b.endsWith && r.ignoreCase == b.ignoreCase
  {
    b.(texts := b.texts + val)
  }

  /** `contains_single` and `contains`. */
  function AddContains(b: TextBuilder, val: seq<string>): (r: TextBuilder)
    ensures |r.contains| == |b.contains| + |val| && r.contains[..|b.contains|] == b.contains && r.contains[|b.contains|..] == val
    ensures r.texts == b.texts && r.startsWith == b.startsWith && r.endsWith == b.endsWith && r.ignoreCase == b.ignoreCase
  {
    b.(contains := b.contains + val)
  }

  /** `starts_with_single` and `starts_with`. */
  function AddStartsWith(b: TextBuilder, val: seq<string>): (r: TextBuilder)
    ensures |r.startsWith| == |b.startsWith| + |val| && r.startsWith[..|b.startsWith|] == b.startsWith && r.startsWith[|b.startsWith|..] == val
    ensures r.texts == b.texts && r.contains == b.contains && r.endsWith == b.endsWith && r.ignoreCase == b.ignoreCase
  {
    b.(startsWith := b.startsWith + val)
  }

  /** `ends_with_single` and `ends_with`. */
  function AddEndsWith(b: TextBuilder, val: seq<string>): (r: TextBuilder)
    ensures |r.endsWith| == |b.endsWith| + |val| && r.endsWith[..|b.endsWith|] == b.endsWith && r.endsWith[|b.endsWith|..] == val
    ensures r.texts == b.texts && r.contains == b.contains && r.startsWith == b.startsWith && r.ignoreCase == b.ignoreCase
  {
    b.(endsWith := b.endsWith + val)
  }

  /** `ignore_case`: the flag replaced, the lists kept. */
  function IgnoreCase(b: TextBuilder, ignoreCase: bool): (r: TextBuilder)
    ensures r.ignoreCase == ignoreCase
    ensures r.texts == b.texts && r.contains == b.contains && r.startsWith == b.startsWith && r.endsWith == b.endsWith
  {
    b.(ignoreCase := ignoreCase)
  }

  /** `build`: `Text::new` over everything given, in call order. */
  function Build(b: TextBuilder): (t: Text)
    ensures t == New(b.texts, b.contains, b.startsWith, b.endsWith, b.ignoreCase)
  {
    New(b.texts, b.contains, b.startsWith, b.endsWith, b.ignoreCase)
  }

  /** `Text::one`, `many`, `contains_single`, … : the builder with one
      call. */
  function One(p: PatternType): (t: Text)
    ensures t.texts == [p] && t.contains == [] && t.startsWith == [] && t.endsWith == [] && !t.ignoreCase
  {
    Build(AddTexts(Builder(), [p]))
  }

  function Many(ps: seq<PatternType>): (t: Text)
    ensures t.texts == ps && t.contains == [] && t.startsWith == [] && t.endsWith == [] && !t.ignoreCase
  {
    Build(AddTexts(Builder(), ps))
  }

  function ContainsMany(parts: seq<string>): (t: Text)
    ensures t.contains == parts && t.texts == [] && t.startsWith == [] && t.endsWith == [] && !t.ignoreCase
  {
    Build(AddContains(Builder(), parts))
  }

  function StartsWithMany(parts: seq<string>): (t: Text)
    ensures t.startsWith == parts && t.texts == [] && t.contains == [] && t.endsWith == [] && !t.ignoreCase
  {
    Build(AddStartsWith(Builder(), parts))
  }

  function EndsWithMany(parts: seq<string>): (t: Text)
    ensures t.endsWith == parts && t.texts == [] && t.contains == [] && t.startsWith == [] && !t.ignoreCase
  {
    Build(AddEndsWith(Builder(), parts))
  }

  /** Two `text` calls give a filter passing either text: as given when
      case is respected, and up to case when it is ignored. */
  lemma TwoTextsExample(a: string, b: string, text: string, ignoreCase: bool)
    ensures var t := Build(IgnoreCase(AddTexts(AddTexts(Builder(), [TextPattern(a)]), [TextPattern(b)]), ignoreCase));
      ValidateTexts(t, text) <==> if ignoreCase then Lower(text) == Lower(a) || Lower(text) == Lower(b) else text == a || text == b
  {
    var t := Build(IgnoreCase(AddTexts(AddTexts(Builder(), [TextPattern(a)]), [TextPattern(b)]), ignoreCase));
    assert AddTexts(AddTexts(Builder(), [TextPattern(a)]), [TextPattern(b)]).texts == [TextPattern(a), TextPattern(b)];
    assert t.texts[0] == (if ignoreCase then TextPattern(Lower(a)) else TextPattern(a));
    assert t.texts[1] == (if ignoreCase then TextPattern(Lower(b)) else TextPattern(b));
  }
}
