/** The regular expressions main.py uses to pull tracking IDs out of inline
    script text, each written out as a matcher at one position, and
    `re.search` as the leftmost position where the matcher succeeds.

    Every pattern below is deterministic once greedy repetition is taken
    into account: a digit run is followed by a character that cannot be a
    digit, and a whitespace run by a quote, so backtracking into a shorter
    run can never succeed where the longest run failed. */
module IdPatterns {
  import opened Wrappers
  import opened Text

  datatype Pattern =
    | Ga4          // G-[A-Z0-9]{10}
    | Ua           // UA-[0-9]+-[0-9]+
    | GaId         // G-[A-Z0-9]{10}|UA-[0-9]+-[0-9]+
    | GtagConfig   // gtag\(['"](config|js)['"],\s*['"](G-[A-Z0-9]{10}|UA-[0-9]+-[0-9]+)['"]
    | Gtm          // GTM-[A-Z0-9]{7}
    | Pixel        // fbq\(['"]init['"],\s*['"]([0-9]{9,15})['"]     (group 1)
    | Hotjar       // hjid:\s*([0-9]+)                                (group 1)
    | Mixpanel     // mixpanel\.init\(['"]([a-zA-Z0-9]{32})['"]       (group 1)

  /** The part of the searched text that the source reads off a match:
      `group()` for patterns without a group, `group(1)` for the others. */
  datatype Span = Span(start: nat, end: nat)

  /** A successful `re.search`: the leftmost start position and its span. */
  datatype Found = Found(pos: nat, span: Span)

  // ---------------------------------------------------------------------
  // Character classes and runs
  // ---------------------------------------------------------------------

  /** `[A-Z0-9]` */
  predicate IsIdChar(c: char) { IsUpper(c) || IsDigit(c) }

  /** `['"]` */
  predicate IsQuote(c: char) { c == '\'' || c == '"' }

  predicate QuoteAt(s: string, j: nat) { j < |s| && IsQuote(s[j]) }

  /** `n` characters from `from` on all satisfy `p`. */
  predicate AllAt(s: string, from: nat, n: nat, p: char -> bool) {
    from + n <= |s| && forall k :: from <= k < from + n ==> p(s[k])
  }

  predicate AllDigits(t: string) { forall k :: 0 <= k < |t| ==> IsDigit(t[k]) }

  /** End of the longest digit run starting at `i` (`[0-9]+` is greedy). */
  function DigitsEnd(s: string, i: nat): (e: nat)
    requires i <= |s|
    ensures i <= e <= |s|
    ensures forall k :: i <= k < e ==> IsDigit(s[k])
    ensures e < |s| ==> !IsDigit(s[e])
  {
    i + RunLength(s[i..], IsDigit)
  }

  /** End of the longest whitespace run starting at `i` (`\s*`). */
  function SpacesEnd(s: string, i: nat): (e: nat)
    requires i <= |s|
    ensures i <= e <= |s|
    ensures forall k :: i <= k < e ==> IsSpace(s[k])
    ensures e < |s| ==> !IsSpace(s[e])
  {
    i + RunLength(s[i..], IsSpace)
  }

  // ---------------------------------------------------------------------
  // The shape of what each pattern reports
  // ---------------------------------------------------------------------

  predicate IsGa4Id(t: string) {
    |t| == 12 && t[..2] == "G-" && forall k :: 2 <= k < 12 ==> IsIdChar(t[k])
  }

  predicate IsUaId(t: string) {
    StartsWith(t, "UA-") &&
    exists m :: 4 <= m < |t| - 1 && t[m] == '-' && AllDigits(t[3..m]) && AllDigits(t[m + 1..])
  }

  predicate IsGtmId(t: string) {
    |t| == 11 && t[..4] == "GTM-" && forall k :: 4 <= k < 11 ==> IsIdChar(t[k])
  }

  predicate IsPixelId(t: string) { 9 <= |t| <= 15 && AllDigits(t) }

  predicate IsHotjarId(t: string) { |t| >= 1 && AllDigits(t) }

  predicate IsMixpanelToken(t: string) { |t| == 32 && forall k :: 0 <= k < 32 ==> IsAlnum(t[k]) }

  predicate HasShape(p: Pattern, t: string) {
    match p
    case Ga4 => IsGa4Id(t)
    case Ua => IsUaId(t)
    case GaId => IsGa4Id(t) || IsUaId(t)
    case GtagConfig => StartsWith(t, "gtag(")
    case Gtm => IsGtmId(t)
    case Pixel => IsPixelId(t)
    case Hotjar => IsHotjarId(t)
    case Mixpanel => IsMixpanelToken(t)
  }

  // ---------------------------------------------------------------------
  // Matchers at one position
  // ---------------------------------------------------------------------

  function Ga4At(s: string, i: nat): Option<Span> {
    if OccursAt(s, "G-", i) && AllAt(s, i + 2, 10, IsIdChar) then Some(Span(i, i + 12)) else None
  }

  function UaAt(s: string, i: nat): Option<Span> {
    if !OccursAt(s, "UA-", i) then None
    else
      var d1 := DigitsEnd(s, i + 3);
      if d1 == i + 3 || d1 == |s| || s[d1] != '-' then None
      else
        var d2 := DigitsEnd(s, d1 + 1);
        if d2 == d1 + 1 then None else Some(Span(i, d2))
  }

  /** The alternation tries the GA4 form first at each position. */
  function GaIdAt(s: string, i: nat): Option<Span> {
    if Ga4At(s, i).Some? then Ga4At(s, i) else UaAt(s, i)
  }

  /** Position of the ID inside `gtag('config', '<id>'` or `gtag("js", "<id>"`,
      when everything before the ID matches at `i`. */
  function GtagIdPos(s: string, i: nat): (r: Option<nat>)
    ensures r.Some? ==> r.value <= |s|
  {
    if !OccursAt(s, "gtag(", i) || !QuoteAt(s, i + 5) then None
    else
      var close :=
        if OccursAt(s, "config", i + 6) && QuoteAt(s, i + 12) then i + 12
        else if OccursAt(s, "js", i + 6) && QuoteAt(s, i + 8) then i + 8
        else 0;
      if close == 0 || !OccursAt(s, ",", close + 1) then None
      else
        var w := SpacesEnd(s, close + 2);
        if !QuoteAt(s, w) then None else Some(w + 1)
  }

  function GtagAt(s: string, i: nat): Option<Span> {
    match GtagIdPos(s, i)
    case None => None
    case Some(j) =>
      if Ga4At(s, j).Some? && QuoteAt(s, j + 12) then Some(Span(i, j + 13))
      else match UaAt(s, j)
        case Some(sp) => if QuoteAt(s, sp.end) then Some(Span(i, sp.end + 1)) else None
        case None => None
  }

  function GtmAt(s: string, i: nat): Option<Span> {
    if OccursAt(s, "GTM-", i) && AllAt(s, i + 4, 7, IsIdChar) then Some(Span(i, i + 11)) else None
  }

  function PixelAt(s: string, i: nat): Option<Span> {
    if !OccursAt(s, "fbq(", i) || !QuoteAt(s, i + 4) || !OccursAt(s, "init", i + 5)
       || !QuoteAt(s, i + 9) || !OccursAt(s, ",", i + 10) then None
    else
      var w := SpacesEnd(s, i + 11);
      if !QuoteAt(s, w) then None
      else
        var e := DigitsEnd(s, w + 1);
        if 9 <= e - (w + 1) <= 15 && QuoteAt(s, e) then Some(Span(w + 1, e)) else None
  }

  function HotjarAt(s: string, i: nat): Option<Span> {
    if !OccursAt(s, "hjid:", i) then None
    else
      var w := SpacesEnd(s, i + 5);
      var e := DigitsEnd(s, w);
      if e == w then None else Some(Span(w, e))
  }

  function MixpanelAt(s: string, i: nat): Option<Span> {
    if OccursAt(s, "mixpanel.init(", i) && QuoteAt(s, i + 14) && AllAt(s, i + 15, 32, IsAlnum)
       && QuoteAt(s, i + 47)
    then Some(Span(i + 15, i + 47))
    else None
  }

  function MatchAt(p: Pattern, s: string, i: nat): (r: Option<Span>)
    ensures r.Some? ==> i <= r.value.start <= r.value.end <= |s|
  {
    match p
    case Ga4 => Ga4At(s, i)
    case Ua => UaAt(s, i)
    case GaId => GaIdAt(s, i)
    case GtagConfig => GtagAt(s, i)
    case Gtm => GtmAt(s, i)
    case Pixel => PixelAt(s, i)
    case Hotjar => HotjarAt(s, i)
    case Mixpanel => MixpanelAt(s, i)
  }

  /** What a pattern reports has the pattern's shape. */
  lemma MatchShape(p: Pattern, s: string, i: nat)
    requires MatchAt(p, s, i).Some?
    ensures var sp := MatchAt(p, s, i).value; HasShape(p, s[sp.start..sp.end])
  {
    match p
    case Ga4 => Ga4Shape(s, i);
    case Ua => UaShape(s, i);
    case GaId => if Ga4At(s, i).Some? { Ga4Shape(s, i); } else { UaShape(s, i); }
    case GtagConfig => GtagShape(s, i);
    case Gtm => GtmShape(s, i);
    case Pixel => PixelShape(s, i);
    case Hotjar => HotjarShape(s, i);
    case Mixpanel => MixpanelShape(s, i);
  }

  lemma Ga4Shape(s: string, i: nat)
    requires Ga4At(s, i).Some?
    ensures var sp := Ga4At(s, i).value; IsGa4Id(s[sp.start..sp.end])
  {
    var t := s[i..i + 12];
    assert t[..2] == s[i..i + 2];
  }

  lemma GtagShape(s: string, i: nat)
    requires GtagAt(s, i).Some?
    ensures var sp := GtagAt(s, i).value; StartsWith(s[sp.start..sp.end], "gtag(")
  {
    var sp := GtagAt(s, i).value;
    var t := s[sp.start..sp.end];
    assert t[..5] == s[i..i + 5];
  }

  lemma GtmShape(s: string, i: nat)
    requires GtmAt(s, i).Some?
    ensures var sp := GtmAt(s, i).value; IsGtmId(s[sp.start..sp.end])
  {
    var t := s[i..i + 11];
    assert t[..4] == s[i..i + 4];
  }

  lemma PixelShape(s: string, i: nat)
    requires PixelAt(s, i).Some?
    ensures var sp := PixelAt(s, i).value; IsPixelId(s[sp.start..sp.end])
  {
  }

  lemma HotjarShape(s: string, i: nat)
    requires HotjarAt(s, i).Some?
    ensures var sp := HotjarAt(s, i).value; IsHotjarId(s[sp.start..sp.end])
  {
  }

  lemma MixpanelShape(s: string, i: nat)
    requires MixpanelAt(s, i).Some?
    ensures var sp := MixpanelAt(s, i).value; IsMixpanelToken(s[sp.start..sp.end])
  {
  }

  lemma UaShape(s: string, i: nat)
    requires UaAt(s, i).Some?
    ensures var sp := UaAt(s, i).value; IsUaId(s[sp.start..sp.end])
  {
    var sp := UaAt(s, i).value;
    var t := s[sp.start..sp.end];
    var d1 := DigitsEnd(s, i + 3);
    var d2 := sp.end;
    var m := d1 - i;
    assert sp.start == i && d2 == DigitsEnd(s, d1 + 1);
    assert t[..3] == s[i..i + 3];
    assert 4 <= m < |t| - 1 && t[m] == '-';
    var run1, run2 := t[3..m], t[m + 1..];
    forall j | 0 <= j < |run1| ensures IsDigit(run1[j]) {
      assert run1[j] == s[i + 3 + j] && i + 3 <= i + 3 + j < d1;
    }
    forall j | 0 <= j < |run2| ensures IsDigit(run2[j]) {
      assert run2[j] == s[d1 + 1 + j] && d1 + 1 <= d1 + 1 + j < d2;
    }
    assert AllDigits(run1) && AllDigits(run2);
  }

  // ---------------------------------------------------------------------
  // re.search
  // ---------------------------------------------------------------------

  /** The leftmost position at or after `from` where `p` matches. */
  function SearchFrom(p: Pattern, s: string, from: nat): (r: Option<Found>)
    ensures r.Some? ==> from <= r.value.pos <= |s| && MatchAt(p, s, r.value.pos) == Some(r.value.span)
    ensures r.Some? ==> forall j :: from <= j < r.value.pos ==> MatchAt(p, s, j).None?
    ensures r.None? ==> forall j :: from <= j <= |s| ==> MatchAt(p, s, j).None?
    decreases |s| + 1 - from
  {
    if from > |s| then None
    else match MatchAt(p, s, from)
      case Some(sp) => Some(Found(from, sp))
      case None => SearchFrom(p, s, from + 1)
  }

  function Search(p: Pattern, s: string): Option<Found> {
    SearchFrom(p, s, 0)
  }

  /** `p` matches at `i` and at no earlier position. */
  predicate IsLeftmost(p: Pattern, s: string, i: nat) {
    i <= |s| && MatchAt(p, s, i).Some? && forall j :: 0 <= j < i ==> MatchAt(p, s, j).None?
  }

  /** The text the match at `i` reports. */
  function MatchedText(p: Pattern, s: string, i: nat): string
    requires MatchAt(p, s, i).Some?
  {
    var sp := MatchAt(p, s, i).value;
    s[sp.start..sp.end]
  }

  /** The text `re.search(p, s)` reports (`group()` or `group(1)`), if any:
      that of the leftmost position where the pattern matches. */
  function FindText(p: Pattern, s: string): (r: Option<string>)
    ensures r.Some? <==> exists i :: 0 <= i <= |s| && MatchAt(p, s, i).Some?
    ensures r.Some? ==> exists i :: IsLeftmost(p, s, i) && r.value == MatchedText(p, s, i)
    ensures forall i :: IsLeftmost(p, s, i) ==> r == Some(MatchedText(p, s, i))
    ensures r.Some? ==> HasShape(p, r.value) && Contains(s, r.value)
  {
    match Search(p, s)
    case None => None
    case Some(f) =>
      MatchShape(p, s, f.pos);
      assert OccursAt(s, s[f.span.start..f.span.end], f.span.start);
      SearchIsLeftmost(p, s);
      Some(s[f.span.start..f.span.end])
  }

  /** `re.search` stops at the one leftmost matching position. */
  lemma SearchIsLeftmost(p: Pattern, s: string)
    ensures Search(p, s).Some? ==> IsLeftmost(p, s, Search(p, s).value.pos)
    ensures forall i :: IsLeftmost(p, s, i) ==> Search(p, s) == Some(Found(i, MatchAt(p, s, i).value))
  {
    forall i | IsLeftmost(p, s, i) ensures Search(p, s) == Some(Found(i, MatchAt(p, s, i).value)) {
      SearchFinds(p, s, i);
    }
  }

  /** A match anywhere makes the search succeed, at that position or before. */
  lemma SearchFinds(p: Pattern, s: string, j: nat)
    requires j <= |s| && MatchAt(p, s, j).Some?
    ensures Search(p, s).Some? && Search(p, s).value.pos <= j
  {
  }

  /** Every `gtag('config', ...)` match carries a GA4 or UA ID that the
      unanchored searches find on their own. */
  lemma GtagCarriesId(s: string, i: nat)
    requires GtagAt(s, i).Some?
    ensures FindText(Ga4, s).Some? || FindText(Ua, s).Some?
  {
    var j := GtagIdPos(s, i).value;
    if Ga4At(s, j).Some? {
      assert MatchAt(Ga4, s, j).Some?;
    } else {
      assert MatchAt(Ua, s, j).Some?;
    }
  }

  lemma GtagSearchCarriesId(s: string)
    ensures Search(GtagConfig, s).Some? ==> FindText(Ga4, s).Some? || FindText(Ua, s).Some?
  {
    if Search(GtagConfig, s).Some? {
      GtagCarriesId(s, Search(GtagConfig, s).value.pos);
    }
  }
}
