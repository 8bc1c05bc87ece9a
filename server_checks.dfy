/** The checks the API server applies before it acts: the health score of a
    scraped page (server.py:21-53), the URL check of `scrape_website`
    (server.py:280-285) and the normalisation and validation of a project's
    domain in `create_project` (server.py:880-909). */
module ServerChecks {
  import opened Wrappers
  import opened Text
  import opened Rules
  import opened Document
  import opened SeoExtraction
  import opened ContentAnalysis

  // ---------------------------------------------------------------------
  // calculate_health_score (server.py:21-53)
  // ---------------------------------------------------------------------

  /** The entries of the scraped record the health score reads. */
  datatype HealthInput = HealthInput(title: Option<string>, metaDescription: Option<string>,
                                     canonicalUrl: Option<string>, images: seq<ImageData>, wordCount: nat,
                                     analyticsCount: nat)

  /** The health input of a scraped page: the extractor never stores a
      `meta_description`, so it is always missing. */
  function HealthInputOf(sd: Scraped): HealthInput {
    HealthInput(sd.title, None, sd.seo.canonicalUrl, sd.seo.images, sd.seo.wordCount, |sd.seo.analytics|)
  }

  predicate NoAlt(i: ImageData) { !HasAlt(i) }

  /** `min(10, n * 2)` when some image lacks alt text. */
  function AltDeduction(altless: nat): nat {
    if altless > 0 then (if 10 < altless * 2 then 10 else altless * 2) else 0
  }

  function WordDeduction(words: nat): nat {
    if words < 300 then 10 else if words < 500 then 5 else 0
  }

  /** Everything the score loses. */
  function Deductions(h: HealthInput): nat {
    (if Truthy(h.title) then 0 else 15) + (if Truthy(h.metaDescription) then 0 else 10)
    + (if Truthy(h.canonicalUrl) then 0 else 5) + AltDeduction(CountIf(h.images, NoAlt))
    + WordDeduction(h.wordCount) + (if h.analyticsCount > 5 then 5 else 0)
  }

  /** `max(0, min(100, 100 - deductions))` */
  function HealthScore(h: HealthInput): int {
    var score := 100 - Deductions(h);
    if score > 100 then 100 else if score < 0 then 0 else score
  }

  method CalculateHealthScore(h: HealthInput) returns (score: int)
    ensures score == HealthScore(h)
    ensures 45 <= score <= 100
  {
    score := 100;
    if !Truthy(h.title) {
      score := score - 15;
    }
    if !Truthy(h.metaDescription) {
      score := score - 10;
    }
    if !Truthy(h.canonicalUrl) {
      score := score - 5;
    }
    var altless := CountIf(h.images, NoAlt);
    if altless > 0 {
      score := score - (if 10 < altless * 2 then 10 else altless * 2);
    }
    if h.wordCount < 300 {
      score := score - 10;
    } else if h.wordCount < 500 {
      score := score - 5;
    }
    if h.analyticsCount > 5 {
      score := score - 5;
    }
    score := if score > 100 then 100 else if score < 0 then 0 else score;
  }

  /** The score lies in [45, 100]: the deductions add up to at most 55, so
      neither end of the clamp ever applies. */
  lemma HealthScoreBounds(h: HealthInput)
    ensures Deductions(h) <= 55
    ensures HealthScore(h) == 100 - Deductions(h)
    ensures 45 <= HealthScore(h) <= 100
  {
  }

  /** The alt-text deduction is twice the number of images without alt
      text, capped at 10; the word-count deduction has three tiers. */
  lemma DeductionTiers(altless: nat, words: nat)
    ensures AltDeduction(altless) == if 2 * altless <= 10 then 2 * altless else 10
    ensures WordDeduction(words) == 10 <==> words < 300
    ensures WordDeduction(words) == 5 <==> 300 <= words < 500
    ensures WordDeduction(words) == 0 <==> words >= 500
  {
  }

  /** One more image without alt text never raises the score. */
  lemma MoreAltlessImagesNeverHelp(h: HealthInput, img: ImageData)
    requires !HasAlt(img)
    ensures CountIf(h.images + [img], NoAlt) == CountIf(h.images, NoAlt) + 1
    ensures HealthScore(h.(images := h.images + [img])) <= HealthScore(h)
  {
    assert (h.images + [img])[..|h.images|] == h.images;
  }

  /** A scraped page always loses the meta-description points, so it scores at most 90. */
  lemma ScrapedHealthAtMost90(sd: Scraped)
    ensures HealthScore(HealthInputOf(sd)) <= 90
  {
  }

  // ---------------------------------------------------------------------
  // The URL check of scrape_website (server.py:280-285)
  // ---------------------------------------------------------------------

  /** A refusal: the HTTP status and the error text of the JSON reply. */
  datatype Rejection = Rejection(status: nat, message: string)

  predicate HasWebScheme(url: string) {
    StartsWith(url, "http://") || StartsWith(url, "https://")
  }

  /** The `url` of a scrape request, or the reply that refuses it. */
  function CheckScrapeUrl(url: Option<string>): (r: Result<string, Rejection>)
    ensures r.Ok? <==> url.Some? && HasWebScheme(url.value)
    ensures r.Ok? ==> r.value == url.value
    ensures r.Err? ==> r.error.status == 400
    ensures (url.None? || url.value == "") ==> r == Err(Rejection(400, "URL is required"))
  {
    if url.None? || url.value == "" then Err(Rejection(400, "URL is required"))
    else if !HasWebScheme(url.value) then
      Err(Rejection(400, "Invalid URL format. URL must start with http:// or https://"))
    else Ok(url.value)
  }

  /** Only `http` and `https` URLs reach the scraper, with the scheme in lower case. */
  lemma ScrapeUrlScheme(url: string)
    requires CheckScrapeUrl(Some(url)).Ok?
    ensures url[..4] == "http" && |url| >= 7
    ensures !StartsWith(url, "ftp://") && !StartsWith(url, "HTTP://")
  {
    assert url[0] == 'h';
  }

  // ---------------------------------------------------------------------
  // Domains (server.py:880-909)
  // ---------------------------------------------------------------------

  predicate IsLabelChar(c: char) { IsAlnum(c) || c == '-' }

  /** `[a-zA-Z0-9]([a-zA-Z0-9\-]{0,61}[a-zA-Z0-9])?`: 1 to 63 letters, digits
      and hyphens, starting and ending with a letter or digit (the host name
      label syntax of section 2.1 of RFC 1123). */
  predicate ValidLabel(l: string) {
    1 <= |l| <= 63 && IsAlnum(l[0]) && IsAlnum(l[|l| - 1]) && forall i :: 0 <= i < |l| ==> IsLabelChar(l[i])
  }

  /** The whole text is labels joined by dots. */
  predicate DomainSyntax(s: string) {
    forall k :: 0 <= k < |Split(s, '.')| ==> ValidLabel(Split(s, '.')[k])
  }

  /** `re.match(domain_pattern, s)` as Python runs it: `$` also matches
      before a final newline. */
  predicate DomainMatchAsWritten(s: string) {
    DomainSyntax(s) || (s != [] && s[|s| - 1] == '\n' && DomainSyntax(s[..|s| - 1]))
  }

  /** A domain that passes is made only of letters, digits, hyphens and dots. */
  lemma DomainCharacters(s: string, i: nat)
    requires DomainSyntax(s) && i < |s|
    ensures IsLabelChar(s[i]) || s[i] == '.'
  {
    if s[i] != '.' {
      SplitKeeps(s, '.', i);
      var k :| 0 <= k < |Split(s, '.')| && s[i] in Split(s, '.')[k];
      assert ValidLabel(Split(s, '.')[k]);
    }
  }

  /** The domain `create_project` stores: the netloc with every `www.`
      removed when the text has one, the raw text otherwise, then without
      trailing slashes. `None` is the `ValueError` of `urlparse`. */
  function NormalizeDomain(raw: string, lib: Library): (r: Option<string>)
    ensures r.None? <==> lib.netloc(raw).None?
    ensures r.Some? ==> r.value == [] || r.value[|r.value| - 1] != '/'
  {
    match lib.netloc(raw)
    case None => None
    case Some(netloc) => Some(RStrip(if netloc != "" then Replace(netloc, "www.", "") else raw, '/'))
  }

  const ProjectFailed := Rejection(500, "Failed to create project")

  /** The domain checks of `create_project` as written. A missing
      `websiteUrl` makes `rstrip` raise. */
  function ProjectDomainAsWritten(raw: Option<string>, lib: Library): (r: Result<string, Rejection>)
    ensures r.Ok? ==> DomainMatchAsWritten(r.value) && |r.value| <= 253
  {
    if raw.None? then Err(ProjectFailed)
    else match NormalizeDomain(raw.value, lib)
      case None => Err(ProjectFailed)
      case Some(domain) =>
        if domain == "" then Err(Rejection(400, "Website URL is required"))
        else if !DomainMatchAsWritten(domain) then Err(Rejection(400, "Invalid domain format"))
        else if |domain| > 253 then Err(Rejection(400, "Domain too long"))
        else Ok(domain)
  }

  /** The domain checks with the pattern matched against the whole text. */
  function ProjectDomain(raw: Option<string>, lib: Library): (r: Result<string, Rejection>)
    ensures r.Ok? ==> DomainSyntax(r.value) && 1 <= |r.value| <= 253
    ensures r.Ok? ==> raw.Some? && NormalizeDomain(raw.value, lib) == Some(r.value)
  {
    if raw.None? then Err(ProjectFailed)
    else match NormalizeDomain(raw.value, lib)
      case None => Err(ProjectFailed)
      case Some(domain) =>
        if domain == "" then Err(Rejection(400, "Website URL is required"))
        else if !DomainSyntax(domain) then Err(Rejection(400, "Invalid domain format"))
        else if |domain| > 253 then Err(Rejection(400, "Domain too long"))
        else Ok(domain)
  }

  /** A domain is accepted exactly when its normalised form has the label
      syntax and at most 253 characters. */
  lemma ProjectDomainAccepts(raw: Option<string>, lib: Library)
    ensures ProjectDomain(raw, lib).Ok?
        <==> raw.Some? && NormalizeDomain(raw.value, lib).Some? && DomainSyntax(NormalizeDomain(raw.value, lib).value)
             && |NormalizeDomain(raw.value, lib).value| <= 253
  {
    if raw.Some? && NormalizeDomain(raw.value, lib) == Some("") {
      assert Split("", '.')[0] == "";
    }
  }

  /** An accepted domain has no port, no path, no scheme and no newline. */
  lemma AcceptedDomainIsBare(raw: Option<string>, lib: Library)
    requires ProjectDomain(raw, lib).Ok?
    ensures var d := ProjectDomain(raw, lib).value;
      ':' !in d && '/' !in d && '\n' !in d && ' ' !in d
  {
    var d := ProjectDomain(raw, lib).value;
    forall i | 0 <= i < |d| ensures d[i] != ':' && d[i] != '/' && d[i] != '\n' && d[i] != ' ' {
      DomainCharacters(d, i);
    }
  }

  /** Both checks agree except on a final newline, which the pattern as
      written lets through. */
  lemma ProjectDomainAgrees(raw: Option<string>, lib: Library)
    requires ProjectDomain(raw, lib).Ok?
    ensures ProjectDomainAsWritten(raw, lib) == ProjectDomain(raw, lib)
  {
  }

  /** `example.com` followed by a newline, sent without a scheme, is stored
      as written; the full-text check refuses it. */
  lemma TrailingNewlineDomain(lib: Library)
    requires lib.netloc("example.com\n") == Some("")
    ensures ProjectDomainAsWritten(Some("example.com\n"), lib) == Ok("example.com\n")
    ensures ProjectDomain(Some("example.com\n"), lib) == Err(Rejection(400, "Invalid domain format"))
  {
    var s := "example.com\n";
    assert RStrip(s, '/') == s;
    ExampleDomain();
    assert s[..|s| - 1] == "example.com";
    assert !DomainSyntax(s) by {
      DomainCharacters0(s);
    }
  }

  /** Two labels joined by a dot form a domain. */
  lemma TwoLabels(a: string, b: string)
    requires ValidLabel(a) && ValidLabel(b)
    ensures DomainSyntax(a + ['.'] + b)
  {
    assert '.' !in a by {
      forall i | 0 <= i < |a| ensures a[i] != '.' { assert IsLabelChar(a[i]); }
    }
    assert '.' !in b by {
      forall i | 0 <= i < |b| ensures b[i] != '.' { assert IsLabelChar(b[i]); }
    }
    SplitNoSep(b, '.');
    SplitAt(a, b, '.');
  }

  lemma ExampleDomain()
    ensures DomainSyntax("example.com")
  {
    var a, b := "example", "com";
    assert ValidLabel(a);
    assert ValidLabel(b);
    TwoLabels(a, b);
    assert "example.com" == a + ['.'] + b;
  }

  /** A text ending in a newline is not a domain. */
  lemma DomainCharacters0(s: string)
    requires s != [] && s[|s| - 1] == '\n'
    ensures !DomainSyntax(s)
  {
    if DomainSyntax(s) {
      DomainCharacters(s, |s| - 1);
    }
  }

  /** With a scheme, every `www.` goes: `https://www.example.com` is stored as
      `example.com`. Without one the raw text is kept, `www.` included. */
  lemma WwwNormalisation(lib: Library)
    requires lib.netloc("https://www.example.com") == Some("www.example.com")
    requires lib.netloc("www.example.com") == Some("")
    ensures NormalizeDomain("https://www.example.com", lib) == Some("example.com")
    ensures NormalizeDomain("www.example.com", lib) == Some("www.example.com")
  {
    var n := "www.example.com";
    var e := "example.com";
    assert Replace(n, "www.", "") == e by {
      assert n[..4] == "www." && n[4..] == e;
      assert Replace(e, "www.", "") == e by {
        NotContainsChar(e, "www.", 'w');
        ReplaceAbsent(e, "www.", "");
      }
    }
    assert RStrip(e, '/') == e by { assert e[|e| - 1] == 'm'; }
    assert RStrip(n, '/') == n by { assert n[|n| - 1] == 'm'; }
  }
}
