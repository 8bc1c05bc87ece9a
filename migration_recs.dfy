/** The recommendations the database migration derives from an old SEO
    metadata row (`_generate_recommendations_from_seo`,
    migrate_to_gambix_strata.py:272-329). The row's JSON columns are taken as
    already parsed: the meta tags as a map from key to content and the
    headings as a map from level to heading texts. */
module MigrationRecs {
  import opened Wrappers
  import opened Text
  import opened Rules

  /** The fields of an old `seo_metadata` row the migration reads. */
  datatype SeoRow = SeoRow(url: string, metaTags: map<string, string>, headings: map<string, seq<string>>,
                           wordCount: Option<int>)

  /** One record for the new schema's recommendations table. */
  datatype Recommendation = Recommendation(pageUrl: string, category: string, issue: string,
                                           recommendation: string, priority: string, impactScore: nat,
                                           guidelines: seq<string>)

  /** `seo_data.get('word_count', 0)` */
  function WordCountOf(row: SeoRow): int { row.wordCount.GetOr(0) }

  /** `not meta_tags.get('description')`: the key is missing or its content empty. */
  predicate MissingDescription(row: SeoRow) { "description" !in row.metaTags || row.metaTags["description"] == "" }

  /** `not headings.get('h1')`: the key is missing or its list empty. */
  predicate MissingH1(row: SeoRow) { "h1" !in row.headings || row.headings["h1"] == [] }

  predicate LowWordCount(row: SeoRow) { WordCountOf(row) < 300 }

  const DescriptionAdvice := "Add a compelling meta description to improve search engine visibility and click-through rates."
  const DescriptionGuidelines: seq<string> := ["Keep meta description between 150-160 characters",
                                               "Include primary keywords naturally",
                                               "Make it compelling and action-oriented"]
  const H1Advice := "Add a clear, descriptive H1 heading to improve content structure and SEO."
  const H1Guidelines: seq<string> := ["Use only one H1 per page",
                                      "Include primary keywords",
                                      "Make it descriptive and engaging"]
  const WordCountAdvice := "Expand content to provide more value and improve search rankings."
  const WordCountGuidelines: seq<string> := ["Aim for at least 300-500 words",
                                             "Include relevant keywords naturally",
                                             "Provide comprehensive information"]

  function DescriptionRec(url: string): Recommendation {
    Recommendation(url, "technical_seo", "Missing meta description", DescriptionAdvice, "high", 85,
                   DescriptionGuidelines)
  }

  function H1Rec(url: string): Recommendation {
    Recommendation(url, "content_seo", "Missing H1 heading", H1Advice, "medium", 70, H1Guidelines)
  }

  /** The issue text embeds the count: `Low word count (N words)`. */
  function WordCountRec(url: string, n: int): Recommendation {
    Recommendation(url, "content_seo", "Low word count (" + IntToString(n) + " words)", WordCountAdvice,
                   "medium", 75, WordCountGuidelines)
  }

  /** The three rules' records, in the order they are checked. */
  function Candidates(row: SeoRow): (r: seq<Recommendation>)
    ensures |r| == 3
  { [DescriptionRec(row.url), H1Rec(row.url), WordCountRec(row.url, WordCountOf(row))] }

  function Fires(row: SeoRow): (r: seq<bool>)
    ensures |r| == 3
  { [MissingDescription(row), MissingH1(row), LowWordCount(row)] }

  method GenerateRecommendationsFromSeo(row: SeoRow) returns (recs: seq<Recommendation>)
    ensures recs == Selected(Candidates(row), Fires(row))
  {
    ghost var c, f := Candidates(row), Fires(row);
    recs := [];
    var missingDescription := !("description" in row.metaTags) || row.metaTags["description"] == "";
    recs := AppendIf(recs, missingDescription, DescriptionRec(row.url));
    assert recs == Pick(f[0], c[0]);
    var missingH1 := !("h1" in row.headings) || row.headings["h1"] == [];
    recs := AppendIf(recs, missingH1, H1Rec(row.url));
    var wordCount := if row.wordCount.Some? then row.wordCount.value else 0;
    recs := AppendIf(recs, wordCount < 300, WordCountRec(row.url, wordCount));
    SelectedOfThree(c, f);
  }

  /** What the migration stores for a row. */
  function RecommendationsOf(row: SeoRow): seq<Recommendation> { Selected(Candidates(row), Fires(row)) }

  /** The three records differ in their impact score. */
  lemma CandidatesDistinct(row: SeoRow)
    ensures Distinct(Candidates(row))
  {
    var c := Candidates(row);
    assert c[0].impactScore == 85 && c[1].impactScore == 70 && c[2].impactScore == 75;
  }

  /** Each rule yields its record exactly when its condition holds; 0 to 3
      records come out, none twice, every one for the row's page and with
      three guidelines. */
  lemma MigrationRules(row: SeoRow)
    ensures DescriptionRec(row.url) in RecommendationsOf(row) <==> MissingDescription(row)
    ensures H1Rec(row.url) in RecommendationsOf(row) <==> MissingH1(row)
    ensures WordCountRec(row.url, WordCountOf(row)) in RecommendationsOf(row) <==> WordCountOf(row) < 300
    ensures |RecommendationsOf(row)| <= 3 && Distinct(RecommendationsOf(row))
    ensures forall r :: r in RecommendationsOf(row) ==> r.pageUrl == row.url && |r.guidelines| == 3
  {
    CandidatesDistinct(row);
    SelectedMembership(Candidates(row), Fires(row), 0);
    SelectedMembership(Candidates(row), Fires(row), 1);
    SelectedMembership(Candidates(row), Fires(row), 2);
    SelectedDistinct(Candidates(row), Fires(row));
  }

  /** A row with none of the three problems yields nothing; a row with all
      three yields the description, H1 and word-count records in that order. */
  lemma MigrationOrder(row: SeoRow)
    ensures RecommendationsOf(row) == [] <==> !MissingDescription(row) && !MissingH1(row) && !LowWordCount(row)
    ensures MissingDescription(row) && MissingH1(row) && LowWordCount(row) ==>
      RecommendationsOf(row) == [DescriptionRec(row.url), H1Rec(row.url), WordCountRec(row.url, WordCountOf(row))]
  {
    SelectedOfThree(Candidates(row), Fires(row));
  }

  /** A row without a word count counts as 0 words and gets the
      `Low word count (0 words)` record, with priority medium and score 75. */
  lemma AbsentWordCount(row: SeoRow)
    requires row.wordCount.None?
    ensures WordCountRec(row.url, 0) in RecommendationsOf(row)
    ensures WordCountRec(row.url, 0).issue == "Low word count (0 words)"
  {
    MigrationRules(row);
    assert IntToString(0) == "0";
  }

  /** The word count can be read back from the issue text of the record. */
  lemma WordCountIssueNamesCount(url: string, m: int, n: int)
    ensures WordCountRec(url, m).issue == WordCountRec(url, n).issue <==> m == n
  {
    if WordCountRec(url, m).issue == WordCountRec(url, n).issue {
      var a, b := IntToString(m), IntToString(n);
      assert "Low word count (" + a + " words)" == "Low word count (" + b + " words)";
      assert |a| == |b|;
      assert a == ("Low word count (" + a + " words)")[16..16 + |a|];
      assert b == ("Low word count (" + b + " words)")[16..16 + |b|];
      IntToStringInjective(m, n);
    }
  }
}
