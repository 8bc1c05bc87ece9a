# A verified model of the web scraper's SEO pipeline

The web scraper fetches a page, pulls SEO metadata and tracking-tool
fingerprints out of its HTML, scores and analyses the result, and keeps a
tracker of every site it has scraped or optimised. Around that core sit a
Flask server, database migrations and an AWS setup script, each with a few
validators or scoring rules of its own. This project models that core in
Dafny and proves what its code promises.

- **Tracking fingerprints** (`IdPatterns`, `Fingerprint`).
  - The ID patterns (`G-…`, `UA-…-…`, `GTM-…`, the Facebook pixel, Hotjar
    and Mixpanel) are written as matchers at one position. `re.search` is
    the leftmost position where a matcher succeeds.
  - The per-tool extractors run over those matchers. The if/elif dispatch of
    `extract_analytics_data` files each script under at most one tool.
  - The summary counts the tools, and the tracking-intensity bands are
    computed from that count.
- **Metadata extraction** (`Document`, `SeoExtraction`, `Keywords`).
  - The page is a sequence of element records (tag, attributes, text,
    string).
  - Modelled: meta-tag bucketing, canonical/favicon/sitemap/feeds, JSON-LD
    blocks, the six heading lists, image records, and the
    internal/external/social link split by netloc equality.
  - Also modelled: the legacy analytics hits, the word count, and the
    top-20 keyword table, which is a stable descending sort.
- **Analysis** (`ContentAnalysis`). `analyze_scraped_content` with the
  performance score, the optimisation opportunities and the
  ten recommendation rules. Ratios are kept as integer fractions.
- **Server rules** (`ServerChecks`).
  - `calculate_health_score`.
  - The URL-scheme check of `scrape_website`.
  - The domain normalisation and validation of `create_project`.
- **Migration rules** (`MigrationRecs`): the three recommendations the
  migration derives from an old SEO row.
- **AWS name checks** (`AwsValidators`): the bucket-name and table-prefix
  validators of the setup script.
- **File names** (`Filenames`): `get_safe_filename`, with the clock reading
  as a parameter.
- **Site tracker** (`Tracker`).
  - `SiteTracker` is a class whose `sites` map, key order and metadata
    counters are updated in place.
  - Its queries are loops proved against specification functions.

Shared pieces are in separate modules:
- `Wrappers`: `Option`, `Result`.
- `Text`: character classes, lower-casing, substring search, `replace`,
  `strip`, `split`, number printing.
- `Rules`: "append when the rule fires" chains.
- `Sorting`: Python's stable `sort(reverse=True)` and `max(key=…)`.

Python semantics the model spells out:
- `$` in `re.match` also matches before one final newline.
- Truthiness is spelled out (`not x` on an empty string or list).
- `None.lower()` and `len(None)` raise; the model returns `None` or `Err`
  there.
- `urlparse(...).netloc` and `urljoin` are functions handed in as
  parameters. `None` stands for the `ValueError` they raise on malformed
  input.
- Clock readings are parameters.

## Model

| member | source | states |
|---|---|---|
| Fingerprint.TrackingIntensity | main.py:13-33 | 0 tools is 'None', 1 is 'Light', 2–3 'Moderate', 4–5 'Heavy', 6 or more 'Very Heavy' (each band an iff on the total) |
| Fingerprint.IntensityMonotone | main.py:13-33 | more tracking tools never give a lower intensity band |
| Fingerprint.SummaryOf | main.py:1082-1099 | `total_tracking_tools` is the sum of the six tool lists (social meta excluded); each `has_*` flag holds iff its list is non-empty; the intensity is that of the total |
| Fingerprint.ExtractGa | main.py:1103-1141 | a record exists iff a GA4 or a UA ID occurs in the inline content; measurement and tracking IDs are the leftmost matches; version is 'Universal Analytics' iff a UA ID occurs; preview and src are copied |
| Fingerprint.ExtractGtm | main.py:1143-1159 | a record exists iff `GTM-` + 7 upper-case letters or digits occurs in the content; the container ID is the leftmost such match (`FindText`), so it has that shape and occurs in the content |
| Fingerprint.ExtractPixel | main.py:1161-1177 | a record exists iff `fbq('init', '<9-15 digits>')` matches; the pixel ID is the group captured by the leftmost match (`FindText`), 9 to 15 digits |
| Fingerprint.ExtractHotjar | main.py:1179-1195 | a record exists iff `hjid:` followed by digits matches; the site ID is the digit group after the leftmost `hjid:` match (`FindText`) |
| Fingerprint.ExtractMixpanel | main.py:1197-1213 | a record exists iff `mixpanel.init('<32 alphanumerics>')` matches; the token is the 32-character group of the leftmost match (`FindText`) |
| Fingerprint.BothIdsMeanUniversal | main.py:1116-1126 | when both a GA4 and a UA ID occur, both are recorded and the version is 'Universal Analytics' |
| Fingerprint.Ga4ConfigExample | main.py:1103-1141 | `gtag('config','G-ABCD123456')` gives version GA4, measurement ID `G-ABCD123456` and no tracking ID |
| IdPatterns.GtagSearchCarriesId | main.py:1128-1139 | whenever the `gtag(...)` pattern matches, an unanchored GA4 or UA search has already found an ID, so the fallback never changes the record |
| IdPatterns.FindText | main.py:1116-1124 | `re.search` finds text iff the pattern matches at some position; it reports the text of the leftmost matching position, and of no other; that text has the pattern's shape and occurs in the text |
| IdPatterns.SearchFrom | main.py:1116-1124 | the reported position is the leftmost at or after the start where the pattern matches, and nothing earlier matches |
| IdPatterns.SearchIsLeftmost | main.py:1116-1124 | a search stops at the leftmost matching position, and any position that is leftmost is the one it reports |
| Fingerprint.StepAddsAtMostOne | main.py:1021-1062 | one script adds at most one record to at most one tool list and removes nothing |
| Fingerprint.GaArmWithoutIdAddsNothing | main.py:1026-1030 | a script that enters the GA branch without any ID adds nothing and is never tried against the later tools |
| Fingerprint.OtherArmIgnoresSrc | main.py:1055-1062 | the "other tools" branch is taken only when the lower-cased content names one of the other tools; src is not consulted |
| Fingerprint.ExternalOnlyOtherToolIgnored | main.py:1021-1062 | an external script with no content and no known tool name in its src adds nothing |
| Fingerprint.ToolsAtMostOnePerScript | main.py:1021-1062 | the total number of tool records never exceeds the number of scripts |
| Fingerprint.SocialOf | main.py:1064-1080 | a meta tag gives a social-tracking record iff its lower-cased name mentions facebook, `fb:` or twitter; facebook wins over twitter |
| Fingerprint.ExtractAnalyticsData | main.py:992-1101 | the loop over scripts and meta tags yields the specified record, whose total equals the sum of the tool lists and is at most the number of scripts |
| SeoExtraction.MetaLastWins | main.py:72-91 | `meta_tags[k]` is the content of the last meta tag keyed `k` (name, else property), and empty keys are skipped |
| SeoExtraction.MetaOfConsistent | main.py:72-91 | `open_graph`/`twitter_cards` are exactly the `og:`/`twitter:` keys of `meta_tags`; robots, viewport, charset and language follow their keys |
| SeoExtraction.CollectMeta | main.py:72-91 | the meta-tag loop computes the specified buckets |
| SeoExtraction.MetaBuckets | main.py:72-91 | on a successful extraction, each bucket is a view of `meta_tags` and `robots_directive` is `meta_tags['robots']` |
| SeoExtraction.FaviconOf | main.py:98-101 | when a `rel=icon` link exists, the favicon is the href of the first one; otherwise, when a `shortcut icon` link exists, the href of the first of those; with neither there is no favicon |
| SeoExtraction.CollectFeeds | main.py:108-115 | the feed loop keeps the `rel=alternate` links of RSS or Atom type, in order |
| SeoExtraction.CollectStructured | main.py:117-123 | the JSON-LD loop keeps the blocks that parse, in order, and skips the others |
| SeoExtraction.FeedsOfMembers | main.py:108-115 | a feed is listed exactly when some alternate link of RSS or Atom type yields it; never more feeds than links |
| SeoExtraction.StructuredMembers | main.py:117-123 | a JSON-LD block is stored exactly when some `application/ld+json` script's text parses to it; never more blocks than elements |
| SeoExtraction.CollectHeadings | main.py:125-128 | the heading loop builds the specified map of h1..h6 |
| SeoExtraction.HeadingKeysExact | main.py:125-128 | a scraped record has exactly the keys h1..h6 iff extraction succeeds, and none iff the fallback is used |
| SeoExtraction.HeadingsInOrder | main.py:125-128 | each level's list holds the texts of that level's headings in document order |
| SeoExtraction.CollectImages | main.py:130-141 | the image loop builds one record per `img`, in order |
| SeoExtraction.LinksOf | main.py:143-177 | link collection fails iff some anchor's resolved URL cannot be parsed |
| SeoExtraction.LinksPartition | main.py:143-177 | each internal link's netloc is the page's and each external link's is another; social links are the external ones naming a social domain; an `http…` href is its own full URL; the two lists hold one record per anchor |
| SeoExtraction.LinksFiltered | main.py:143-177 | the internal list is the anchors' records whose netloc is the page's, in document order, and the external list the records of all the others, in order |
| SeoExtraction.LinkFilterMembers | main.py:143-177 | each anchor of a class has its record in that class's list, and the list holds only such records |
| SeoExtraction.LinksSplit | main.py:143-177 | every anchor lands in exactly one list: its record is internal iff its netloc is the page's, external iff not; the lists hold nothing but anchor records |
| SeoExtraction.CollectLinks | main.py:143-177 | the link loop computes the specified partition |
| SeoExtraction.LinkClassification | main.py:143-177 | on a successful extraction the stored internal and external lists are the anchors split by netloc in document order, each anchor in exactly one; social links are external; `total_links` is internal plus external |
| SeoExtraction.HitsAtMostOnePerScript | main.py:179-194 | each script yields at most one legacy analytics hit, for the first pattern it shows, with its src |
| SeoExtraction.HitsComplete | main.py:184-194 | no script showing a signature is skipped: there is one hit per such script, and each such script's hit is in the list |
| SeoExtraction.HitOf | main.py:186-194 | a script yields a hit iff it shows one of the nine signatures, with its src and a signature it shows |
| SeoExtraction.CollectHits | main.py:179-194 | the legacy pattern loop computes the specified hits |
| SeoExtraction.ExtractSeoMetadata | main.py:35-226 | the extraction method computes the specified record, or fails where the source raises |
| SeoExtraction.SeoFields | main.py:35-226 | each field of a successful record is the specified view of the page |
| SeoExtraction.ExtractionFailure | main.py:143-168 | extraction raises exactly when the page URL or one anchor's resolved URL cannot be parsed |
| SeoExtraction.WordStatistics | main.py:199-214 | `word_count` counts every token, stop words included, and equals the sum of the frequency table; the keyword table has at most 20 kept rows |
| Keywords.Tokens | main.py:200-201 | the tokens are exactly the maximal word-character runs of the lower-cased text, one per position where a run begins |
| Text.RunsCharacterised | main.py:201 | the runs of a text are exactly its maximal runs, as many as the positions where a run begins |
| Keywords.Frequencies | main.py:205 | one row per distinct token, in first-occurrence order, with its number of occurrences |
| Keywords.WordCountIsTotal | main.py:202-205 | the counts of the frequency table add up to the number of tokens |
| Keywords.KeywordRows | main.py:207-214 | every keyword row is a token of length above 2 that is not a stop word, with its exact count |
| Keywords.KeywordCountsDescending | main.py:213 | keyword counts are non-increasing |
| Keywords.KeywordTies | main.py:213 | rows of equal count keep the first-occurrence order of their words (the sort is stable) |
| Keywords.KeywordWordsDistinct | main.py:209-213 | no word appears twice in the table |
| Keywords.KeywordTopTwenty | main.py:213 | a kept word missing from the table means the table is full and the word's count is at most the last row's |
| Sorting.SortDesc | main.py:213 | the descending sort is a permutation, sorted by key, and keeps the input order among equal keys |
| Sorting.FirstMax | site_tracker.py:274 | `max(..., key=...)` returns an element of maximal key, the first such one |
| ContentAnalysis.PageTitle | main.py:252 | the title is the first `title` element's string (possibly `None`), or "No title found" without one |
| ContentAnalysis.OverviewAsWritten | main.py:646-656 | the overview raises exactly when the title is `None` |
| ContentAnalysis.OverviewOf | main.py:646-656 | `has_title` iff the title is non-empty; `title_optimal` iff its length is 50 to 60; equal to the source's overview wherever that one does not raise |
| ContentAnalysis.ContentRichness | main.py:670 | 'High' iff more than 1000 words, 'Low' iff at most 300 |
| ContentAnalysis.TechnicalOf | main.py:673-686 | each of the five counts is the length of its list; script and style totals are the sums of their parts; external-resource and inline-code flags are the stated disjunctions |
| ContentAnalysis.HeadingStructure | main.py:692-697 | a level appears in the structure iff it has headings, with their count |
| ContentAnalysis.ContentTypeOf | main.py:699-711 | the content-type chain, each outcome an iff in if/elif order: simple page iff no headings; landing page iff one h1 and at most 5 headings; content-rich iff more than 10; article iff more than 3 h2 otherwise; product iff at most 3 h2 and more than 5 h3 otherwise; 'Unknown' iff none applies |
| ContentAnalysis.DepthOf | main.py:720 | 'Deep' iff more than 15 headings, 'Shallow' iff at most 5 |
| ContentAnalysis.CategoriesPartition | main.py:737-751 | every link is filed exactly once, and each category list holds only links of that category |
| ContentAnalysis.CategorizeLinks | main.py:737-751 | the categorisation loop computes the specified categories |
| ContentAnalysis.MediaRichness | main.py:780 | 'High' iff more than 10 images, 'Low' iff at most 3 |
| ContentAnalysis.DivisionSafety | main.py:757-781 | every ratio has a positive denominator; with no links both link ratios are 0, and so is the social ratio when every social link is also external; with no images alt coverage is 0 |
| ContentAnalysis.ScrapedLinkRatiosVanish | main.py:757-762 | for an extracted or fallback record with no links, the internal, external and social ratios are all 0 |
| ContentAnalysis.AnalysisFigures | main.py:723-795 | link totals and category counts agree, images with and without alt add up, link quality is 'Good' iff internal outnumber external, and the performance score is within 55..100 |
| ContentAnalysis.InternalNeverExternalReference | main.py:748 | an internal link of a successful extraction is never categorised as an external reference |
| ContentAnalysis.AnalyzeScrapedContent | main.py:625-799 | the analysis method computes the specified analysis |
| ContentAnalysis.CalculatePerformanceScore | main.py:801-819 | the score is the specified one and lies in 55..100 |
| ContentAnalysis.PerformanceScoreBounds | main.py:801-819 | the score is 100 minus the three deductions, at least 55, so the clamp at 0 never binds |
| ContentAnalysis.PerfectPerformance | main.py:801-819 | the score is 100 iff at most 10 scripts, at most 20 inline styles and no image without alt |
| ContentAnalysis.PerformanceMonotone | main.py:801-819 | more scripts, inline styles or alt-less images never raise the score |
| ContentAnalysis.IdentifyOpportunities | main.py:821-843 | the opportunities are the texts of the rules that fire, in rule order |
| ContentAnalysis.OpportunityRules | main.py:821-843 | each opportunity appears iff its rule fires; none appears iff all six conditions are met |
| ContentAnalysis.GenerateRecommendations | main.py:845-883 | the recommendations are the texts of the rules that fire, in rule order |
| ContentAnalysis.RecommendationRules | main.py:845-883 | each recommendation appears iff its rule fires; at most 10, none twice |
| ContentAnalysis.ShortContentRecommendations | main.py:850-851 | under 300 words both the "add more content" and "enhance content depth" texts fire; at exactly 300 only the latter |
| ContentAnalysis.AltTextRecommendation | main.py:856-857 | the alt-text recommendation fires iff there are no images or alt coverage is below 80% |
| ContentAnalysis.LinkBalanceRecommendation | main.py:873-874 | the link-balance recommendation fires iff external links outnumber internal ones |
| ContentAnalysis.HeadingRecommendation | main.py:870-871 | the heading recommendation fires iff the page does not have exactly one h1 and some h2 |
| ContentAnalysis.FallbackRecommendations | main.py:313-337 | the fallback record triggers the content, canonical, alt-text, favicon, heading, depth and social recommendations, and not the scripts one |
| ServerChecks.CalculateHealthScore | server.py:21-53 | the score is the specified one and lies in 45..100 |
| ServerChecks.HealthScoreBounds | server.py:21-53 | the deductions total at most 55, so the score is 100 minus them and the clamp never binds |
| ServerChecks.DeductionTiers | server.py:35-50 | the alt deduction is min(10, 2 × alt-less images); word deductions are 10 below 300, 5 from 300 to 499, 0 from 500 |
| ServerChecks.MoreAltlessImagesNeverHelp | server.py:35-38 | adding an alt-less image adds one to the count and never raises the score |
| ServerChecks.ScrapedHealthAtMost90 | server.py:27-30 | scraper output never carries `meta_description`, so its score is at most 90 |
| ServerChecks.CheckScrapeUrl | server.py:280-285 | a URL is accepted iff present and starting with `http://` or `https://`; otherwise a 400, with "URL is required" when missing or empty |
| ServerChecks.ScrapeUrlScheme | server.py:284-285 | an accepted URL starts with `http` and has at least 7 characters; `ftp://` and upper-case `HTTP://` are refused |
| ServerChecks.NormalizeDomain | server.py:880-886 | normalisation fails iff the URL cannot be parsed, and the result never ends in `/` |
| ServerChecks.WwwNormalisation | server.py:880-886 | `https://www.example.com` becomes `example.com`; `www.example.com` keeps its `www.` |
| ServerChecks.ProjectDomainAsWritten | server.py:880-909 | what the source accepts matches its pattern under `re.match` (trailing newline allowed) and has at most 253 characters |
| ServerChecks.ProjectDomain | server.py:880-909 | an accepted domain has the hostname label syntax, 1 to 253 characters, and is the normalised input |
| ServerChecks.ProjectDomainAccepts | server.py:880-909 | a domain is accepted iff its normalised form has the label syntax and at most 253 characters |
| ServerChecks.AcceptedDomainIsBare | server.py:903-905 | an accepted domain has no port colon, slash, newline or space |
| ServerChecks.ProjectDomainAgrees | server.py:880-909 | whatever the corrected check accepts, the source accepts too, with the same result |
| ServerChecks.DomainCharacters0 | server.py:903-905 | a text ending in a newline never has the label syntax |
| ServerChecks.TrailingNewlineDomain | server.py:903-905 | `example.com` plus a newline passes the source's check and is refused by the corrected one |
| ServerChecks.ExampleDomain | server.py:903-905 | `example.com` has the label syntax |
| MigrationRecs.GenerateRecommendationsFromSeo | migrate_to_gambix_strata.py:272-329 | the method returns the records of the rules that fire, in rule order |
| MigrationRecs.MigrationRules | migrate_to_gambix_strata.py:272-329 | the description, H1 and word-count records appear iff their conditions hold; at most 3, none twice, each for the row's URL with 3 guidelines |
| MigrationRecs.MigrationOrder | migrate_to_gambix_strata.py:281-327 | no record iff none of the three problems; all three give description, H1, word count in that order |
| MigrationRecs.AbsentWordCount | migrate_to_gambix_strata.py:313-327 | a row without a word count counts 0 words and gets `Low word count (0 words)` |
| MigrationRecs.WordCountIssueNamesCount | migrate_to_gambix_strata.py:313-318 | two word-count issue texts are equal iff their counts are |
| MigrationRecs.CandidatesDistinct | migrate_to_gambix_strata.py:281-327 | the three records differ (impact 85, 70, 75) |
| AwsValidators.ValidateBucketName | setup_aws_infrastructure.py:63-101 | an accepted name has 3 to 63 characters, neither end a hyphen, and no `--` |
| AwsValidators.BucketNameCharacterisation | setup_aws_infrastructure.py:63-101 | a name is accepted iff it has 3 to 63 lower-case letters, digits and hyphens, does not start or end with a hyphen and has no `--` |
| AwsValidators.IpCheckUnreachable | setup_aws_infrastructure.py:80-98 | a name that reaches the IP-address guard has no dot, so that guard never refuses |
| AwsValidators.RefusedAddress | setup_aws_infrastructure.py:80-84 | `192.168.1.1` is refused by the character guard |
| AwsValidators.RefusedDoubleHyphen | setup_aws_infrastructure.py:91-92 | a name with `--` is refused for consecutive hyphens |
| AwsValidators.RulesFromCharacters | setup_aws_infrastructure.py:63-101 | 3 to 63 lower-case letters, digits and hyphens, alphanumeric at both ends with no doubled hyphen, are accepted |
| AwsValidators.AcceptedValidBucketNames | test_infrastructure_production_readiness.py:166-171 | every name of the tests' valid list is accepted: `my-valid-bucket-name`, `bucket123`, `my-bucket-name-123` and 63 letters |
| AwsValidators.ValidateTablePrefixAsWritten | setup_aws_infrastructure.py:103-124 | what the source accepts has 1 to 255 characters and matches its pattern under `re.match` |
| AwsValidators.ValidateTablePrefix | setup_aws_infrastructure.py:103-124 | a prefix is accepted iff it has 1 to 255 letters, digits, `_`, `.` and `-`; the reserved-word warning is raised iff the lower-cased prefix is reserved |
| AwsValidators.PrefixChecksAgree | setup_aws_infrastructure.py:113-116 | the source's and the corrected check agree on every prefix not ending in a newline |
| AwsValidators.TrailingNewlinePrefix | setup_aws_infrastructure.py:113-116 | `users` plus a newline passes the source's check and is refused by the corrected one |
| AwsValidators.ReservedWordsAccepted | setup_aws_infrastructure.py:118-122 | `aws` and `AWS` are accepted with a warning; `custom_prefix` without one |
| Filenames.DigitsRoundTrip | main.py:384 | a zero-padded field reads back as its number |
| Filenames.FormatStampInjective | main.py:384 | two different clock readings never print the same `%Y%m%d_%H%M%S` text |
| Filenames.DomainPart | main.py:375 | the host part has no dot left |
| Filenames.PathPart | main.py:376-381 | the path part never starts with `_` |
| Filenames.PathPartHasNoSeparator | main.py:376-378 | the path part has no `/` or `\` |
| Filenames.SafeFilenameShape | main.py:365-386 | the name is host part, `_`, path part, `_`, timestamp; a host without separators gives a name without them |
| Filenames.DistinctMomentsDistinctNames | main.py:384-386 | the same page saved at two different moments gets two different names |
| Filenames.HomePath | main.py:379-381 | an empty or root path gives `home`; `//` gives an empty path part |
| Tracker.SiteKey | site_tracker.py:47-50 | a key exists iff the URL's netloc can be parsed |
| Tracker.SiteKeyLowerCase | site_tracker.py:47-50 | a key has no upper-case letter |
| Tracker.SharedSiteKey | site_tracker.py:47-50 | `https://WWW.Example.com/x` and `http://example.com` share the key `example.com` |
| Tracker.StoredTitle | site_tracker.py:83 | a missing title is stored as 'Unknown'; a stored `None` only comes from a `None` title |
| Tracker.SiteTracker.constructor | site_tracker.py:28-39 | a new tracker has no sites, both counters at 0, version '1.0', created and updated now |
| Tracker.SiteTracker.AddScrapedSite | site_tracker.py:52-105 | exactly one scrape is appended to the site's entry (created empty only if absent), `total_sites_scraped` grows by 1, other sites and `first_scraped` are kept, the site then counts as scraped, and the counters still match the lists |
| Tracker.SiteTracker.AddOptimizedSite | site_tracker.py:107-150 | exactly one optimisation is appended, `total_optimizations` grows by 1, every scrapes list and `is_site_scraped` answer is unchanged, and the counters still match the lists |
| Tracker.ScrapePreserves | site_tracker.py:66-98 | appending a scrape and adding 1 to the scrape counter keeps the counters equal to the list-length sums |
| Tracker.OptimizationPreserves | site_tracker.py:120-143 | appending an optimisation and adding 1 to its counter keeps the counters equal to the list-length sums |
| Tracker.SiteTracker.IsSiteScraped | site_tracker.py:152-163 | the answer is undefined only for an unparsable URL, and a true answer means the key is in the table |
| Tracker.SiteTracker.GetSiteStats | site_tracker.py:187-225 | total scrapes and optimisations are the list-length sums and equal the metadata counters; at most 10 recent activities |
| Tracker.ActivityCount | site_tracker.py:194-214 | the activity list holds one entry per scrape and per optimisation |
| Tracker.RecentAreNewest | site_tracker.py:216-223 | recent activities are sorted newest first, taken from all activities, and none left out is newer than the last kept |
| Tracker.SiteTracker.SearchSites | site_tracker.py:227-252 | the result is the sites whose key or some scrape title contains the lower-cased query, each at most once |
| Tracker.SearchResults | site_tracker.py:237-252 | every result is a tracked site that matches the query |
| Tracker.SearchComplete | site_tracker.py:237-252 | every tracked site that matches the query is among the results |
| Tracker.SearchAgrees | site_tracker.py:237-252 | where no stored title is `None`, the source's search and the corrected one agree |
| Tracker.NullTitleSearchRaises | site_tracker.py:247-250 | a stored `None` title makes the source's search raise where the corrected one returns nothing |
| Tracker.SiteTracker.GetSitesByUserProfile | site_tracker.py:292-310 | the result is the sites with an optimisation for the profile, each at most once |
| Tracker.ProfileResults | site_tracker.py:302-310 | every result is a tracked site optimised for the profile |
| Tracker.ProfileComplete | site_tracker.py:302-310 | every tracked site with an optimisation for the profile is among the results |
| Tracker.SiteTracker.GetSitesByUserEmail | site_tracker.py:254-290 | the result is the user's sites sorted newest first, with the same members as the specified list |
| Tracker.UserSitesAreLatest | site_tracker.py:264-284 | each entry belongs to the user and is built from that user's latest scrape of one tracked site |
| Tracker.UserSitesOnePerSite | site_tracker.py:264-284 | no site appears twice among a user's entries |
| Tracker.UserSitesComplete | site_tracker.py:264-286 | every tracked site with a scrape by the user yields an entry, built from the user's latest scrape of it |
| Tracker.SearchResultsDistinct | site_tracker.py:237-252 | search results name each site at most once |
| Tracker.ProfileResultsDistinct | site_tracker.py:302-310 | profile results name each site at most once |

## Left out

- Fetching (`simple_web_scraper`'s HTTP request, SSL and timeout handling),
  BeautifulSoup parsing and `json.loads`. The page arrives as an element
  sequence, and a JSON-LD block's parse is a function parameter. Only the
  scraper's exception fallback record is modelled.
- `urlparse`/`urljoin` (section 5.2 and section 3.2 of RFC 3986). They are
  function parameters, and only netloc equality and substring tests on
  their results are modelled.
- Character classes are ASCII: `\w`, `\s`, `isalnum`, `isupper` and
  `lower()` are read over ASCII letters and digits. Python's Unicode
  classes are wider.
- Floats: `content_size_mb` is left out. The ratios and percentages of
  the analysis are integer fractions compared by cross-multiplication.
- Clocks: every `datetime.now()` reading is a parameter, one per call.
  Tracker timestamps are numbers compared as numbers, not ISO strings.
- Filenames.FormatStamp: covers years 1 to 9999 printed in four digits,
  as `%Y` prints them on the usual platforms.
- Report rendering and output are out of scope:
  - `save_content_to_files`, `print_detailed_analysis`,
    `print_analytics_report`, `export_summary`;
  - S3 uploads.
- Tracker persistence: `_load_tracker`/`_save_tracker` JSON file I/O.
  - The save's outcome is a parameter that becomes the return value,
    after the in-memory change, as in the source.
  - A tracker file loaded from disk is not modelled: the class starts from
    `_create_new_tracker`, so its counters always match its lists.
- `get_site_info` and `get_all_sites` are plain dictionary reads and are
  not separate members. The `sites` field is what they return.
- Tracker.SiteTracker.IsSiteScraped: the contract gives only the direction
  "true means tracked". The full condition (tracked with a non-empty
  scrapes list) is the body itself. `AddScrapedSite` and
  `AddOptimizedSite` state how it changes.
- ContentAnalysis.TotalHeadings: sums the lists under the keys h1..h6
  only, while main.py:690 sums every value of the headings map. The two
  agree on every record the extractor or its fallback builds, since those
  have exactly the keys h1..h6 or none (SeoExtraction.HeadingKeysExact).
  A record with other keys does not arise from the model's scraper.
- MigrationRecs.GenerateRecommendationsFromSeo: an absent `word_count`
  (`wordCount` None) is the `.get` default 0. A NULL column value is not
  modelled. There `word_count < 300` (migrate_to_gambix_strata.py:314)
  raises `TypeError` in Python 3. The handler at lines 269-270 then
  catches it and ends the whole migration loop. The database row type
  and that loop are outside the model, so a NULL has nowhere to go.
- The rest of `server.py` (Flask routes, authentication, rate limiting,
  the database and S3 calls), the migration's database plumbing, and the
  AWS resource creation in the setup script.

## Findings

| source | as written | input that shows it | evidently intended | confidence | as-written member | corrected member |
|---|---|---|---|---|---|---|
| main.py:654 | `len(scraped_data.get('title', ''))` on a title stored as `None` (`soup.title.string` of an empty or nested `<title>`, main.py:252) raises `TypeError` | a page whose `<title>` has no single string child | a missing title has length 0 and is not optimal | not executed | ContentAnalysis.OverviewAsWritten (ContentAnalysis.TitleWithoutTextRaises) | ContentAnalysis.OverviewOf |
| server.py:903-905 | `re.match` with `$` accepts one trailing newline in the domain | `websiteUrl` = `example.com` followed by a newline | the whole text matches the hostname label syntax | not executed | ServerChecks.ProjectDomainAsWritten (ServerChecks.TrailingNewlineDomain) | ServerChecks.ProjectDomain |
| setup_aws_infrastructure.py:113-116 | `re.match` with `$` accepts one trailing newline in the table prefix | prefix `users` followed by a newline | only letters, digits, `_`, `.` and `-` | not executed | AwsValidators.ValidateTablePrefixAsWritten (AwsValidators.TrailingNewlinePrefix) | AwsValidators.ValidateTablePrefix |
| site_tracker.py:247-250 | `scrape.get('title', '').lower()` on a stored `None` title raises `AttributeError` | a tracked site whose one scrape has title `None` and a query absent from its key | a `None` title matches nothing | not executed | Tracker.SearchAsWritten (Tracker.NullTitleSearchRaises) | Tracker.SearchResults |
