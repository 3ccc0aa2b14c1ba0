# SEO core of the sajjadakbari blog, modelled in Dafny

The repository is a Next.js blog and CMS. This project models the deterministic logic of its SEO route handlers and its listing routes:

- the on-page analyser (title, description and keyword figures, heading and image counts, readability, overall score, suggestion rules);
- the optimisation engine (term weights, top keywords, keyword density, Flesch-style readability, prioritised advice, generated metadata);
- the page auditor (content, technical and links audits, the placeholder broken-link sampler);
- the monitoring report (per-entity and per-message folds, the severity counts, the missing-alt-text health check);
- the SEO settings route (entity dispatch, default metadata, the `sitemap.xml` document, which follows the sitemaps.org protocol 0.9);
- the `robots.txt` route (built as RFC 9309 describes, section 2.2.2 for `Disallow` lines and section 2.2.4 for the `Sitemap` record);
- the structured-data route (the JSON-LD merge of sections 3.1 and 3.5 of W3C JSON-LD 1.1, the default schema);
- the zod input schemas;
- the posts and categories collection routes (authorisation, `parseInt` of the query string, `where` and `orderBy`, skip and page counts, excerpts).

Each route is modelled as a function or method over already-extracted data. The database, the HTML parser, the HTTP client, the TF-IDF extractor, the stemmer and the URL parser are parameters.

Modules:

- **Shared helpers:**
  - `Wrappers`: Option, and JavaScript truthiness.
  - `Numeric`: `Math.round`, and `toFixed(2)` on exact reals.
  - `Seqs`: filter, take, slice.
  - `Text`: the JavaScript string operations the routes use.
  - `Json`: JSON values.
  - `Auth`: users, replies, status codes.
  - `Entities`: POST, PAGE, CATEGORY.
  - `Markdown`: the heading and image regular expressions.
- **One module per route or source file:**
  - `Analyze`, `Optimize`, `Audit`, `Monitor`, `Seo`, `Robots`, `Schema`;
  - `Validation`;
  - `Listing`, shared by `Posts` and `Categories`.

Methods stand where the source works step by step:

- the `indexOf` loop of the keyword positions;
- the suggestion lists pushed rule by rule;
- the two `forEach` loops that fill the weight record;
- the `+=` loop of `robots.txt`;
- the conditional construction of the posts `where` and `orderBy` objects.

Each is proved equal to a specification function, and the properties are proved about those functions. The single global settings row that `robots.txt` POST writes is a class whose method updates its map of rows.

## Model

| member | source | states |
|---|---|---|
| Analyze.AnalyzeTitle | app/api/seo/analyze/route.ts:72-79 | length is the title's; ideal iff 40 to 60 characters; keyword flag iff a non-empty keyword string occurs in the lower-cased title; score is min(100, floor(1.5 x length)), within 0..100 |
| Analyze.Description | app/api/seo/analyze/route.ts:82 | the meta description when it is truthy, otherwise the first min(160, length) characters of the content |
| Analyze.DescriptionAtMost160 | app/api/seo/analyze/route.ts:82 | for an accepted request the scored description has 1 to 160 characters, and at least 100 when it is taken from the content |
| Analyze.AnalyzeDescription | app/api/seo/analyze/route.ts:83-90 | ideal iff 120 to 160 characters; score is min(100, floor(0.625 x length)); keyword flag as for the title |
| Analyze.Positions | app/api/seo/analyze/route.ts:161-164 | one entry per position, whose context is the original content from max(0, p-20) to p+len+20 |
| Analyze.KeywordPositions | app/api/seo/analyze/route.ts:156-169 | at most 5 entries, each an occurrence of the keyword in the lower-cased content, positions strictly increasing |
| Analyze.KeywordPositionsComplete | app/api/seo/analyze/route.ts:156-169 | no occurrence before the last reported one is skipped, and all occurrences are reported when fewer than five are |
| Analyze.GetKeywordPositions | app/api/seo/analyze/route.ts:156-169 | the indexOf loop (from 0, then from one past each hit, then the first five) yields exactly KeywordPositions |
| Analyze.KeywordFigures | app/api/seo/analyze/route.ts:104-113 | density x words = count x 100; the shown density is the two-decimal rounding; ideal iff 0.5 to 2.5 on the unrounded density; score is min(100, floor(40 x density)) |
| Analyze.WordCount | app/api/seo/analyze/route.ts:93 | the whitespace split has at least one piece, so the density division is defined |
| Analyze.AnalyzeKeyword | app/api/seo/analyze/route.ts:100-114 | null iff the keyword string is absent or empty; otherwise the split count and the positions of the lower-cased keyword |
| Analyze.CountZeroIffNoPositions | app/api/seo/analyze/route.ts:104-111 | the non-overlapping count is zero exactly when the overlapping position scan finds nothing |
| Analyze.Readability | app/api/seo/analyze/route.ts:171-180 | within 0..100, and 100 whenever words per sentence is at most 10 |
| Analyze.OverallScore | app/api/seo/analyze/route.ts:117-124 | the rounded weighted sum lies in 0..120 and is not clamped to 100 |
| Analyze.OverallScoreReaches120 | app/api/seo/analyze/route.ts:117-124 | full sub-scores, 1000 words, an H1 and an image give 120 |
| Analyze.OverallScoreWithoutBonuses | app/api/seo/analyze/route.ts:117-124 | without H1, image or keyword the score is at most 70 |
| Analyze.DensityAdvice | app/api/seo/analyze/route.ts:223-227 | the density advice is too low or too high, chosen on the two-decimal density |
| Analyze.Rule | app/api/seo/analyze/route.ts:186-233 | each of the eight rules gives at most one suggestion, of its own rank |
| Analyze.Suggestions | app/api/seo/analyze/route.ts:235 | the list is never empty |
| Analyze.FiredShape | app/api/seo/analyze/route.ts:186-233 | rules k to 7 give at most 8-k suggestions, in strictly increasing rule order, each only through its own rule |
| Analyze.SuggestionsOrdered | app/api/seo/analyze/route.ts:182-236 | at most 8 suggestions, in rule order; the closing message appears only when it is alone |
| Analyze.InSuggestionsIff | app/api/seo/analyze/route.ts:182-236 | a rule suggestion is listed exactly when its own rule fires |
| Analyze.TextSuggestionConditions | app/api/seo/analyze/route.ts:186-205 | title short or long, keyword not in title, description short or long: each iff the route's condition |
| Analyze.BodySuggestionConditions | app/api/seo/analyze/route.ts:208-218 | short content iff fewer than 300 words; missing H1 iff no H1; missing image iff no image |
| Analyze.KeywordSuggestionConditions | app/api/seo/analyze/route.ts:221-233 | density low or high, and keyword not in content, each iff its condition on the analysed keyword |
| Analyze.ContentIsGoodIff | app/api/seo/analyze/route.ts:235 | the positive message appears iff no rule fired |
| Analyze.DensityJustBelowHalfCalledHigh | app/api/seo/analyze/route.ts:110-113 | one hit in 201 words is not ideal (density below 0.5) yet is advised as too high, because 0.4975 shows as 0.50 |
| Analyze.TitleSuggestions | app/api/seo/analyze/route.ts:186-196 | pushes the title rules in order |
| Analyze.AppendDescriptionSuggestions | app/api/seo/analyze/route.ts:199-205 | appends the description rule |
| Analyze.AppendContentSuggestions | app/api/seo/analyze/route.ts:208-218 | appends the length, H1 and image rules in order |
| Analyze.AppendKeywordSuggestions | app/api/seo/analyze/route.ts:221-233 | appends the density and position rules |
| Analyze.GenerateSuggestions | app/api/seo/analyze/route.ts:182-236 | the list pushed section by section equals Suggestions |
| Analyze.AnalyzeContent | app/api/seo/analyze/route.ts:65-152 | the result's figures are the sub-analyses of the input, the overall score is in 0..120, the suggestions are those of the computed figures |
| Analyze.Post | app/api/seo/analyze/route.ts:15-62 | 401 without a user, 400 for a refused body, otherwise the analysis |
| Markdown.LeadingHashes | app/api/seo/analyze/route.ts:95 | counts exactly the run of `#` at the start of the line |
| Markdown.HeadingMatchEnd | app/api/seo/analyze/route.ts:95 | a match of `^#+\s+.+` under the `m` flag starts at a line start with `#`, has at least three characters and ends at a line end |
| Markdown.MatchWithText | app/api/seo/analyze/route.ts:95 | when a character of the line after the hashes is not white space, the match is the whole line exactly when white space follows the hashes |
| Markdown.MatchAtLine | app/api/seo/analyze/route.ts:95 | at the start of a line that is not only hashes and white space and that a terminator ends, the match is the line iff it is a heading line |
| Markdown.MatchAtLastLine | app/api/seo/analyze/route.ts:95 | at the start of the last line, the match is the rest of the text iff the line is a heading line |
| Markdown.AllSpacesToEnd | app/api/seo/analyze/route.ts:95 | hashes followed by white space to the end of the text match iff the white space has at least two characters, as `\s+` gives one back to `.+` |
| Markdown.MatchesAreHeadingLines | app/api/seo/analyze/route.ts:95 | when no line before the last is hashes and white space only, the global matches are exactly the heading lines |
| Markdown.HasH1Iff | app/api/seo/analyze/route.ts:95-96 | when no line before the last is hashes and white space only, hasH1 iff some line of at least three characters starts with `# ` |
| Markdown.HeadingSpanningBreak | app/api/seo/analyze/route.ts:95-96 | `# \nText` is one match spanning the line break, and it gives an H1 |
| Markdown.HeadingAfterBareHash | app/api/seo/analyze/route.ts:95-96 | `#\n# Title` is one match starting with the lone `#`, so it gives no H1 |
| Markdown.SecondLevelIsNotH1 | app/api/seo/analyze/route.ts:95-96 | `## x` is a heading match but gives no H1, and `# x` gives one |
| Markdown.ImageMatchEnd | app/api/seo/analyze/route.ts:97 | a match found at i starts with `![`, has at least 5 characters, ends with `)` and holds no line terminator |
| Markdown.ImageMatchShape | app/api/seo/analyze/route.ts:97 | every match of the global image expression is image-shaped and lies on one line |
| Markdown.EmptyAltImage | app/api/seo/monitor/route.ts:192 | `![](a)` is matched as one image |
| Optimize.Put | app/api/seo/optimize/route.ts:99 | assignment into the record adds no key other than the one assigned |
| Optimize.FindSome | app/api/seo/optimize/route.ts:99 | a lookup succeeds iff the record holds an entry for the key |
| Optimize.PutFind | app/api/seo/optimize/route.ts:99 | after assignment the key maps to the new value and every other key is unchanged |
| Optimize.PutDistinct | app/api/seo/optimize/route.ts:99 | assignment keeps one entry per key |
| Optimize.UserKeywordList | app/api/seo/optimize/route.ts:104 | no keyword string gives the empty list |
| Optimize.CollectTermWeights | app/api/seo/optimize/route.ts:96-101 | the term loop yields TermWeights |
| Optimize.BoostUserKeywords | app/api/seo/optimize/route.ts:105-107 | the keyword loop yields Boost |
| Optimize.CollectKeywordWeights | app/api/seo/optimize/route.ts:96-107 | both loops yield KeywordWeights |
| Optimize.LastKeptIsKept | app/api/seo/optimize/route.ts:98 | a term with a TF-IDF weight is longer than 3 and equals its stem |
| Optimize.TermWeightsLookup | app/api/seo/optimize/route.ts:97-101 | after the term loop each key has one entry, holding the weight of its last kept list item |
| Optimize.BoostDistinct | app/api/seo/optimize/route.ts:105-107 | the keyword loop keeps one entry per key |
| Optimize.BoostLookup | app/api/seo/optimize/route.ts:106 | n mentions of a keyword add 2n to its weight, starting from 0 when absent |
| Optimize.KeywordWeightsLookup | app/api/seo/optimize/route.ts:96-107 | the final weight of a key is its last kept TF-IDF weight (or 0) plus 2 per user mention |
| Optimize.ListedKeywordWeighted | app/api/seo/optimize/route.ts:105-107 | a mentioned keyword always has a weight after boosting |
| Optimize.UserKeywordsBypassFilter | app/api/seo/optimize/route.ts:104-107 | every user keyword has a weight, whether or not the TF-IDF filter kept it |
| Optimize.OtherTermsKept | app/api/seo/optimize/route.ts:98 | a weighted term that is not a user keyword passed the length and stem filter |
| Optimize.InsertByWeight | app/api/seo/optimize/route.ts:111 | insertion adds exactly the one entry |
| Optimize.InsertSorted | app/api/seo/optimize/route.ts:111 | insertion keeps the record heaviest first |
| Optimize.SortByWeight | app/api/seo/optimize/route.ts:110-111 | a permutation of the record, ordered by non-increasing weight |
| Optimize.TopKeywords | app/api/seo/optimize/route.ts:110-113 | min(10, entries) terms |
| Optimize.TopKeywordsHeaviest | app/api/seo/optimize/route.ts:110-113 | the top terms are the first entries of the sorted record, in non-increasing weight |
| Optimize.TopKeywordsAll | app/api/seo/optimize/route.ts:110-113 | a record of at most ten entries has all its terms among the top terms |
| Optimize.Percent | app/api/seo/optimize/route.ts:232 | a share of at most the whole is within 0..100 |
| Optimize.PercentMonotone | app/api/seo/optimize/route.ts:232 | more hits among the same number of words never give a lower percentage |
| Optimize.Hits | app/api/seo/optimize/route.ts:231 | at most the number of words |
| Optimize.KeywordDensity | app/api/seo/optimize/route.ts:227-233 | 0 without a keyword, otherwise within 0..100 |
| Optimize.Syllables | app/api/seo/optimize/route.ts:214-215 | at least one syllable per word |
| Optimize.FleschReadability | app/api/seo/optimize/route.ts:211-224 | an integer within 0..100, and 0 when no sentence is more than white space |
| Optimize.LongSentencesScoreZero | app/api/seo/optimize/route.ts:211-224 | 121 or more words per sentence score 0 |
| Optimize.AnalyzeKeywords | app/api/seo/optimize/route.ts:87-121 | at most 10 top keywords; density within 0..100 and 0 without a top keyword; word count at least 1; content length is the text's |
| Optimize.AnalyzeKeywordsLoop | app/api/seo/optimize/route.ts:87-121 | the loop form equals AnalyzeKeywords |
| Optimize.Reverse | app/api/seo/optimize/route.ts:185-187 | the i-th element is the (n-1-i)-th of the input |
| Optimize.FilterPartition | app/api/seo/optimize/route.ts:185-187 | the high and medium records together are the whole list, as a multiset |
| Optimize.ReverseMultiset | app/api/seo/optimize/route.ts:185-187 | reversing changes no multiset |
| Optimize.ByPriorityPermutation | app/api/seo/optimize/route.ts:185-187 | the sorted advice is a permutation of the pushed advice |
| Optimize.ByPriorityOrdered | app/api/seo/optimize/route.ts:185-187 | no medium record precedes a high one |
| Optimize.ByPriorityFilters | app/api/seo/optimize/route.ts:185-187 | medium records keep their order and high records come reversed |
| Optimize.AdviceListShape | app/api/seo/optimize/route.ts:134-183 | at most 5 records; metadata records only with current SEO data |
| Optimize.AdviceConditions | app/api/seo/optimize/route.ts:134-183 | each record is pushed iff its rule's condition holds: title under 40, under 800 words, density under 0.5, missing meta title or description |
| Optimize.PushPageAdvice | app/api/seo/optimize/route.ts:134-161 | pushes the title, content and keyword records in order |
| Optimize.PushMetadataAdvice | app/api/seo/optimize/route.ts:164-183 | appends the two metadata records |
| Optimize.GenerateOptimizationSuggestions | app/api/seo/optimize/route.ts:124-188 | the pushed list, sorted, equals ByPriority of AdviceList |
| Optimize.OptimizedMetadata | app/api/seo/optimize/route.ts:191-208 | a truthy current title or description is kept, otherwise the templates; focus keyword is the first top term; secondary keywords are the top terms at 1 and 2 |
| Optimize.GeneratedMetadataShape | app/api/seo/optimize/route.ts:201-204 | for an accepted request a generated description has 103 to 143 characters and a generated title ends with the brand |
| Optimize.Post | app/api/seo/optimize/route.ts:20-84 | 401 without a user, 400 for a refused body, otherwise the keyword analysis, the advice and the metadata |
| Audit.RunContentAudit | app/api/seo/audit/route.ts:97-188 | the record is ContentAuditOf the page: the pushed issues equal ContentIssues; the counters are the page facts; images without alt never exceed images |
| Audit.ContentIssuesBound | app/api/seo/audit/route.ts:109-175 | at most 5 issues, all of type content |
| Audit.ContentIssuesOrdered | app/api/seo/audit/route.ts:109-175 | issues come in the order title, description, h1, images, length |
| Audit.RanksIncrease | app/api/seo/audit/route.ts:109-175 | the five checks' issues concatenate in increasing check rank |
| Audit.TitleIssueConditions | app/api/seo/audit/route.ts:113-127 | missing title iff empty; long title iff non-empty and over 60; never both |
| Audit.HeadingConditions | app/api/seo/audit/route.ts:140-154 | missing H1 iff none; several H1 iff more than one |
| Audit.DescriptionConditions | app/api/seo/audit/route.ts:130-137 | exactly one missing-description issue iff the meta description is empty, otherwise none |
| Audit.AltIssueConditions | app/api/seo/audit/route.ts:157-175 | at most one alt issue, present iff some image lacks alt, quoting how many; short content iff under 300 words |
| Audit.RunTechnicalAudit | app/api/seo/audit/route.ts:191-249 | the record is TechnicalAuditOf the facts: the pushed issues equal TechnicalIssues; the flags are the truthiness of viewport and canonical and the absence of noindex |
| Audit.TechnicalIssueConditions | app/api/seo/audit/route.ts:196-236 | at most 4 technical issues; slow iff over 3000 ms; no viewport, no canonical, noindex each iff its attribute says so |
| Audit.EveryTenth | app/api/seo/audit/route.ts:304 | ceil(n/10) items |
| Audit.FindBrokenLinks | app/api/seo/audit/route.ts:300-306 | min(3, ceil(n/10)) links, the i-th being link 10i |
| Audit.BrokenLinksEmptyIff | app/api/seo/audit/route.ts:300-306 | the sample is empty iff there are no internal links |
| Audit.RunLinksAudit | app/api/seo/audit/route.ts:252-297 | the record is LinksAuditOf the links: counts of valid, internal, external, nofollow and sampled links; one high issue iff the sample is non-empty |
| Audit.LinkCounts | app/api/seo/audit/route.ts:262-275 | internal + external = total; nofollow at most total; no valid link is a fragment or `javascript:` |
| Audit.BrokenLinkIssueIff | app/api/seo/audit/route.ts:278-287 | the broken-link count is positive iff some internal link exists, and at most 3 |
| Audit.Post | app/api/seo/audit/route.ts:17-94 | 403 for a non-admin, 400 for a bad URL; a disabled sub-audit gives null, an enabled one its whole record: ContentAuditOf, TechnicalAuditOf or LinksAuditOf |
| Monitor.LogRecord | app/api/seo/monitor/route.ts:117-121 | the stored issue copies the input and has details as given or an empty object |
| Monitor.CountByCounts | app/api/seo/monitor/route.ts:73-82 | the fold's keys are the values of the list and each count is its multiplicity |
| Monitor.SumValuesRemove | app/api/seo/monitor/route.ts:73-76 | the sum of counts does not depend on the order keys are taken |
| Monitor.CountBySum | app/api/seo/monitor/route.ts:73-82 | the counts of a fold add up to the length of the list |
| Monitor.GroupedCount | app/api/seo/monitor/route.ts:71-72 | the count of the first row of the severity, or 0 when none has it |
| Monitor.GroupedCountOfGrouping | app/api/seo/monitor/route.ts:58-72 | over a group-by result the looked-up count is the number of issues of that severity |
| Monitor.EntityKeys | app/api/seo/monitor/route.ts:74 | one entity name per issue, in order |
| Monitor.MessageKeys | app/api/seo/monitor/route.ts:79 | one message per issue, in order |
| Monitor.Severities | app/api/seo/monitor/route.ts:59 | one severity per issue, in order |
| Monitor.AnalyzeFolds | app/api/seo/monitor/route.ts:69-83 | total is the number of issues; byEntity and commonIssues each sum to total and count multiplicities |
| Monitor.CommonIssueKeys | app/api/seo/monitor/route.ts:77-82 | a key of commonIssues is exactly the message of some returned issue |
| Monitor.AnalyzeSeverities | app/api/seo/monitor/route.ts:71-72 | errors and warnings are the numbers of ERROR and WARNING issues grouped |
| Monitor.ParseReportType | app/api/seo/monitor/route.ts:10 | accepts exactly the names ALL, ERRORS, WARNINGS |
| Monitor.SelectIssues | app/api/seo/monitor/route.ts:47-55 | at most 100 matching issues, and every matching issue when fewer than 100 are taken |
| Monitor.SeverityFilterSelectsNothing | app/api/seo/monitor/route.ts:50 | as written, an ERRORS or WARNINGS report selects no issue |
| Monitor.IntendedSeverityFilter | app/api/seo/monitor/route.ts:50 | ALL gives no filter, ERRORS filters on ERROR and WARNINGS on WARNING |
| Monitor.ErrorReportSelectsErrors | app/api/seo/monitor/route.ts:47-55 | with the intended filter, an error report holds only error issues and all of them when fewer than 100 |
| Monitor.Respond | app/api/seo/monitor/route.ts:14-106 | 403 for a non-admin, 400 for a refused query; total equals the at most 100 returned issues, selected with the given severity filter |
| Monitor.Get | app/api/seo/monitor/route.ts:14-106 | as written: an ALL report lists the recent issues of the entity type; an ERRORS or WARNINGS report lists none |
| Monitor.GetIntended | app/api/seo/monitor/route.ts:14-106 | with the intended filter: the returned issues are exactly those of the requested severity and entity type, when fewer than 100 |
| Monitor.LacksAltTextIff | app/api/seo/monitor/route.ts:191-194 | a post is flagged iff one of its image matches contains `![](`; the other disjunct never holds |
| Monitor.EmptyAltFlagged | app/api/seo/monitor/route.ts:191-194 | `![](a)` is flagged |
| Monitor.PostsWithoutAltTextAll | app/api/seo/monitor/route.ts:184-194 | the `![` pre-selection drops no flagged post |
| Monitor.ContainsWithin | app/api/seo/monitor/route.ts:186 | content with an image match contains `![` |
| Monitor.MatchPosition | app/api/seo/monitor/route.ts:192 | every image match is a piece of the content at some position |
| Monitor.AltTextRecords | app/api/seo/monitor/route.ts:196-203 | at most 20 records, one WARNING per flagged post in order, with empty details |
| Monitor.RunHealthCheck | app/api/seo/monitor/route.ts:207-216 | issuesFound is the sum of the three counts; at most 20 alt-text records |
| Seo.Dispatch | app/api/seo/route.ts:53-58 | POST to postSEO, PAGE to pageSEO, CATEGORY to categorySEO, each iff |
| Seo.KeyFields | app/api/seo/route.ts:62-66 | key fields postId, pageId, categoryId; the table is the lower-cased type plus SEO |
| Seo.DispatchInjective | app/api/seo/route.ts:53-66 | different types select different tables and key fields |
| Seo.Post | app/api/seo/route.ts:25-86 | 403 for a non-admin, 400 for a refused body, otherwise an upsert keyed by the type's key field and id |
| Seo.PostBounds | app/api/seo/route.ts:25-68 | an upserted title and description respect the request bounds |
| Seo.Get | app/api/seo/route.ts:88-153 | 400 when type or id is missing or the type unknown; otherwise the stored row or the defaults |
| Seo.DefaultView | app/api/seo/route.ts:122-140 | noIndex false; for a found post its title and first 160 characters; otherwise empty strings |
| Seo.EntriesOf | app/api/seo/route.ts:203-226 | one entry per record, with its slug and date |
| Seo.Entries | app/api/seo/route.ts:202-227 | the posts' entries, then the pages', then the categories' |
| Seo.Blocks | app/api/seo/route.ts:202-227 | one url block per entry |
| Seo.BlocksAppend | app/api/seo/route.ts:202-227 | rendering distributes over concatenation |
| Seo.EntriesSections | app/api/seo/route.ts:202-227 | the joined blocks are the posts' section, the pages' and the categories' |
| Seo.SitemapSections | app/api/seo/route.ts:200-229 | the document is head, the three sections in order, tail |
| Seo.Put | app/api/seo/route.ts:156-165 | 403 iff not an admin; otherwise the sitemap of the listed records |
| Seo.EntryFields | app/api/seo/route.ts:203-226 | locations under /posts/, /pages/, /categories/; weekly 0.8, monthly 0.6, weekly 0.7; protocol values |
| Seo.ValidSlugNeedsNoEscape | lib/validationSchemas.ts:5-10 | an accepted slug needs no XML entity inside loc |
| Robots.BaseText | app/api/seo/robots/route.ts:26-32 | the stored text when truthy, otherwise the default |
| Robots.DisallowLineForm | app/api/seo/robots/route.ts:38 | a line is `Disallow: `, the path, a line end; a null path prints null |
| Robots.BuildRobots | app/api/seo/robots/route.ts:25-44 | the text built with += equals RobotsText |
| Robots.DisallowLinesAppend | app/api/seo/robots/route.ts:37-39 | the block of lines splits at any route |
| Robots.DisallowLinesEach | app/api/seo/robots/route.ts:37-39 | exactly one line per route, in input order |
| Robots.RobotsTextShape | app/api/seo/robots/route.ts:26-43 | starts with the base text; header and lines iff routes exist; ends with the Sitemap record |
| Robots.RobotsStore.Post | app/api/seo/robots/route.ts:75-100 | 403 for a non-admin, 400 over 5000 characters, both with nothing stored; otherwise row 1 holds exactly the text |
| Robots.PostThenGet | app/api/seo/robots/route.ts:25-100 | after an accepted POST, GET serves the posted text |
| Schema.ParseTarget | app/api/seo/schema/route.ts:9 | accepts exactly POST, PAGE, CATEGORY, CUSTOM |
| Schema.Post | app/api/seo/schema/route.ts:25-119 | 403 for a non-admin, 400 for a refused body; CUSTOM creates a record owned by the caller; other types upsert by their own key field |
| Schema.PostAccepted | app/api/seo/schema/route.ts:11-22 | an accepted write names one of the nine schema.org types; it creates iff CUSTOM |
| Schema.ListLd | app/api/seo/schema/route.ts:161-166 | an array maps to an array of the same length, item by item |
| Schema.Get | app/api/seo/schema/route.ts:129-175 | an entity type renders one object from its row; any other type renders the list of custom records |
| Schema.LdMerge | app/api/seo/schema/route.ts:162-171 | markup keys and values kept; no other keys than context and type; those defaults only where the markup lacks them |
| Schema.ItemLdKeys | app/api/seo/schema/route.ts:162-166 | keys are context, type and the markup's |
| Schema.MissingLd | app/api/seo/schema/route.ts:168-172 | a missing row renders as the bare context |
| Schema.DefaultSchema | app/api/seo/schema/route.ts:194-242 | a default exists iff POST with a found post or PAGE with a found page |
| Schema.DefaultSchemaShape | app/api/seo/schema/route.ts:207-237 | BlogPosting with headline, a description of at most 200 characters and the site's publisher; WebPage with headline and description |
| Entities.ParseEntity | lib/validationSchemas.ts:62 | accepts exactly POST, PAGE, CATEGORY |
| Validation.TwitterPatternIff | lib/validationSchemas.ts:74 | an optional `@` then 1 to 15 word characters |
| Validation.TwitterPatternExamples | lib/validationSchemas.ts:74 | accepts `@sajjad`, `sajjad_1`; refuses `@`, `@@a`, `a-b` |
| Validation.Failures | lib/validationSchemas.ts:5-10 | the failing checks, each once per occurrence in the schema |
| Validation.BoundsAccept | lib/validationSchemas.ts:14-16 | min and max accept iff the length is within both |
| Validation.SlugAcceptIff | lib/validationSchemas.ts:5-10 | accepted iff 2 to 50 characters of `[a-z0-9-]` |
| Validation.FacebookAcceptIff | lib/validationSchemas.ts:75 | accepted iff a non-empty run of ASCII digits |
| Validation.SlugFailureOrder | lib/validationSchemas.ts:5-10 | `A` fails the minimum and then the pattern |
| Validation.SeoMetadataBounds | lib/validationSchemas.ts:13-20 | metaTitle 10 to 100, metaDescription 30 to 160, metaKeywords at most 200 |
| Validation.CategoryPartial | lib/validationSchemas.ts:35 | the partial schema accepts whatever the full one does |
| Validation.CategoryBounds | lib/validationSchemas.ts:23-32 | name 2 to 50; a free slug of 2 to 50 slug characters |
| Validation.PostPartial | lib/validationSchemas.ts:58 | the partial schema accepts whatever the full one does |
| Validation.PostBounds | lib/validationSchemas.ts:38-55 | title 10 to 100, content at least 100, an existing category |
| Validation.PagePartial | lib/validationSchemas.ts:95 | the partial schema accepts whatever the full one does |
| Validation.PageBounds | lib/validationSchemas.ts:81-92 | title 10 to 100, content at least 100 |
| Validation.GlobalSeoBounds | lib/validationSchemas.ts:68-78 | siteName 2 to 50, defaultTitle 10 to 100, defaultDescription 30 to 160, robotsTxt at most 1000, handle and app id formats |
| Validation.AnalysisBounds | lib/validationSchemas.ts:98-102 | content at least 50, title 10 to 100 when given |
| Listing.LeadingDigits | app/api/posts/route.ts:79-80 | the longest run of digits of the radix at the start |
| Listing.ParseIntRoundTrip | app/api/posts/route.ts:79-80 | a decimal printing of n reads back as n |
| Listing.ParseIntNegative | app/api/posts/route.ts:79-80 | with a minus sign it reads back as -n |
| Listing.ParseIntTrailing | app/api/posts/route.ts:79-80 | decimal digits followed by any non-digit text read as the digits' value, except a lone 0 before x or X |
| Listing.ParseIntHex | app/api/posts/route.ts:79-80 | after 0x or 0X the hexadecimal digits are read and what follows them is ignored |
| Listing.LeadingDigitsAppend | app/api/posts/route.ts:79-80 | the run of digits stops at the first character that is not a digit of the radix |
| Listing.ParseIntNaN | app/api/posts/route.ts:79-80 | text without digits, and the empty text, is NaN |
| Listing.IntParam | app/api/posts/route.ts:79-80 | a missing or empty parameter reads the fallback |
| Listing.DefaultPaging | app/api/posts/route.ts:79-80 | the defaults are page 1 and limit 10 |
| Listing.SkipSteps | app/api/posts/route.ts:86 | page 1 skips nothing; consecutive pages are limit rows apart |
| Listing.TotalPages | app/api/posts/route.ts:151 | null iff the limit is 0; for a positive limit the least n with n x limit at least total |
| Listing.LastPage | app/api/posts/route.ts:151 | the last page starts before the total and the next would start at or after it |
| Listing.TotalPagesEdges | app/api/posts/route.ts:151 | no rows give 0 pages; one full page gives 1 |
| Listing.ContainsEmpty | app/api/posts/route.ts:89-98 | every text contains the empty search |
| Posts.Create | app/api/posts/route.ts:7-63 | 401 without a user, 400 for a refused body; the post is authored by the user; an SEO row iff seo is given, keyed by the new post's id |
| Posts.CreateBounds | app/api/posts/route.ts:22-43 | any signed-in user may create a post, which respects the post bounds |
| Posts.BuildWhere | app/api/posts/route.ts:89-98 | search and category fields iff non-empty; the filter selects exactly the rows matching both |
| Posts.BuildOrder | app/api/posts/route.ts:101-106 | newest gives desc, oldest asc, anything else no order |
| Posts.PlanQuery | app/api/posts/route.ts:78-113 | no query iff page or limit is NaN; otherwise skip (page-1) x limit, take limit, the filter and the order |
| Posts.Excerpt | app/api/posts/route.ts:141 | 3 to 153 characters, a prefix of the content then `...`; 153 iff the content has at least 150 |
| Posts.ShortExcerpt | app/api/posts/route.ts:141 | a short post is shown whole |
| Posts.ListReply | app/api/posts/route.ts:136-154 | one summary per row with its excerpt; pagination with ceil(total / limit) |
| Categories.Create | app/api/categories/route.ts:7-47 | 403 for a non-admin, 400 for a refused body; createdBy is the user's id |
| Categories.CreateBounds | app/api/categories/route.ts:22-47 | a created category respects the category bounds |
| Categories.NameFilter | app/api/categories/route.ts:83-85 | no filter iff the search is empty |
| Categories.NameFilterSelects | app/api/categories/route.ts:83-85 | the filter selects all rows, or exactly the names containing the search |
| Categories.PlanQuery | app/api/categories/route.ts:77-99 | no query iff page or limit is NaN; otherwise skip, take and the name filter |
| Categories.DefaultQuery | app/api/categories/route.ts:77-85 | without parameters the first ten categories, unfiltered |
| Categories.Paginate | app/api/categories/route.ts:104-112 | ceil(total / limit) pages, enough for every row |

## Left out

- HTTP, sessions and the database: requests, the current user, Prisma queries and their results are parameters. The 500 error paths, the logger and `Promise.all` concurrency are not modelled.
- The TF-IDF term list and the Porter stemmer are inputs: a term list of weights and a stem function.
- cheerio: the audit reads pre-extracted page facts (title, meta description, h1 and h2 texts, image alts, body text, viewport, canonical and robots attributes, anchors). The analysed text of the optimiser is a parameter.
- `Date.now`, the analysis and audit identifiers, timestamps and `generatedAt`, and the day threshold of the monitor query.
- The health check's meta-title and duplicate-content queries (`$queryRaw` with `SIMILARITY`) come in as lists, and their log records are not modelled.
- The zod URL check and the database checks of the schemas (slug taken, category exists) are parameters.
- String lengths are counted in code points, not UTF-16 code units.
- `toLowerCase` folds ASCII letters only. Prisma's `mode: 'insensitive'` is modelled the same way.
- Floating point is modelled with exact reals; `toFixed(2)` and `Math.round` are modelled on reals.
- Object key order, prototype keys and JSON serialisation are not modelled. JSON-LD objects are maps.
- Schema.Named: `post.author?.name` is `null` for an author without a name and `undefined` without an author; the model leaves the name key out in both cases, while `JSON.stringify` would write `"name": null` for the first.
- Optimize.ByPriority: ECMAScript leaves the result of a sort with an inconsistent comparator to the implementation. The model gives what V8 yields (the high records reversed, then the medium records in order). The proved facts, a permutation with highs first, hold for any result the comparator allows.
- Markdown.HasH1Iff: the line-by-line reading is proved only for texts in which no line before the last is `#`s and white space only. After such a line, `\s+` runs on into the next line and the match spans both (HeadingSpanningBreak, HeadingAfterBareHash); HeadingMatches models that case too.
- Monitor.Get: if the severity column is a database enum, Prisma may refuse `ERRORS` with an error (a 500) rather than return no rows; the Prisma schema is not part of this model, which gives the empty list.
- Listing.TotalPages: a negative limit follows `Math.ceil` of a negative quotient, but what Prisma does with a negative `take` is not modelled.
- Posts.PlanQuery: Prisma's behaviour with a NaN page or limit is not modelled; the model gives no query.
- Schema.Get: an undefined entity id in a `findUnique` where-clause is passed to the lookup as given. Spreading a non-object `schemaMarkup` is not modelled: the column is an object or null.
- Posts.ListReply: the included category, author and SEO relations of each summary are left out.

## Findings

| source | as written | input that shows it | evidently intended | confidence | as-written member | corrected member |
|---|---|---|---|---|---|---|
| app/api/seo/monitor/route.ts:50 | the severity filter passes the report type itself, `ERRORS` or `WARNINGS`, while stored issues have severity `ERROR` or `WARNING` (line 113) | `type=ERRORS` with stored `ERROR` issues: the report lists no issue | `ERRORS` selects `ERROR` issues and `WARNINGS` selects `WARNING` issues | not executed | Monitor.Get | Monitor.GetIntended |
