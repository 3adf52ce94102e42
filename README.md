# Day-zero web-app generator, idea scraper and trend analyser: a Dafny model

This project models the deterministic core of three Python components and proves properties of it.

- **The multi-agent web-app generator** (`gateway_builder.py`). A build asks a chain of LLM agents for a plan, a design, a frontend, an optional backend, PWA files, a QA review and, under "strict" or "audit" governance, a governance verdict. The code parses each agent's file bundle under size and count limits. It validates every relative path, merges the files last-writer-wins, checks the output limits and ends in `COMPLETE` or `FAILED`.
- **The idea scraper** (`web_scraper.py`). It rates ideas as beginner, intermediate or advanced by keyword and extracts technology keywords. It collects blog and Stack Overflow links up to a limit and builds a report: URL de-duplication, difficulty buckets, source counts and top-10 tag and technology tables.
- **The trend analyser** (`enhanced_gateway_builder.py`). It computes technology frequencies, the difficulty distribution, three fixed emerging patterns, a recommendation list and a first-match tech-stack lookup. It builds numbered project suggestions from a scrape cache that is refreshed at most once an hour.

The repository, Apkifyit, is named for turning apps into APKs. These three files hold no APK build or signing step: they generate web-app files, scrape app ideas and analyse trends. The model covers what the files do.

Everything outside the code's own logic is an input:

- An agent call is an `Invocation`: it either returns the agent's text, what `json.loads` made of it and the `json.dumps` text of its "package_json", or it raises with a message.
- A fetched page is given by a function from URL to `Option<Page>`. The links a page yields are given by a function from page to links.
- The current time is an integer parameter. A refresh's combined scrape is an `Option`, with `None` when scraping raised.

Python values are modelled as follows:

- Dictionaries are insertion-ordered association lists with distinct keys (module `Dicts`), because the file writer and the frequency tables depend on insertion order.
- Parsed JSON is a small datatype (module `Json`).
- String helpers follow Python's semantics on ASCII (module `PyText`).
- The frequency tables share module `Counting`, which provides the tally, a stable descending sort and the top-n cut.

Files:

| file | contents |
|---|---|
| `gateway_builder.dfy` | module `GatewayBuilder`: classes `BuildContext` and `DayZeroBuilderV2` |
| `web_scraper.dfy` | module `WebScraper` |
| `enhanced_gateway_builder.dfy` | module `EnhancedGatewayBuilder`, including class `EnhancedDayZeroBuilder` |
| `counting.dfy` | module `Counting` |
| `pytext.dfy` | module `PyText` |
| `dicts.dfy` | module `Dicts` |
| `json.dfy` | module `Json` |
| `seqs.dfy` | module `Seqs` |
| `wrappers.dfy` | module `Wrappers` |

## Model

| member | source | states |
|---|---|---|
| GatewayBuilder.DropTrivial | gateway_builder.py:564 | the kept path parts are exactly the parts that are neither "" nor "." |
| GatewayBuilder.ValidateRelpathCases | gateway_builder.py:553-567 | `_validate_relpath` returns exactly one of: "empty path" iff the path is empty; "null byte" iff it is non-empty and has a NUL; "absolute path not allowed" iff neither of those applies and it starts with "/" or a drive prefix `X:\` / `X:/`; "path traversal '..' not allowed" iff none of those applies and, after "\\" becomes "/", some "/"-separated piece is ".."; None iff no check applies |
| GatewayBuilder.DepsFromPackageJsonCorrect | gateway_builder.py:498-504 | package.json deps are strictly sorted (so duplicate-free), and a name is listed iff it is a key of the "dependencies" object or of the "devDependencies" object |
| GatewayBuilder.AnyStartsWith | gateway_builder.py:508-511 | true iff some path starts with the prefix |
| GatewayBuilder.InferPackageJsonPath | gateway_builder.py:506-512 | "frontend/package.json" iff some path starts with "frontend/"; "backend/package.json" iff none does and some path starts with "backend/"; None iff neither prefix occurs |
| GatewayBuilder.ListFieldCases | gateway_builder.py:518-524 | a report list read under a key is the stored list, `[]` when the key is missing, and the fallback for any other stored value |
| GatewayBuilder.ParseQaJsonTolerant | gateway_builder.py:514-525 | for any parsed object: each of "critical", "warnings" and "suggestions" gives its stored list, or `[]` when missing; a non-list "critical" gives the single finding "QA critical not a list"; a non-list "warnings" or "suggestions" gives `[]` |
| GatewayBuilder.ParseGovernanceJsonTolerant | gateway_builder.py:527-540 | for any parsed object: "compliant" is the truthiness of its stored value and false when missing; the lists read as for QA, a non-list "critical" giving "Governance critical not a list" |
| GatewayBuilder.ParseReportsByKeys | gateway_builder.py:514-540 | both reports depend only on what the four report keys look up to, so extra keys make no difference |
| GatewayBuilder.ParseReportsOrderFree | gateway_builder.py:514-540 | two objects holding the same pairs in any order give the same QA and governance reports |
| GatewayBuilder.ParseQaJsonRoundTrip | gateway_builder.py:514-525 | an object holding the three lists, in any key order and next to any other keys, is read back list for list; any non-object gives the single error "QA output invalid JSON" |
| GatewayBuilder.ParseGovernanceJsonRoundTrip | gateway_builder.py:527-540 | an object holding a boolean "compliant" and the three lists, in any key order and next to any other keys, is read back as written; a non-object gives non-compliant with the single error "Governance output invalid JSON" |
| GatewayBuilder.WordsFound | gateway_builder.py:547 | a vocabulary word is found iff it occurs as a whole word in the lower-cased text |
| GatewayBuilder.DepsFromTextCorrect | gateway_builder.py:545-548 | the deps found in planning text are strictly sorted, and are exactly the vocabulary words that occur as whole words, case-insensitively |
| GatewayBuilder.SizePut | gateway_builder.py:464-469 | assigning a path changes the total byte size by the new content's size minus the replaced content's size |
| GatewayBuilder.MergedLatest | gateway_builder.py:108-113 | in the merged files, a path maps to its content in the latest response that has it, and is absent when no response has it |
| GatewayBuilder.ErrorsOfAppend | gateway_builder.py:96-100 | logging one more response extends the collected errors by exactly that response's errors |
| GatewayBuilder.BuildContext.constructor | gateway_builder.py:82-94 | a new context has the given name and description, no responses, no errors, and stage PLANNING |
| GatewayBuilder.BuildContext.AddResponse | gateway_builder.py:96-100 | the response is appended, the current stage becomes its stage, and its errors are appended to the error log |
| GatewayBuilder.BuildContext.LastContent | gateway_builder.py:102-106 | returns the content of the latest response with that stage, or "" when none has it |
| GatewayBuilder.BuildContext.MergedFiles | gateway_builder.py:108-113 | the loop computes the last-writer-wins merge of all responses' files, in the order of `Merged` |
| GatewayBuilder.DayZeroBuilderV2.constructor | gateway_builder.py:117-137 | the builder keeps the given governance level and limits |
| GatewayBuilder.DayZeroBuilderV2.Default | gateway_builder.py:117-126 | the defaults are "standard" governance, 300 files, 8 000 000 total bytes and 1 000 000 bytes per file |
| GatewayBuilder.DayZeroBuilderV2.ClassifyItem | gateway_builder.py:444-462 | a kept list entry has a valid relative path, and its recorded size is its UTF-8 length and at most `max_file_bytes` |
| GatewayBuilder.DayZeroBuilderV2.ClassifyItemMessage | gateway_builder.py:444-462 | no message for a skipped entry equals either of the two messages that stop the loop |
| GatewayBuilder.DayZeroBuilderV2.StepSafe | gateway_builder.py:444-473 | one loop turn from a safe state either continues in a safe state or stops in an acceptable outcome |
| GatewayBuilder.DayZeroBuilderV2.KeepStep | gateway_builder.py:464-469 | adding a kept file keeps every file valid and small enough, grows the dict by at most one, and keeps the total size within the running total |
| GatewayBuilder.DayZeroBuilderV2.ScanSafe | gateway_builder.py:441-473 | after the whole loop, every kept file has a valid path and at most `max_file_bytes` bytes; the kept files total at most `max_total_bytes`; there are at most `max_files`+1 of them; a stop message can only be the last error |
| GatewayBuilder.DayZeroBuilderV2.StopsOverBudget | gateway_builder.py:464-467 | the loop stops at a kept entry that pushes the running total over `max_total_bytes`: that entry is not added, "Total output too large" is the last error, and the result is the same whatever entries follow |
| GatewayBuilder.DayZeroBuilderV2.StopsOverCount | gateway_builder.py:464-473 | the loop stops at a kept entry within budget that takes the files past `max_files`: that entry is added, "Too many files" is the last error, and the result is the same whatever entries follow |
| GatewayBuilder.DayZeroBuilderV2.ScanItem | gateway_builder.py:444-473 | one loop turn returns exactly the state and stop decision of the `Step` specification |
| GatewayBuilder.DayZeroBuilderV2.ScanItems | gateway_builder.py:441-473 | the loop over the "files" list computes the files, errors and running byte total of the `ScanFrom` specification |
| GatewayBuilder.DayZeroBuilderV2.ParseFileBundle | gateway_builder.py:422-484 | `_parse_file_bundle` returns the files, deps and errors of the `BundleOf` specification |
| GatewayBuilder.DayZeroBuilderV2.BundleRejects | gateway_builder.py:432-439 | a non-object gives no files, no deps and only "Invalid JSON output for file bundle"; a non-list "files" gives no files, no deps and only "'files' must be a list"; deps are non-empty only when package.json is preferred and given as an object, and then they are its deps |
| GatewayBuilder.DayZeroBuilderV2.PackageJsonPlacement | gateway_builder.py:478-482 | the package.json step either leaves the files alone or appends one new entry at the inferred path, never overwriting an existing one; with no frontend/ or backend/ path it adds nothing |
| GatewayBuilder.DayZeroBuilderV2.BundleSafe | gateway_builder.py:441-484 | a parsed bundle's files are the loop's safe files, possibly plus one package.json at a new inferred path, and its errors are the loop's errors |
| GatewayBuilder.DayZeroBuilderV2.FirstBad | gateway_builder.py:596-606 | the index found is the first file with an invalid path or too many bytes, and every file before it is good |
| GatewayBuilder.DayZeroBuilderV2.WriteAllFiles | gateway_builder.py:578-606 | `_write_all_files` writes the files and raises the error of the `WrittenFiles`/`WriteError` specification |
| GatewayBuilder.DayZeroBuilderV2.WrittenSafe | gateway_builder.py:578-606 | only a prefix of the merged files is written, each with a valid path and at most `max_file_bytes` bytes; there is no error iff all files are written, there is at least one, there are at most `max_files` and they total at most `max_total_bytes` |
| GatewayBuilder.DayZeroBuilderV2.Plan | gateway_builder.py:156-183 | every planned stage runs an agent |
| GatewayBuilder.DayZeroBuilderV2.PlanShape | gateway_builder.py:156-183 | the stage order is planning, design, frontend, backend only with `include_backend`, then pwa, qa, and governance only for "strict"/"audit" |
| GatewayBuilder.DayZeroBuilderV2.Respond | gateway_builder.py:198-391 | the response built by a stage runner has that stage and the agent's raw text as content |
| GatewayBuilder.DayZeroBuilderV2.StageResponse | gateway_builder.py:198-391 | a stage runner returns the response of the `Respond` specification |
| GatewayBuilder.DayZeroBuilderV2.FirstRaised | gateway_builder.py:156-193 | the index found is the first planned stage whose agent raises, or the plan's length; every stage before it returns |
| GatewayBuilder.DayZeroBuilderV2.RunEndsAt | gateway_builder.py:156-193 | once the stages up to `k` have returned and stage `k` raised (or the plan is done), the run's responses, failure and written files are determined by those responses |
| GatewayBuilder.DayZeroBuilderV2.RunFollowsPlan | gateway_builder.py:156-183 | the logged responses follow the plan's stage order; all stages run iff no agent raises; when some stage is missing, the next stage's agent raised |
| GatewayBuilder.DayZeroBuilderV2.RunOutcome | gateway_builder.py:156-193 | a raising agent fails the build with its message and nothing is written; under a gated level a governance verdict that is not compliant fails with "Governance non-compliant: blocking file generation" and nothing is written; otherwise the outcome is that of writing the merged files |
| GatewayBuilder.DayZeroBuilderV2.RunWritesSafely | gateway_builder.py:156-193 | whatever a run writes is part of the merged files, with valid paths and sizes; the build succeeds iff every agent returned, the governance gate passed and all merged files (at least one, within both limits) were written |
| GatewayBuilder.DayZeroBuilderV2.Advance | gateway_builder.py:156-181 | one stage step logs the stage's response and moves on, or records the raised message and stops; an earlier failure leaves the context alone |
| GatewayBuilder.DayZeroBuilderV2.RunBuildAgents | gateway_builder.py:156-168 | planning, design, frontend and the optional backend run in order until one raises |
| GatewayBuilder.DayZeroBuilderV2.RunReviewAgents | gateway_builder.py:170-181 | pwa, qa and the gated governance stage run after them, in order, until one raises |
| GatewayBuilder.DayZeroBuilderV2.RunAgents | gateway_builder.py:156-181 | the agents of the plan run in order until one raises; with no failure all of them ran |
| GatewayBuilder.DayZeroBuilderV2.Conclude | gateway_builder.py:179-193 | the gate and the write give the run's failure message and written files |
| GatewayBuilder.DayZeroBuilderV2.Finish | gateway_builder.py:187-193 | the build ends in COMPLETE without a failure and in FAILED with one, whose message is appended to the error log; the responses are unchanged |
| GatewayBuilder.DayZeroBuilderV2.Run | gateway_builder.py:140-193 | `run` logs the responses of the planned stages up to the first raising agent; it ends in COMPLETE iff the run has no failure, otherwise in FAILED; the error log is the responses' errors plus the failure message; it writes the files the specification says |
| WebScraper.AnyContained | web_scraper.py:330-332 | true iff some keyword is a substring of the text |
| WebScraper.AnyListed | web_scraper.py:334 | true iff some keyword equals an element of the list |
| WebScraper.EstimateDifficulty | web_scraper.py:321-337 | the result is always one of the three levels; "beginner" iff a beginner keyword is a substring of the lower-cased description, which beats every advanced keyword; "advanced" iff there is none but an advanced keyword is a substring of the description or equals a lower-cased tag |
| WebScraper.NoDescriptionRatedAdvanced | web_scraper.py:321-337 | as written, "No description available" is rated "advanced" though no advanced keyword occurs in it as a word ("ai" matches inside "available") |
| WebScraper.EstimateDifficultyByWord | web_scraper.py:321-337 | corrected rating: one of the levels, and "advanced" only when an advanced keyword is a whole word of the description or a lower-cased tag |
| WebScraper.NoDescriptionRatedIntermediate | web_scraper.py:321-337 | corrected, "No description available" is rated "intermediate" |
| WebScraper.AnyWord | web_scraper.py:332 | true iff some keyword occurs in the text as a whole word |
| WebScraper.Matches | web_scraper.py:354-356 | the matches of one pattern are exactly its alternatives that occur between regex word boundaries |
| WebScraper.ExtractTechStack | web_scraper.py:339-358 | the stack is exactly the vocabulary words that occur as regex words in the lower-cased description and tags, so it is duplicate-free and within the vocabulary |
| WebScraper.CSharpNeverFound | web_scraper.py:346 | as written, a description of just "c#" does not yield "c#" |
| WebScraper.HasTokenFrom | web_scraper.py:346 | true iff the word occurs from the offset on with no word character on either side |
| WebScraper.TechStackByToken | web_scraper.py:339-358 | corrected stack: exactly the vocabulary words that occur as tokens in the lower-cased description and tags |
| WebScraper.TokenFound | web_scraper.py:346 | corrected, a word written between non-word characters is always found |
| WebScraper.CSharpFoundByToken | web_scraper.py:346 | corrected, a description of just "c#" yields "c#" |
| WebScraper.TokenIsWord | web_scraper.py:345-349 | for words that begin and end with a word character, the corrected match agrees with `\b` |
| WebScraper.KeywordsInCorrect | web_scraper.py:371-375 | a term is kept iff it is in the term list and a substring of the text, and the kept terms are in list order |
| WebScraper.ExtractTechKeywords | web_scraper.py:360-375 | the loop computes the terms of the `KeywordsIn` specification for the lower-cased title |
| WebScraper.TechKeywordsCorrect | web_scraper.py:360-375 | `_extract_tech_keywords` returns exactly the tech terms that occur in the lower-cased title, in list order, without duplicates |
| WebScraper.TechTermsDistinct | web_scraper.py:365-369 | the tech term list has no duplicates |
| WebScraper.UrlsOf | web_scraper.py:398-403 | a URL is among the ideas' URLs iff some idea has it |
| WebScraper.UniqueUrls | web_scraper.py:397-403 | de-duplicated ideas have pairwise distinct URLs and cover every input URL |
| WebScraper.UniqueInOrder | web_scraper.py:397-403 | de-duplication keeps the input order |
| WebScraper.UniqueFirsts | web_scraper.py:397-403 | each kept idea is the first idea with its URL |
| WebScraper.FirstOfUrlExtend | web_scraper.py:400-403 | the first idea with a URL stays first when more ideas follow |
| WebScraper.UniqueByUrlCorrect | web_scraper.py:397-403 | the kept ideas have distinct URLs that cover all input URLs, come in input order, and are each the first idea with their URL |
| WebScraper.DedupByUrl | web_scraper.py:397-403 | the `seen_urls` loop computes the `UniqueByUrl` specification |
| WebScraper.Bucket | web_scraper.py:412-421 | a bucket holds exactly the ideas at its level |
| WebScraper.CategorizedSucceeds | web_scraper.py:405-421 | bucketing succeeds iff every idea's difficulty is one of the three levels (otherwise the dict lookup raises KeyError) |
| WebScraper.CategorizedBuckets | web_scraper.py:405-421 | on success each bucket is the ideas at that level, in input order |
| WebScraper.BucketsPartition | web_scraper.py:405-421 | when every difficulty is a level, the three buckets together are a permutation of the ideas |
| WebScraper.BucketsStep | web_scraper.py:412-413 | one more idea at a known level adds exactly that idea to the buckets |
| WebScraper.CategorizedError | web_scraper.py:412-413 | a failure is the KeyError of the first idea whose difficulty is not a level |
| WebScraper.Categorize | web_scraper.py:405-421 | the append loop computes the `Categorized` specification |
| WebScraper.FailureSticks | web_scraper.py:412-413 | once a prefix fails, the whole list fails with the same error |
| WebScraper.Somes | web_scraper.py:226-227 | skipping links never gives more ideas than links |
| WebScraper.SomesPrefix | web_scraper.py:221-248 | the ideas of a prefix of a page are a prefix of the page's ideas |
| WebScraper.CandidatesPrefix | web_scraper.py:195-255 | the ideas of the first pages are a prefix of all pages' ideas |
| WebScraper.NothingFetched | web_scraper.py:195-198 | when no page is fetched there are no ideas |
| WebScraper.FirstFetchedStays | web_scraper.py:195-198 | the first fetched page stays first when more pages follow |
| WebScraper.FirstFetchedLeads | web_scraper.py:195-255 | the first fetched page's ideas start the candidate list |
| WebScraper.CollectedAtLimit | web_scraper.py:247-255 | stopping when the limit is reached returns exactly the limit's worth of candidates |
| WebScraper.CollectedAtFirst | web_scraper.py:247-255 | with a limit below one, the loop stops after the first idea of the first fetched page |
| WebScraper.CollectStep | web_scraper.py:195-255 | one more page adds its ideas to the candidates |
| WebScraper.CollectedAtEnd | web_scraper.py:195-257 | running out of pages before the limit returns every candidate |
| WebScraper.CollectPage | web_scraper.py:221-248 | the inner loop adds the page's ideas in order until the limit is reached (or one idea when the limit is below one) |
| WebScraper.CollectFetched | web_scraper.py:221-255 | after a fetched page, the loop has either reached its final result or stays below the limit with all that page's ideas |
| WebScraper.Collect | web_scraper.py:195-257 | the nested accumulation loops with their `len(ideas) >= limit` breaks return the `Collected` specification |
| WebScraper.CollectedBounds | web_scraper.py:247-255 | at most `limit` ideas are collected (one when `limit` is below one), they are a prefix of all candidates, and all candidates are returned when they fit |
| WebScraper.CandidateOrigin | web_scraper.py:195-245 | every candidate idea comes from a fetched page |
| WebScraper.SomesOrigin | web_scraper.py:221-245 | every idea of a page was built from one of its links |
| WebScraper.GatheredPrefix | web_scraper.py:215-219 | the selector loop gathers a prefix of all selected links, and all of them when it stays under the limit |
| WebScraper.GatheredTake | web_scraper.py:215-221 | the first `limit` gathered links are the first `limit` of all selected links |
| WebScraper.GatherLinks | web_scraper.py:215-219 | the selector loop with its `>= limit` break computes the `Gathered` specification |
| WebScraper.BlogIdeaHasShape | web_scraper.py:223-243 | a blog idea has a non-empty title and URL, source "Tech Blog", level "intermediate", the topics as tags, no stack, and some topic occurs case-insensitively in its title |
| WebScraper.BlogBatchHasShape | web_scraper.py:195-245 | every idea from a blog page has that shape |
| WebScraper.BlogIdeasFacts | web_scraper.py:171-257 | the blog scraper returns at most `limit` ideas (one for `limit` below one), each of that shape |
| WebScraper.ScrapeTechBlogs | web_scraper.py:171-257 | `scrape_tech_blogs` with the default topics when none are given returns the `Collected` ideas of the blog pages |
| WebScraper.QuestionBatchHasShape | web_scraper.py:275-307 | every idea from a Stack Overflow page names a tag, has source "Stack Overflow" and level "intermediate", has its title's tech keywords as stack, and has the tag followed by them as tags |
| WebScraper.QuestionIdeasFacts | web_scraper.py:259-319 | the Stack Overflow scraper returns at most `limit` ideas (one for `limit` below one), each of that shape |
| WebScraper.ScrapeStackOverflowTrends | web_scraper.py:259-319 | `scrape_stackoverflow_trends` with the default tags when none are given returns the `Collected` ideas of the tag pages |
| WebScraper.SourcesDisjoint | web_scraper.py:427-431 | the counts of three distinct sources add up to at most the number of ideas |
| WebScraper.MostCommonTags | web_scraper.py:464-474 | the tag table is the top 10 of the case-folded tag tally |
| WebScraper.MostCommonTech | web_scraper.py:476-486 | the technology table is the top 10 of the case-folded tech tally |
| WebScraper.ReportCorrect | web_scraper.py:395-434 | the report is produced iff every unique idea has a known level; it then lists the URL-unique ideas, `total_ideas` is their number, `by_difficulty` sums to it and `by_source` sums to at most it |
| WebScraper.GenerateAppIdeasReport | web_scraper.py:377-462 | `generate_app_ideas_report` returns the `ReportOf` specification of the GitHub ideas followed by the blogs and questions scraped with limit 10 |
| WebScraper.ScrapedReportSucceeds | web_scraper.py:389-434 | with GitHub ideas at known levels the report is always produced, with at most 20 ideas more than GitHub gave |
| Counting.FirstSeenMembers | web_scraper.py:466-470 | the first-seen order lists exactly the entries |
| Counting.TallyCounts | web_scraper.py:466-470 | the tally maps each entry to its number of occurrences and has no other keys |
| Counting.TallyKeys | web_scraper.py:466-470 | the tally's keys are distinct and in first-seen order |
| Counting.TotalPut | enhanced_gateway_builder.py:57-60 | assigning a count changes the total by the new count minus the old one |
| Counting.TallyTotal | enhanced_gateway_builder.py:57-60 | the tally's counts sum to the number of entries |
| Counting.WithCountAppend | web_scraper.py:473 | entries with a given count in a concatenation are those of each part, in order |
| Counting.WithCountNone | web_scraper.py:473 | no entry has a count above all counts |
| Counting.InsertDescPerm | web_scraper.py:473 | inserting into the sorted list adds exactly that entry |
| Counting.InsertDescBound | web_scraper.py:473 | inserting keeps every count under a common bound |
| Counting.InsertDescSorted | web_scraper.py:473 | inserting keeps the counts non-increasing |
| Counting.InsertDescWithCount | web_scraper.py:473 | inserting places the entry after every entry with the same count |
| Counting.SortDescCorrect | web_scraper.py:473 | `sorted(..., key=count, reverse=True)` is a non-increasing permutation that keeps equal counts in their original order |
| Counting.LowerAll | web_scraper.py:469 | each entry is lower-cased in place |
| Counting.CountLowered | web_scraper.py:466-470 | the nested counting loop builds the tally of the lower-cased entries |
| Dicts.GetIn | web_scraper.py:470 | a found key-count pair is stored in the dict |
| Counting.DistinctKeysOnce | web_scraper.py:466-470 | a dict with distinct keys holds each pair at most once |
| Counting.Twice | web_scraper.py:473 | an element at two positions occurs at least twice |
| Counting.WithCountPrefix | web_scraper.py:474 | cutting the list keeps the order among equal counts |
| Counting.TopCorrect | web_scraper.py:464-474 | the top-n table has min(n, #distinct entries) rows, non-increasing counts, true counts and distinct keys; every omitted entry counts no more than every listed one; ties stay in first-seen order |
| Counting.TopShape | web_scraper.py:473-474 | the table has min(n, #distinct) rows, non-increasing, and is a prefix of the sorted tally |
| Counting.TopEntries | web_scraper.py:464-474 | every row is an entry with its true count |
| Counting.TopDistinct | web_scraper.py:464-474 | the rows have distinct keys |
| Counting.TopOmitted | web_scraper.py:473-474 | no omitted entry counts more than a listed one |
| Counting.TopStable | web_scraper.py:473-474 | among equal counts the rows keep first-seen order |
| Counting.TotalAppend | enhanced_gateway_builder.py:62-63 | the total of a list with one more entry grows by its count |
| Counting.TotalInsert | enhanced_gateway_builder.py:62-63 | inserting an entry into the sorted list adds its count to the total |
| Counting.TotalSorted | enhanced_gateway_builder.py:62-63 | sorting keeps the total |
| EnhancedGatewayBuilder.AnalyzeTechTrends | enhanced_gateway_builder.py:55-65 | the counting loop and sort compute the `TechTrends` specification |
| EnhancedGatewayBuilder.TechTrendsTop | enhanced_gateway_builder.py:55-65 | the trends are the whole top table: non-increasing, distinct keys, true counts, ties in first-seen order, a permutation of the tally |
| EnhancedGatewayBuilder.TechTrendsCover | enhanced_gateway_builder.py:55-65 | every lower-cased tech entry is a key of the trends |
| EnhancedGatewayBuilder.TechTrendsCorrect | enhanced_gateway_builder.py:55-65 | `_analyze_tech_trends` lists every lower-cased tech entry once with its true count, in non-increasing order with ties in first-seen order, and the counts sum to the number of tech entries |
| EnhancedGatewayBuilder.AnalyzeDifficultyDistribution | enhanced_gateway_builder.py:67-72 | the counting loop computes the `DistributionOf` specification |
| EnhancedGatewayBuilder.LevelCountsFailureSticks | enhanced_gateway_builder.py:70-71 | once a prefix has an unknown level, the whole count fails with the same error |
| EnhancedGatewayBuilder.LevelCountsAreBucketSizes | enhanced_gateway_builder.py:67-72 | the counts succeed exactly when the report's bucketing does, fail with the same KeyError, and are the bucket sizes |
| EnhancedGatewayBuilder.DistributionSucceeds | enhanced_gateway_builder.py:67-72 | the distribution is produced iff every difficulty is one of the three levels |
| EnhancedGatewayBuilder.DistributionSizes | enhanced_gateway_builder.py:67-72 | the keys are exactly beginner, intermediate, advanced, and each count is the number of ideas at that level |
| EnhancedGatewayBuilder.DistributionTotal | enhanced_gateway_builder.py:67-72 | the three counts sum to the number of ideas |
| EnhancedGatewayBuilder.DistributionCounts | enhanced_gateway_builder.py:67-72 | exactly the three level keys, each with its level's number of ideas, summing to `len(ideas)` |
| EnhancedGatewayBuilder.DistributionError | enhanced_gateway_builder.py:70-71 | a failure is the KeyError of the first idea at an unknown level |
| EnhancedGatewayBuilder.Matching | enhanced_gateway_builder.py:77 | the matching ideas are exactly those with a tag equal to one of the theme's tags |
| EnhancedGatewayBuilder.TitlesOf | enhanced_gateway_builder.py:83 | the titles of the ideas, in order |
| EnhancedGatewayBuilder.IdentifyEmergingPatterns | enhanced_gateway_builder.py:74-111 | the three checks compute the `PatternsFor` specification for the fixed themes |
| EnhancedGatewayBuilder.PatternsInOrder | enhanced_gateway_builder.py:74-111 | the patterns follow the order of the themes, at most one per theme |
| EnhancedGatewayBuilder.PatternsStep | enhanced_gateway_builder.py:74-111 | checking one more theme keeps the pattern names in theme order |
| EnhancedGatewayBuilder.DetectName | enhanced_gateway_builder.py:79-80 | a detected pattern carries its theme's name |
| EnhancedGatewayBuilder.PatternsDetected | enhanced_gateway_builder.py:74-111 | a pattern is listed iff it is what some theme detects |
| EnhancedGatewayBuilder.PatternsOrdered | enhanced_gateway_builder.py:74-111 | at most three patterns, named in the order AI/ML Integration, Productivity Tools, Modern Web Development |
| EnhancedGatewayBuilder.ThemeNamed | enhanced_gateway_builder.py:79-105 | the three themes have distinct names |
| EnhancedGatewayBuilder.PatternPresent | enhanced_gateway_builder.py:74-111 | a theme's pattern appears iff some idea has one of its tags exactly |
| EnhancedGatewayBuilder.PatternCounts | enhanced_gateway_builder.py:74-111 | a pattern's count is its theme's number of matching ideas and at least 1; its examples are the first at most 3 titles; its description and recommended tech are the theme's |
| EnhancedGatewayBuilder.FirstMax | enhanced_gateway_builder.py:118 | `max` by count returns an entry with the largest count |
| EnhancedGatewayBuilder.FirstMaxIsFirst | enhanced_gateway_builder.py:118 | among equal maxima, `max` returns the first |
| EnhancedGatewayBuilder.FirstMaxOfSorted | enhanced_gateway_builder.py:118 | the maximum of trends sorted by count is their first entry |
| EnhancedGatewayBuilder.GenerateRecommendations | enhanced_gateway_builder.py:113-130 | the appends compute the `RecommendationsOf` specification |
| EnhancedGatewayBuilder.RecommendationsEnds | enhanced_gateway_builder.py:113-130 | there are (1 if trends exist else 0) + #patterns + 2 recommendations; the first names the top technology when trends exist; the last two are the fixed beginner and advanced advice |
| EnhancedGatewayBuilder.RecommendationsMiddle | enhanced_gateway_builder.py:124-125 | the middle recommendations are one per pattern, in pattern order |
| EnhancedGatewayBuilder.RecommendationsShape | enhanced_gateway_builder.py:113-130 | the full layout: top technology, one line per pattern, two fixed lines |
| EnhancedGatewayBuilder.AnalyzeTrends | enhanced_gateway_builder.py:28-50 | `analyze_trends` returns the `AnalysisOf` specification |
| EnhancedGatewayBuilder.AnalysisFacts | enhanced_gateway_builder.py:28-50 | no ideas give empty trends and recommendations; otherwise the analysis is produced iff every level is known, and then it has trends and (1 or 0) + #patterns + 2 recommendations, led by the most frequent technology |
| EnhancedGatewayBuilder.StackForFirstMatch | enhanced_gateway_builder.py:295-311 | the stack is that of the first key in table order that occurs in the text, or the default React stack when none does |
| EnhancedGatewayBuilder.SuggestionsFrom | enhanced_gateway_builder.py:276-291 | the i-th suggestion is numbered i+1 and built from the i-th recommendation |
| EnhancedGatewayBuilder.NumberSuggestions | enhanced_gateway_builder.py:276-291 | the append loop computes the `SuggestionsFrom` specification |
| EnhancedGatewayBuilder.SuggestionsFacts | enhanced_gateway_builder.py:258-293 | an empty cache gives []; otherwise suggestions are produced iff every level is known, and then there are min(count, #recommendations) of them with ids 1..n, level "intermediate", the i-th recommendation as description and its looked-up stack |
| EnhancedGatewayBuilder.EnhancedDayZeroBuilder.constructor | enhanced_gateway_builder.py:151-154 | a new builder has an empty cache, last scrape time 0 and a one-hour (3600 s) cache duration |
| EnhancedGatewayBuilder.EnhancedDayZeroBuilder.TrendInsights | enhanced_gateway_builder.py:171-182 | the insight is empty iff the cache has no tech entries; otherwise it names the most frequent technology, title-cased |
| EnhancedGatewayBuilder.EnhancedDayZeroBuilder.RefreshScrapedData | enhanced_gateway_builder.py:192-216 | a successful scrape replaces the cache by its URL-de-duplicated ideas; a failed one keeps the cache; the scrape time is not touched |
| EnhancedGatewayBuilder.EnhancedDayZeroBuilder.EnsureFreshScrapedData | enhanced_gateway_builder.py:184-190 | a refresh happens only when more than 3600 s have passed, and then the time is recorded even if the scrape failed; otherwise nothing changes |
| EnhancedGatewayBuilder.EnhancedDayZeroBuilder.SuggestProjectIdeas | enhanced_gateway_builder.py:258-293 | the cache follows the refresh rule, and the result is the `SuggestionsOf` specification of the updated cache |
| PyText.Contains | web_scraper.py:330 | Python's `needle in hay`: true iff the needle occurs at some offset |
| PyText.ShiftOccurrence | web_scraper.py:330 | an occurrence not at the start is an occurrence in the rest |
| PyText.Lower | web_scraper.py:323 | lower-casing keeps the length |
| PyText.ReplaceChar | gateway_builder.py:562 | replacing keeps the length and leaves no replaced character |
| PyText.IndexOf | gateway_builder.py:564 | the index is the string's length or a position holding the character |
| PyText.IndexOfFirst | gateway_builder.py:564 | no earlier position holds the character |
| PyText.Split | gateway_builder.py:564 | `str.split(sep)` gives at least one piece |
| PyText.SplitPieces | gateway_builder.py:564 | a string is a piece of the split iff it lies between separators (or the ends) and holds no separator |
| PyText.SplitPieceFound | gateway_builder.py:564 | each listed piece lies between separators |
| PyText.NextPiece | gateway_builder.py:564 | a later piece is a piece of the rest after the next separator |
| PyText.PieceFrom | gateway_builder.py:564 | the first piece starts where the string starts |
| PyText.LaterPiece | gateway_builder.py:564 | a later piece is a piece of the text after the first separator |
| PyText.SplitPieceListed | gateway_builder.py:564 | every stretch between separators is listed by the split |
| PyText.PieceListedFrom | gateway_builder.py:564 | every stretch between separators after a separator is listed by the split of the rest |
| PyText.SameEnd | gateway_builder.py:564 | a piece starting at a position has one end |
| PyText.SkipPiece | gateway_builder.py:564 | skipping a piece lists only pieces the longer rest lists |
| PyText.SplitFirst | gateway_builder.py:564 | the split is the first piece followed by the split of the rest |
| PyText.PyTake | web_scraper.py:221 | `s[:n]` is a prefix of `s` of length min(n, len) for n >= 0, and of len+n (or 0) for negative n |
| PyText.NatToString | gateway_builder.py:588 | a decimal rendering is non-empty and made of digits |
| PyText.Utf8Length | gateway_builder.py:459 | a string's UTF-8 length is between one and four bytes per character |
| PyText.HasWordFrom | web_scraper.py:355 | true iff the word occurs from the offset on between regex word boundaries |
| PyText.BelowIrreflexive | gateway_builder.py:504 | no string sorts before itself |
| PyText.BelowTransitive | gateway_builder.py:504 | the string order is transitive |
| PyText.BelowTotal | gateway_builder.py:504 | two different strings are ordered one way or the other |
| PyText.BelowAsymmetric | gateway_builder.py:504 | no two strings sort before each other |
| PyText.InsertSortedCorrect | gateway_builder.py:504 | inserting into a strictly sorted list keeps it strictly sorted and adds exactly the element |
| PyText.SortedSetCorrect | gateway_builder.py:504 | `sorted(set(xs))` is strictly sorted and has exactly the elements of `xs` |
| Dicts.Keys | gateway_builder.py:508 | `d.keys()` lists the keys in insertion order |
| Dicts.GetCons | gateway_builder.py:501 | lookup in a dict written pair by pair |
| Dicts.GetNone | gateway_builder.py:501 | `d.get(k)` is None iff `k` is not a key |
| Dicts.GetAt | gateway_builder.py:501 | a stored pair is what lookup finds for its key |
| Dicts.GetSamePairs | gateway_builder.py:517-520 | two dicts with distinct keys holding the same pairs, in any order, answer every `get` alike |
| Dicts.PutKeys | gateway_builder.py:469 | `d[k] = v` keeps a present key in place, appends a new key, and keeps keys distinct |
| Dicts.KeysCons | gateway_builder.py:508 | the keys of a dict written pair by pair |
| Dicts.ConsDistinct | gateway_builder.py:469 | a pair can go in front exactly when its key is new |
| Dicts.ConsDistinctTail | gateway_builder.py:469 | the tail of a distinct-key dict is distinct and lacks the head's key |
| Dicts.ConsDistinctHead | gateway_builder.py:469 | a new key in front keeps keys distinct |
| Dicts.GetPut | gateway_builder.py:111 | after `d[k] = v`, `k` maps to `v` and every other key is unchanged |
| Dicts.PutElements | gateway_builder.py:469 | after `d[k] = v` every pair is `(k, v)` or an old pair, and the dict grows by at most one |
| Dicts.PutNew | gateway_builder.py:482 | assigning a new key appends the pair |
| Dicts.PutAllAppend | gateway_builder.py:110-111 | updating with one more pair is one more assignment |
| Dicts.GetPutAll | gateway_builder.py:110-111 | after the update loop a key maps to its new value when the update has it, else to its old value |
| Json.Strs | gateway_builder.py:273 | the error strings carried as JSON strings, one for one |
| Seqs.SubsequenceDistinct | web_scraper.py:371-373 | a subsequence keeps only list elements and is duplicate-free when the list is |
| Seqs.SubsequenceLength | web_scraper.py:398-403 | a subsequence is no longer than the list |
| Seqs.Take | enhanced_gateway_builder.py:83 | `s[:n]` for n >= 0 is a prefix of length min(n, len) |

## Left out

- HTTP fetching, the browser session, BeautifulSoup parsing and `urljoin`. A fetch is a function from URL to `Option<Page>`; the links a page yields (with stripped titles and resolved URLs) are a function of the page. An exception while handling one link is not modelled, since the link accessors the model takes as inputs cannot raise.
- `scrape_github_trending` (HTML parsing only) is an input list of ideas. `scrape_product_hunt` always returns [] and is not called by the modelled code.
- `_rate_limit`, `time.sleep`, `_thought`, `stream_thought` and the streaming callback: timing and output only.
- LLM calls (`_invoke_text`) and prompt construction. Each agent call is an `Invocation` input.
- `json.loads`/`json.dumps` and the fence stripping of `_safe_json_load`. The parse result and the dumped package.json text are inputs. JSON numbers are integers only; floats are left out.
- `_safe_join`, directory creation and the atomic temp-file writes: the model returns the files that would be written, in order, and the first error.
- `datetime.now()`/`isoformat` timestamps, `scraped_at`, `relevance_score` (a float the modelled code never reads), `to_dict`, `analysis_date`, `generated_at` and the report file writes.
- `run_enhanced_orchestration`, `enhance_with_nlp`, `generate_comprehensive_report`, the singletons and the module-level `builder`: they depend on classes that are not part of this model (`DayZeroBuilder`, `NLPEnhancer`, `run_web_orchestration`) or on an undefined name.
- `output_dir` and `tech_stack` of `BuildContext`: they only feed prompts and the file writer's directory.
- Case mapping (`lower`, `title`) is ASCII only, and the regex `\w`/`\b` is approximated by ASCII letters, digits and "_". Python's Unicode-aware versions differ on non-ASCII text.
- `time.time()` is a float; the model uses integer seconds.
- The byte length of `content.encode("utf-8", errors="ignore")` is computed per code point. Dafny strings hold no lone surrogates, so nothing is dropped.
- WebScraper.ExtractTechStack: returns the set of found words rather than `list(set)`, whose order is Python's hash order; the result's membership and lack of duplicates are what is stated.
- WebScraper.Collect: the model treats each link as either yielding an idea or being skipped; it does not model an exception raised while reading one link.
- GatewayBuilder.DayZeroBuilderV2.Run: exceptions are modelled as the agents' raised messages and the write checks' errors; file-system errors while writing (directory creation, `_safe_join` on symlinks, the temp-file write) are not represented.
- GatewayBuilder.DayZeroBuilderV2.ParseFileBundle: `str(item.get("path"))` of a non-string path uses a `repr` that does not escape quotes inside strings.

## Findings

| source | as written | input that shows it | evidently intended | confidence | as-written member | corrected member |
|---|---|---|---|---|---|---|
| web_scraper.py:321-337 | advanced keywords are matched as substrings of the description, so "ai" matches inside "available" | a GitHub card with no description gets "No description available" and is rated "advanced" | match advanced keywords as whole words, so a repository without a description is "intermediate" | not executed | WebScraper.NoDescriptionRatedAdvanced | WebScraper.EstimateDifficultyByWord, WebScraper.NoDescriptionRatedIntermediate |
| web_scraper.py:339-358 | the pattern `\b(...c#...)\b` needs a word character right after "#", so a standalone "c#" never matches | description "c#" with no tags yields no "c#" | match each vocabulary word as a token not glued to word characters | not executed | WebScraper.CSharpNeverFound | WebScraper.TechStackByToken, WebScraper.CSharpFoundByToken |
