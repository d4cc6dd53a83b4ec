# congressv2 data scripts, modelled in Dafny

congressv2 collects public data about members of the U.S. Congress and turns it into the files
behind a campaign website. The data covers legislators, roll-call votes, bills, FEC campaign
finance and the accountability badges derived from them. The work is spread over many small
scripts, in Python and in JavaScript. Each one reads records (YAML, JSON, CSV, XML or API
pages), transforms them and writes records back.

This project models those scripts' transformations in Dafny and proves what each promises.
Records become datatypes with `Option` fields (an absent key is `None`). Dictionaries the
scripts fill become maps built by a last-write-wins fold. API pagination takes its responses
from a finite sequence given as a parameter. Loops the scripts run become methods with loop
invariants, each proved equal to a specification function. Properties of those functions are
proved as lemmas.

Shared modules:

- `Wrappers` holds `Option` and `Result`.
- `Text` holds the string helpers the scripts use: upper and lower case, trim, split and join
  (with their round trip), decimal parsing and integer formatting.
- `Maps` holds the last-write-wins fold and the summing merge of running totals.
- `Json` holds the loose JSON values that the JavaScript scripts read.
- `Legislators` holds the `legislators-current.yaml` person record.
- `Dates` holds `%Y-%m-%d` parsing.
- `Csv` holds the CSV escaping and its decoder, following section 2 of RFC 4180.

Each other module is named after the script it models.

Where the repository's own description and its code disagree, the model follows the code:

- Entities are described as linked by fuzzy or exact identifier matching. The code links only by
  exact ID: each link has method `yaml_direct` and score 1.0 (`Link`, `Fec.LinkMembersToCandidates`).
- Execution is described as single-threaded, with no concurrent operations. scripts/pull-donors.mjs
  runs a pool of concurrent workers over a shared queue; it is listed under "Left out".
- Three places where the code departs from what it evidently intends are listed under "Findings".
  Each is modelled twice: once as written and once as intended.

## Model

| member | source | states |
|---|---|---|
| FecAnalyze.SniffDelimiter | script/fec_analyze.py:16-21 | the delimiter is one of pipe, tab, comma, 0x1C; it is the highest-priority one present in the sample, and the pipe when none is present |
| FecAnalyze.StripCell | script/fec_analyze.py:94-126 | a string cell is trimmed the way Python's `str.strip()` trims; a missing cell stays missing |
| FecAnalyze.LooksStateIff | script/fec_analyze.py:23-24 | a cell looks like a state code exactly when it is a string of two upper-case ASCII letters |
| FecAnalyze.FirstColumn | script/fec_analyze.py:29-66 | the first column at or after a position that a pattern matches, with no earlier column matching; None when no column matches |
| FecAnalyze.FirstMatchNone | script/fec_analyze.py:28-67 | the name phase finds nothing exactly when no pattern matches any column |
| FecAnalyze.FirstMatchSome | script/fec_analyze.py:28-67 | a found column is the pattern-major first match: some pattern matches it, no earlier pattern matches any column, and that pattern matches no earlier column |
| FecAnalyze.FirstMatch | script/fec_analyze.py:28-31 | the two nested loops, returning at the first hit, compute the name-phase specification |
| FecAnalyze.PickAmountColumn | script/fec_analyze.py:26-31 | the name phase of `pick_amount_col` over its six patterns, in order |
| FecAnalyze.PickNameColumn | script/fec_analyze.py:62-67 | `pick_name_col` returns the pattern-major first match of payee/recipient/name/committee, then candidate; None exactly when no pattern matches any column |
| FecAnalyze.AmountBeatsAmt | script/fec_analyze.py:28-31 | a column containing "amount" (any case) is chosen over every earlier column that only contains "amt" |
| FecAnalyze.LaterAmountPatternsContainAmt | script/fec_analyze.py:28 | a column matched by the transaction, expenditure or disb patterns also matches "amt", so those patterns never decide |
| FecAnalyze.StateScore | script/fec_analyze.py:54-57 | the mean of `looks_state` over the sample lies in [0, 1]; it is NaN (None) exactly when the sample is empty |
| FecAnalyze.BestScoreCharacterised | script/fec_analyze.py:55-60 | the running best returns a column exactly when there are columns and sample rows; that column has the strictly highest score, the earliest winning ties |
| FecAnalyze.BestStateColumn | script/fec_analyze.py:55-60 | the loop with its running best and score computes the specification, whose characterisation follows |
| FecAnalyze.PickStateColumn | script/fec_analyze.py:47-60 | a column named "state" or the word "st" wins, as pattern-major first match; otherwise the best-scoring column over the first 1000 rows is returned, or None when there are no columns or rows |
| FecAnalyze.StripMoney | script/fec_analyze.py:70 | every comma and dollar sign is removed and nothing is added; text without them is unchanged |
| FecAnalyze.CoerceAmount | script/fec_analyze.py:10-73 | a cell becomes an amount exactly when its stripped text reads as a number inside [-10^7, 10^7], both bounds inclusive |
| FecAnalyze.KeyedAmounts | script/fec_analyze.py:115-119 | each row paired with its grouping key and its amount, one pair per row, in row order |
| FecAnalyze.GroupSumsKeys | script/fec_analyze.py:115-119 | the groups are exactly the key values that occur, a missing key included (`dropna=False`) |
| FecAnalyze.GroupSumsAppend | script/fec_analyze.py:115-121 | the group sums of two blocks of rows, added key by key, are the group sums of both blocks together |
| FecAnalyze.Rollup.constructor | script/fec_analyze.py:104-106 | the accumulators start with zero rows and two empty rollups |
| FecAnalyze.Rollup.AddRollups | script/fec_analyze.py:108-121 | the rows always count; without an amount column nothing else changes; otherwise each present grouping column adds its chunk's group sums into its rollup |
| FecAnalyze.RollupOfFlatten | script/fec_analyze.py:108-127 | adding chunk by chunk gives the row count and the group sums of all rows of the file; a rollup whose column was not found stays empty |
| FecAnalyze.RollupOfCons | script/fec_analyze.py:123-127 | adding a first chunk in front of the others adds its rows and its group sums |
| FecAnalyze.StripChunks | script/fec_analyze.py:126 | every chunk is stripped cell by cell, and the number of chunks is kept |
| FecAnalyze.SelectColumnsOf | script/fec_analyze.py:93-97 | the three columns are picked from the stripped first chunk |
| FecAnalyze.AddChunks | script/fec_analyze.py:125-127 | adding the remaining chunks in order leaves the accumulators equal to the rollup of all chunks |
| FecAnalyze.ProcessFile | script/fec_analyze.py:85-138 | the corrected `process_file` gives the intended report; it fails when the file cannot be read or has no chunk |
| FecAnalyze.ProcessFileAsWritten | script/fec_analyze.py:85-138 | `process_file` as written gives the report in which the first chunk is added once more |
| FecAnalyze.ReportSumsEachRowOnce | script/fec_analyze.py:103-138 | the intended report counts each row of the file once and holds its group sums over all rows |
| FecAnalyze.AsWrittenCountsFirstChunkTwice | script/fec_analyze.py:123-127 | as written, the report is the intended one with the first chunk's rows and group sums added a second time |
| FecAnalyze.OneRowExample | script/fec_analyze.py:85-138 | a file of one row reports one row in the corrected model |
| FecAnalyze.AsWrittenExample | script/fec_analyze.py:123-127 | as written, the same one-row file reports two rows |
| FecAnalyze.Reports | script/fec_analyze.py:145-155 | over the corrected per-file report (ProcessFile, first chunk once): the reports of the files that did not raise, in file order, never more than the files |
| FecAnalyze.StateTotalsAt | script/fec_analyze.py:143-152 | over the corrected per-file reports, the grand state total of a key is the sum of that key over the successful files, and the key is present exactly when some such file has it |
| FecAnalyze.RunAnalysis | script/fec_analyze.py:140-155 | the corrected `main`, built on the corrected per-file report: it keeps one inventory row per successful file, in order, and merges their rollups into the grand totals; a file that raises contributes nothing |
| Metrics.SmallPairsSum | us_congress_pipeline/src/pipeline/metrics.py:15 | summing the filtered (candidate, amount) pairs for a candidate gives its receipts of at most 200, summed |
| Metrics.SmallGroups | us_congress_pipeline/src/pipeline/metrics.py:15-27 | the grouped small sums, read with a missing group as 0 as the left merge and `fillna(0)` do, are each candidate's small-dollar total |
| Metrics.FinanceSummary | us_congress_pipeline/src/pipeline/metrics.py:11-30 | one row per candidate-totals row, in totals order, holding its receipts and its small-dollar sum |
| Metrics.SmallDollarNone | us_congress_pipeline/src/pipeline/metrics.py:15-27 | a candidate with no receipt of at most 200 (a missing amount is never small) has a small-dollar total of 0 |
| Metrics.SmallDollarAppend | us_congress_pipeline/src/pipeline/metrics.py:15 | small-dollar totals add up over two receipt tables |
| Metrics.RecordCount | us_congress_pipeline/src/pipeline/metrics.py:43 | a legislator's record count never exceeds the number of records |
| Metrics.UnityCount | us_congress_pipeline/src/pipeline/metrics.py:41-44 | a legislator's unity records are among their records |
| Metrics.CountPairsSum | us_congress_pipeline/src/pipeline/metrics.py:42-43 | the grouped count of a legislator is their number of records |
| Metrics.UnityPairsSum | us_congress_pipeline/src/pipeline/metrics.py:41-44 | the grouped unity sum of a legislator is their number of unity records |
| Metrics.VoteGroups | us_congress_pipeline/src/pipeline/metrics.py:42-45 | the `groupby("bioguide_id")` groups are the legislators with records, holding their record and unity counts |
| Metrics.VoteSummary | us_congress_pipeline/src/pipeline/metrics.py:33-50 | one row per legislator with records; participation is their record count over the number of votes (None when there are no votes); unity is their unity records over their records |
| Metrics.UnityIsFraction | us_congress_pipeline/src/pipeline/metrics.py:42-45 | every legislator's unity lies in [0, 1] |
| Metrics.FinanceMatches | us_congress_pipeline/src/pipeline/metrics.py:57 | the finance rows that the left merge joins to a candidate all belong to that candidate |
| Metrics.RowsFor | us_congress_pipeline/src/pipeline/metrics.py:57 | a left merge keeps every link: at least one row per link |
| Metrics.Alignment | us_congress_pipeline/src/pipeline/metrics.py:53-61 | the merged table has at least one row per link |
| Metrics.FinanceMatchesUnique | us_congress_pipeline/src/pipeline/metrics.py:16-57 | with one finance row per candidate, a link matches at most one finance row |
| Metrics.AlignmentOneRowPerLink | us_congress_pipeline/src/pipeline/metrics.py:57-58 | with one finance row per candidate, the alignment table has exactly one row per link, in link order, and each row's flag is receipts above 100000 and unity below 0.5, a missing value comparing false |
| Metrics.AlignmentFlagged | us_congress_pipeline/src/pipeline/metrics.py:58 | every row's flag is the flag rule applied to its merged receipts and unity |
| Metrics.UnmatchedNeverFlagged | us_congress_pipeline/src/pipeline/metrics.py:57-58 | a link without a finance row or without a vote summary is never flagged |
| Metrics.AlignmentSteps | us_congress_pipeline/src/pipeline/metrics.py:70-72 | the nested loops run one alignment per pair of cycle and congress |
| Metrics.AlignmentCell | us_congress_pipeline/src/pipeline/metrics.py:70-72 | the alignment of cycle i and congress j is step i * (number of congresses) + j: cycles outermost |
| Metrics.MetricsPlanOrder | us_congress_pipeline/src/pipeline/metrics.py:64-72 | every finance summary comes first, then every vote summary, then the alignments |
| Metrics.AppendRow | us_congress_pipeline/src/pipeline/metrics.py:71-72 | the inner loop appends cycle `cycle` against every congress, in order |
| Metrics.FinanceLoop | us_congress_pipeline/src/pipeline/metrics.py:66-67 | the first loop runs a finance summary per cycle, in order |
| Metrics.VoteLoop | us_congress_pipeline/src/pipeline/metrics.py:68-69 | the second loop appends a vote summary per congress, in order |
| Metrics.AlignmentLoop | us_congress_pipeline/src/pipeline/metrics.py:70-72 | the nested loops append the alignment steps |
| Metrics.BuildMetrics | us_congress_pipeline/src/pipeline/metrics.py:64-72 | `build_metrics` runs exactly the plan whose order `MetricsPlanOrder` states |
| Link.FirstXwalk | us_congress_pipeline/src/pipeline/link.py:19 | the first crosswalk row of a legislator; None exactly when the legislator has no row |
| Link.CandidateIds | us_congress_pipeline/src/pipeline/link.py:19-20 | fails exactly when the legislator has no crosswalk row (`.iloc[0]` on an empty selection); otherwise every ID is a non-empty piece without `;` |
| Link.LinksOf | us_congress_pipeline/src/pipeline/link.py:21-30 | every link carries the cycle, the legislator, method "yaml_direct" and score 1.0, and an ID both in the list and in the FEC file |
| Link.LinksOfAppend | us_congress_pipeline/src/pipeline/link.py:21-23 | links follow FEC-file order: the links of a split file are those of its two halves |
| Link.LinksOfOne | us_congress_pipeline/src/pipeline/link.py:21-30 | each FEC row gives one link exactly when its ID is listed, so duplicate FEC rows give duplicate links |
| Link.MatchedLinks | us_congress_pipeline/src/pipeline/link.py:21-30 | the loop over the matched rows appends exactly the links of the FEC file in order |
| Link.LinkLegislatorsCandidates | us_congress_pipeline/src/pipeline/link.py:11-31 | the nested loops, cycles outermost and legislators in file order inside, compute the linking specification, including its failure |
| Link.AllLinksValid | us_congress_pipeline/src/pipeline/link.py:15-30 | every link carries a requested cycle, method "yaml_direct" and score 1.0, and an ID both in its legislator's crosswalk list and in that cycle's FEC file |
| Link.MissingXwalkFails | us_congress_pipeline/src/pipeline/link.py:19 | when a cycle's file exists, one legislator without a crosswalk row makes the whole linking fail |
| Link.CrosswalkRoundTrip | us_congress_pipeline/src/pipeline/link.py:20 | a crosswalk cell written as the `;`-join of non-empty IDs without `;` reads back as exactly those IDs |
| ExtractLegislators.LoadPeople | us_congress_pipeline/src/pipeline/extract_legislators.py:13-21 | the people of each file that exists, file after file |
| ExtractLegislators.PresentAppend | us_congress_pipeline/src/pipeline/extract_legislators.py:16-20 | the people of two lists of files are the people of each, in order |
| ExtractLegislators.CurrentThenHistorical | us_congress_pipeline/src/pipeline/extract_legislators.py:14-21 | the current legislators come before the historical ones, and a missing file adds nobody |
| ExtractLegislators.PartyOf | us_congress_pipeline/src/pipeline/extract_legislators.py:34-37 | the party of the last term, and None when there are no terms |
| ExtractLegislators.FecCell | us_congress_pipeline/src/pipeline/extract_legislators.py:45-50 | a missing `fec` key gives "", and a single string passes through unchanged |
| ExtractLegislators.Extract | us_congress_pipeline/src/pipeline/extract_legislators.py:24-51 | one legislator row and one crosswalk row per person, in order, with the same BioGuide ID at each index; names are None when absent |
| ExtractLegislators.CrosswalkFeedsLink | us_congress_pipeline/src/pipeline/extract_legislators.py:45-50 | the IDs written for a person (non-empty, without `;`) are exactly what `link` reads back for them, none for an empty list or no `fec` key |
| ExtractVotes.Suffix | us_congress_pipeline/src/pipeline/extract_votes.py:17 | `Path.suffix`: "" or a dot-led tail, shorter than the name, ending the name, with no further dot |
| ExtractVotes.SuffixOf | us_congress_pipeline/src/pipeline/extract_votes.py:17 | the suffix of `stem.ext` is `.ext`, except that it is "" when the stem or the extension is empty |
| ExtractVotes.JsonName | us_congress_pipeline/src/pipeline/extract_votes.py:17-20 | a name ending ".json" after a non-empty stem selects the JSON parser |
| ExtractVotes.CapitalJsonNameIsXml | us_congress_pipeline/src/pipeline/extract_votes.py:17-23 | the comparison is case-sensitive: ".JSON" selects the XML parser |
| ExtractVotes.DotJsonIsXml | us_congress_pipeline/src/pipeline/extract_votes.py:17-23 | a file named just ".json" has no suffix, so it selects the XML parser |
| ExtractVotes.JsonRecords | us_congress_pipeline/src/pipeline/extract_votes.py:38-41 | one record per entry, in order, each tagged with the vote ID; it fails exactly when some entry lacks "id" or "vote" |
| ExtractVotes.FromJson | us_congress_pipeline/src/pipeline/extract_votes.py:25-42 | fails exactly on a missing "vote_id" or a record lacking "id"/"vote"; the vote row copies the fields (None when absent), the bill from key "bill"; one record per "records" entry (none without the key), each with the vote ID |
| ExtractVotes.XmlVoteId | us_congress_pipeline/src/pipeline/extract_votes.py:46 | the `vote_id` text, or "unknown" when the element is missing or empty; never "" |
| ExtractVotes.FlattenAppend | us_congress_pipeline/src/pipeline/extract_votes.py:59 | the `records/record` elements of two runs of `records` children are those of each, in document order |
| ExtractVotes.FromXml | us_congress_pipeline/src/pipeline/extract_votes.py:44-65 | the vote row carries the vote ID and the children's texts; one record per `records/record` element in document order, each with the vote ID and its `id` and `vote` texts (None when missing) |
| ExtractVotes.ParseFile | us_congress_pipeline/src/pipeline/extract_votes.py:16-23 | a ".json" name is parsed by the JSON parser and any other name by the XML parser, which succeeds on every XML document |
| ExtractVotes.ParseFileMethod | us_congress_pipeline/src/pipeline/extract_votes.py:16-23 | computes `ParseFile`, by the loop of `FromXml` on XML files |
| ExtractVotes.Extract | us_congress_pipeline/src/pipeline/extract_votes.py:68-84 | parses the XML files, then the JSON files, appending each file's tables; any failure aborts |
| ExtractVotes.ExtractShape | us_congress_pipeline/src/pipeline/extract_votes.py:73-84 | one vote row per file, and both tables are written exactly when at least one file was found |
| ExtractVotes.XmlBeforeJson | us_congress_pipeline/src/pipeline/extract_votes.py:73-80 | with an XML file present, the first vote row is the first XML file's |
| Votes.Normalise | src/votes.py:88-93 | Aye and Yea become "Yes", Nay and No become "No", and any other cast is kept verbatim |
| Votes.LegacyPairs | src/votes.py:80-81 | one assignment per legacy record, in order; a record missing `member_id` or `vote_position` raises |
| Votes.ItemPairs | src/votes.py:89-93 | every assignment comes from an item with a truthy `bioguideId` and `voteCast`, with its cast normalised |
| Votes.ParseMemberPositions | src/votes.py:68-95 | the two loops of overwriting assignments compute the legacy assignments followed by the API assignments |
| Votes.LegacyFails | src/votes.py:80-81 | a bad record anywhere makes the whole call raise |
| Votes.NeitherKeyIsEmpty | src/votes.py:77-95 | an input with neither key gives an empty mapping |
| Votes.NonObjectResultsIgnored | src/votes.py:84-85 | a `results` value that is not a dict is ignored entirely |
| Votes.LegacyLastWins | src/votes.py:80-81 | a member's last legacy record decides their position, unless an API item names them |
| Votes.ItemOverrides | src/votes.py:84-93 | an API item overrides every legacy record for its member; the last counting item decides |
| Votes.PositionsKeys | src/votes.py:80-93 | the members in the result are exactly those named by a legacy record or by a counting API item |
| Votes.LastNaming | src/votes.py:89-93 | among the items naming a member there is a last one |
| Votes.VoteList | src/votes.py:39-42 | the `houseRollCallVote` value inside `houseRollCallVotes`, an empty list without the outer key; an outer value that is not a dict raises |
| Votes.RollCallVote | src/votes.py:61-65 | the first truthy of `houseRollCallVoteMemberVotes` and `houseRollCallVote`, else the whole payload |
| Badges.AssignBadges | src/badges.py:9-41 | the guarded appends compute the specification: a missing `member_id`, or a present but empty `top_industries`, raises; otherwise the badges of the rules that fire |
| Badges.EarnedIff | src/badges.py:14-39 | a rule's badge is in the result exactly when the rule fires |
| Badges.EarnedCodes | src/badges.py:11-39 | every badge is a rule's badge with the member's ID, and the codes come in rule order, each at most once |
| Badges.BadgeRules | src/badges.py:9-41 | WALL_STREET_WONT_LIKE_IT iff conflicts >= 3 and index <= 0.35; HEALTHCARE_INDEPENDENT iff "Healthcare" is listed and pharma >= 2; DEFENSE_ALIGNED iff "Defense" is listed and index >= 0.65; SMALL_DOLLARS_HEAVY iff PAC share <= 0.2 and small share >= 0.4; INDUSTRY_LEAN_UNKNOWN iff the first industry is "Unknown"; rule order, distinct codes, the member's ID |
| Badges.AbsentFinanceNoBadge | src/badges.py:14-17 | with either finance field absent, the defaults 0 and 1.0 keep the Wall Street badge from firing |
| Badges.ExampleSummary | tests/test_badge_rules.py:4-18 | the test's summary earns exactly the Wall Street and Small Dollars badges, in that order |
| Badges.RuleIndexOf | src/badges.py:18-39 | the five codes are distinct, so each names its own rule |
| Fec.LinkPairs | src/fec.py:57-61 | the loop's assignments, one per member in input order: member ID and the mapping's list for the bioguide (or []), or the KeyError of a member missing either key |
| Fec.LinkMembersToCandidates | src/fec.py:45-61 | the dictionary loop computes the assignments applied in order to an empty dictionary |
| Fec.LinkedIds | src/fec.py:58-60 | a member ID maps to the mapping's list for the bioguide of the last member carrying it, [] when the bioguide is absent |
| Fec.LinkedKeys | src/fec.py:57-61 | the keys of the result are exactly the member IDs of the input |
| Fec.LastRequested | src/fec.py:67-76 | the page at which the loop stops: on every earlier page the loop went on, on that page it does not |
| Fec.FetchAllPages | src/fec.py:64-77 | the results of pages 1, 2, … concatenated in page order until the first page whose reported count is at most its number; `params["page"]` ends equal to the last page requested, and no other parameter changes |
| Fec.NoPaginationOneRequest | src/fec.py:72-75 | a response without pagination ends the loop after one request, returning that page's results |
| Fec.ConsistentCount | src/fec.py:66-77 | when every response reports `n` pages, the loop returns pages 1..n concatenated and stops at page n |
| Fec.TwoPages | tests/test_fec_api.py:4-19 | two pages both reporting two pages give page 1's record, then page 2's |
| Fec.LocalTotals | src/fec.py:116-121 | a row is kept exactly when its `candidate_id` is the input ID and `str()` of its cycle is the cycle's decimal text, in file order |
| Fec.MissingCycleNeverMatches | src/fec.py:120 | a row without a cycle prints as "None" and so never matches any cycle |
| Fec.BulkTotals | src/fec.py:91-92 | a bulk row is kept exactly when its CAND_ID equals the upper-cased ID |
| Fec.BulkScheduleE | src/fec.py:144 | a bulk row is kept exactly when its `cand_id` equals the ID as given |
| Fec.CaseOfIds | src/fec.py:91-92 | for an ID with a lower-case letter, the totals filter keeps the row carrying the upper-cased ID while the Schedule E filter drops it |
| Fec.TotalsOrigin | src/fec.py:107-113 | the bulk download is used exactly when `bulk` is set; the local file exactly when `bulk` is not set and the file exists |
| Fec.FetchCandidateTotals | src/fec.py:95-130 | bulk, else the local filter, else every page of the API, as the origin says |
| Fec.FetchIndependentExpenditures | src/fec.py:147-172 | with `bulk` set the Schedule E bulk filter, otherwise every page of the API |
| Normalize.Truncate | src/normalize.py:62 | Python `int()` of a float rounds toward zero: the result is within one of the value, on the zero side |
| Normalize.DateOf | src/normalize.py:30-33 | a missing or empty date gives no date; any other string succeeds exactly when it parses as `%Y-%m-%d`, and then gives that date |
| Normalize.NormalizeContributions | src/normalize.py:22-65 | the append loop converts every record in order, or raises the error of the first record that fails |
| Normalize.NullNumberFails | src/normalize.py:52-62 | a present `null` amount or cycle makes the conversion fail, as `float(None)` and `int(None)` raise, unlike a missing one |
| Normalize.ConvertFields | src/normalize.py:43-62 | each output carries its record's fields under the model's names, amount 0 and cycle 0 when absent, and no date when the date is missing or empty |
| Normalize.FormattedDateKept | src/normalize.py:30-33 | a record whose date is a formatted valid date gets that same date back |
| Normalize.NormalizeShape | src/normalize.py:24-65 | the output has one contribution per record in input order exactly when every record converts |
| VoterHistory.MethodOf | src/voter_history.py:22 | the method is None exactly when it is missing or empty, and otherwise is the text as given |
| VoterHistory.ParseVoterHistory | src/voter_history.py:12-25 | the append loop converts every row in file order, or raises the error of the first row missing a required key or carrying a bad date |
| VoterHistory.ConvertFields | src/voter_history.py:18-23 | the voter ID is copied verbatim, the date is the parsed `%Y-%m-%d` date, participation holds exactly when the field lower-cases to "true", and the method is as MethodOf says |
| VoterHistory.ParticipationSpellings | src/voter_history.py:21 | "True" and "TRUE" count as participation; "false", "yes" and "" do not |
| Members.Chamber | src/members.py:23-24 | "sen" becomes "Senate" and "rep" becomes "House"; any other term type is kept as it is |
| Members.RepoRow | src/members.py:19-33 | the row carries the entry's BioGuide ID and names; with no terms the chamber is "" and party and state are absent; otherwise party and state come from the last term |
| Members.LoadFromRepo | src/members.py:14-35 | one row per entry of the file, in file order, each as RepoRow says |
| Members.SourcePath | src/members.py:40-48 | a non-empty configured directory is used exactly when its file exists, and then the `data/` file is never consulted; without a directory, the `data/` file is used when it exists; otherwise the API |
| Members.FetchMembers | src/members.py:38-61 | the rows of the chosen file, or the API's members of every page reached by next URLs together with the requests made |
| CongressApi.FirstParams | src/bills.py:23-26 | the first request sends format "json" and the limit, plus `fromDateTime` exactly when a non-empty date is given, and nothing else |
| CongressApi.CallsFrom | src/bills.py:29-33 | the first request goes to the endpoint with the first parameters; every request sends the API key; every later request sends no parameters |
| CongressApi.FollowNext | src/bills.py:27-34 | the `while url:` loop gathers the listed items of every page reached by next URLs, in page order, and makes the CallsFrom requests |
| CongressApi.Chain | src/bills.py:29-33 | a chain of n responses, each with a next URL except the last, gives the concatenation of all their items after exactly n requests |
| CongressApi.FailureNamesLastCall | src/bills.py:30 | a failed fetch names the URL of its last request |
| CongressApi.FailsIffUnanswered | src/bills.py:29-33 | the fetch fails exactly when the next URLs lead to more requests than there are responses |
| Bills.FetchBills | src/bills.py:11-34 | bills under `bills.bill` of every page reached, and the requests made for them |
| Bills.TwoPagesOfBills | src/bills.py:24-33 | two pages, the first pointing at a next URL: both bills in order; the first request filters by date and sends the key; the second goes to the next URL without parameters |
| Records.FetchRecords | src/records.py:11-25 | entries under `congressionalRecord.record` of every page reached, and the requests made for them |
| PullBills.Summarise | scripts/pull_bills.py:45-51 | a summary carries the bill's congress, number and title; action and date come from `latestAction`, and both are absent when it is missing or null |
| PullBills.FirstUrl | scripts/pull_bills.py:39 | the first URL is the bill endpoint with format and limit, ending in the API key parameter |
| PullBills.Summaries | scripts/pull_bills.py:44-51 | one summary per listed bill, in order |
| PullBills.PullFrom | scripts/pull_bills.py:40-54 | the generator's first request goes to the URL it starts from |
| PullBills.SummariseAll | scripts/pull_bills.py:44-51 | the inner loop yields the page's summaries in order |
| PullBills.FetchAll | scripts/pull_bills.py:29-54 | the `while url:` loop yields the bills of each page in page order, stops at an error status or a request with no answer, and next URLs get the key appended |
| PullBills.EveryUrlCarriesKey | scripts/pull_bills.py:39-54 | every URL requested, the first and each next URL, ends with `&api_key=` and the key |
| PullBills.SavedBills | scripts/pull_bills.py:58 | `list(fetch_all(limit=20))` is the bills of pages of 20 when the generator finishes, and nothing when it raises |
| PullBills.OnePage | scripts/pull_bills.py:40-53 | one successful page without a next URL gives its bills, summarised, after a single request |
| Accountability.Amount | scripts/build_accountability_data.py:22-32 | a missing or empty cell is 0; any other cell must read as a number, and gives that number |
| Accountability.PacShare | scripts/build_accountability_data.py:24-25 | the PAC share times the total is the PAC money; with a zero total the share is 0 |
| Accountability.SummaryOf | scripts/build_accountability_data.py:21 | a converted row names its member |
| Accountability.SummaryFields | scripts/build_accountability_data.py:21-32 | a row converts exactly when it has `member_id` and its three amounts read; total is PAC plus individual money, all of it out of state, 0 in state, and the PAC money is of industry "Unknown" |
| Accountability.BuildDonorRecords | scripts/build_accountability_data.py:11-33 | the loop assigns each row's donor record and alignment index in turn, and a missing summary file raises FileNotFoundError |
| Accountability.LastRowWins | scripts/build_accountability_data.py:26-32 | a member named by several rows keeps the donor record and alignment index of the last |
| Accountability.SameMembers | scripts/build_accountability_data.py:20-32 | the donor and alignment maps have the same keys: the members some row names |
| Accountability.AwardOf | scripts/build_accountability_data.py:44-46 | a badge row converts exactly when it has member, code and label, and gives the award with that key and label |
| Accountability.GroupSpec | scripts/build_accountability_data.py:43-47 | every member with a badge row is a key, holding that member's awards in file order, at least one; no other member is a key |
| Accountability.BuildAwardsRecords | scripts/build_accountability_data.py:35-48 | the grouping of the badge rows, and an empty result when the badge file is missing |
| MembersCsv.NormalizeParty | script/build-members-csv.js:35-42 | an absent or empty party is ""; a party starting with "dem", "rep" or "ind" in any case becomes D, R or I, checked in that order; anything else is kept as it is |
| MembersCsv.Parts | script/build-members-csv.js:47-48 | the name parts kept are the non-empty ones |
| MembersCsv.FormatName | script/build-members-csv.js:45-51 | the official full name when present, else the parts joined by spaces, else "Unknown"; never empty |
| MembersCsv.FecIds | script/build-members-csv.js:86 | a list of FEC IDs as given, a non-empty single ID as a one-element list, otherwise none |
| MembersCsv.RowFrom | script/build-members-csv.js:79-101 | the name is FormatName's, the state that of the last term (or ""), the district is present exactly for a last term of type "rep" that names one, and the party cell is NormalizeParty of the last term's party (or "" without terms) |
| MembersCsv.RowOf | script/build-members-csv.js:80-99 | the corrected row carries the entry's BioGuide ID (or "") and its FEC IDs joined by commas |
| MembersCsv.AsWrittenLosesIds | script/build-members-csv.js:80-86 | read as written, from `leg.ids`, every row has an empty BioGuide ID and no FEC IDs, whatever the entry holds |
| MembersCsv.AsWrittenExample | script/build-members-csv.js:80-86 | a senator entry with BioGuide ID A000360 and one FEC ID loses both as written |
| MembersCsv.CorrectedExample | script/build-members-csv.js:79-101 | the same entry keeps A000360 and its FEC ID once the `id` block is read |
| MembersCsv.RepublicanIsR | script/build-members-csv.js:39 | "Republican" normalises to "R" |
| MembersCsv.Rows | script/build-members-csv.js:79 | one corrected row (RowOf, reading `id`) per legislator, in input order |
| MembersCsv.Current | script/build-members-csv.js:104 | exactly the rows with a state |
| MembersCsv.Chamber | script/build-members-csv.js:107-108 | the House rows are those with a district, the Senate rows those without, drawn from the given rows |
| MembersCsv.Sort | script/build-members-csv.js:110-113 | sorting keeps every row, once |
| MembersCsv.SortOrdered | script/build-members-csv.js:110-113 | the sorted rows follow the comparator: House rows by state then district number, Senate rows by state |
| MembersCsv.NotBeforeTransitive | script/build-members-csv.js:110-113 | the comparators are transitive |
| MembersCsv.NotBeforeEither | script/build-members-csv.js:110-113 | the comparators are total |
| MembersCsv.RosterSpec | script/build-members-csv.js:104-115 | the roster holds exactly the rows with a state, each once; House rows sorted first, then Senate rows sorted |
| MembersCsv.ArrangeKeeps | script/build-members-csv.js:107-115 | splitting by chamber and sorting each part keeps every row, each as often as before |
| MembersCsv.ArrangeOrder | script/build-members-csv.js:107-115 | the House rows come first in (state, district) order, followed by the Senate rows in state order |
| MembersCsv.SplitByDistrict | script/build-members-csv.js:107-108 | the House and Senate selections together are all the rows, each once |
| MembersCsv.Build | script/build-members-csv.js:66-132 | the corrected script, built on the corrected rows: a failed download or a document that is not a list is an error; otherwise the file text |
| MembersCsv.CsvReadsBack | script/build-members-csv.js:118-132 | the corrected file reads back, record by record, as the header and each roster row's six cells |
| Csv.Doubled | script/build-members-csv.js:57 | doubling quotes never shortens the text |
| Csv.Escape | script/build-members-csv.js:54-60 | a field without a comma, quote or line feed is kept as it is; any other is wrapped in quotes |
| Csv.QuotedDoubled | script/build-members-csv.js:57 | a field with its quotes doubled and a closing quote reads back as the original, leaving what follows |
| Csv.FieldEscape | script/build-members-csv.js:54-60 | every escaped field reads back as the original, leaving what follows it |
| Csv.RecordLine | script/build-members-csv.js:121-128 | a line of escaped fields joined by commas reads back as those fields |
| Csv.RoundTrip | script/build-members-csv.js:119-132 | the lines joined by line feeds read back as the records they were written from |
| FecBuild.TrimAll | arafatforcongress-org-WALL-ready/data/scripts/fec-build.js:107 | every piece is trimmed, in order |
| FecBuild.ParseFecIds | arafatforcongress-org-WALL-ready/data/scripts/fec-build.js:265-268 | no parsed FEC ID is empty |
| FecBuild.BlankCell | arafatforcongress-org-WALL-ready/data/scripts/fec-build.js:265 | a missing or empty cell gives no IDs |
| FecBuild.ParsedHaveNoComma | arafatforcongress-org-WALL-ready/data/scripts/fec-build.js:265-268 | no parsed ID holds a comma |
| FecBuild.ParseJoined | arafatforcongress-org-WALL-ready/data/scripts/fec-build.js:265-268 | non-empty, trimmed IDs without commas, joined by commas, parse back as the same list |
| FecBuild.Normalise | arafatforcongress-org-WALL-ready/data/scripts/fec-build.js:259-269 | a falsy BioGuide ID becomes null and any other is kept; the FEC IDs are the parsed list; the other fields are copied |
| FecBuild.NormaliseAll | arafatforcongress-org-WALL-ready/data/scripts/fec-build.js:259 | one normalised member per row, in order |
| FecBuild.Present | arafatforcongress-org-WALL-ready/data/scripts/fec-build.js:72-74 | only parameters with a value are set, each as given |
| FecBuild.FecQuery | arafatforcongress-org-WALL-ready/data/scripts/fec-build.js:67-74 | the query is the URL's own parameters, then the key, then `per_page=100` unless already there, then each present parameter, later settings winning |
| FecBuild.QueryKeys | arafatforcongress-org-WALL-ready/data/scripts/fec-build.js:70-71 | the key is always sent, and `per_page` is the URL's own or 100, unless a parameter overrides them |
| FecBuild.Latest | arafatforcongress-org-WALL-ready/data/scripts/fec-build.js:92-95 | no totals exactly when there are no results; otherwise the earliest result holding the greatest cycle, a missing cycle counting 0 (the sort is stable) |
| FecBuild.HeadlineOf | arafatforcongress-org-WALL-ready/data/scripts/fec-build.js:136-146 | the headline copies the totals' fields, the individual and PAC aliases equal to their originals |
| FecBuild.EntriesOf | arafatforcongress-org-WALL-ready/data/scripts/fec-build.js:102-151 | one donor entry per member, in order |
| FecBuild.BestOf | arafatforcongress-org-WALL-ready/data/scripts/fec-build.js:110-125 | the loop over a member's IDs keeps the running best, replacing it only on strictly greater receipts; an ID whose fetch fails is skipped |
| FecBuild.BestSpec | arafatforcongress-org-WALL-ready/data/scripts/fec-build.js:110-125 | there is a best exactly when some ID produced totals; it is one of the member's IDs with its own totals, and its receipts are at least every other's |
| FecBuild.FailingIdSkipped | arafatforcongress-org-WALL-ready/data/scripts/fec-build.js:122-124 | an ID whose fetch fails leaves the best as that of the other IDs |
| FecBuild.BuildDonorsByMember | arafatforcongress-org-WALL-ready/data/scripts/fec-build.js:102-151 | the loop pushes each member's entry in order |
| FecBuild.EntriesSpec | arafatforcongress-org-WALL-ready/data/scripts/fec-build.js:127-148 | each entry keeps its member's BioGuide ID and FEC IDs, and has totals exactly when some ID produced them |
| FecBuild.DonorIds | arafatforcongress-org-WALL-ready/data/scripts/fec-build.js:105-108 | the donor build's re-parse succeeds exactly on text, giving the same IDs; on an array it raises the TypeError |
| FecBuild.TextCellAgrees | arafatforcongress-org-WALL-ready/data/scripts/fec-build.js:105-108 | handed the CSV text, the donor build reads the very IDs the members file holds |
| FecBuild.RunAsWritten | arafatforcongress-org-WALL-ready/data/scripts/fec-build.js:248-274 | without a key or without member rows the run falls back to the demo data |
| FecBuild.LiveRunCrashes | arafatforcongress-org-WALL-ready/data/scripts/fec-build.js:259-273 | every live run as written writes the members file and then stops with the TypeError |
| FecBuild.BuildRun | arafatforcongress-org-WALL-ready/data/scripts/fec-build.js:248-274 | the corrected run: the demo fallback without a key or rows, otherwise the members file and one donor entry per member |
| PullVotes.Get | script/pull-votes.mjs:48-61 | optional chaining yields a field only of an object that has it |
| PullVotes.Take | script/pull-votes.mjs:53 | `slice(0, 200)` gives a prefix of at most that length, the whole text when it is shorter |
| PullVotes.Key | script/pull-votes.mjs:51-53 | without a truthy roll number the key is a prefix of the item's JSON text, at most 200 characters long |
| PullVotes.KeyOf | script/pull-votes.mjs:51-53 | the key function gives each item its key |
| PullVotes.FirstIndex | script/pull-votes.mjs:54 | a found index holds an item with that key |
| PullVotes.FirstIndexNone | script/pull-votes.mjs:54 | no item has the key exactly when the key is not among the items' keys |
| PullVotes.DedupKeys | script/pull-votes.mjs:49-58 | every key of the input occurs among the kept items, and no other |
| PullVotes.DedupDistinct | script/pull-votes.mjs:54-57 | the kept items have pairwise distinct keys |
| PullVotes.DedupFirst | script/pull-votes.mjs:54-57 | each kept item is the first item of the input with its key |
| PullVotes.DedupOrder | script/pull-votes.mjs:49-58 | the kept items come in the order of their first occurrences |
| PullVotes.DedupStep | script/pull-votes.mjs:54-57 | one more item is appended exactly when its key is unseen |
| PullVotes.ItemsOf | script/pull-votes.mjs:48 | the items are `votes` when it is a list, and none when none of `votes`, `results` and `data` is present |
| PullVotes.NextOf | script/pull-votes.mjs:61 | a next URL is never empty, and a falsy `pagination.next` ends the loop |
| PullVotes.WithKey | script/pull-votes.mjs:64-66 | the URL with the key set carries `api_key=` |
| PullVotes.Keyed | script/pull-votes.mjs:63-67 | every next URL carries `api_key=`; one that already does is kept as it is |
| PullVotes.FirstUrl | script/pull-votes.mjs:23-32 | the first URL is the list endpoint with the date window, format json, limit 250 and the key, in that order |
| PullVotes.PageOf | script/pull-votes.mjs:40-67 | a page goes on only after an ok answer, with a keyed next URL; a non-ok answer stops with the status, the URL and the body; a request with no answer fails |
| PullVotes.Requested | script/pull-votes.mjs:39-40 | the first request goes to the URL the loop starts from |
| PullVotes.Pull | script/pull-votes.mjs:4-81 | without a key the run stops with "Missing CONGRESS_API_KEY" |
| PullVotes.EveryRequestKeyed | script/pull-votes.mjs:23-67 | every URL requested carries `api_key=` |
| PullVotes.NonOkAborts | script/pull-votes.mjs:41-44 | a non-ok answer stops the run with its status and body, whatever came before |
| PullVotes.KeepNew | script/pull-votes.mjs:49-58 | the inner loop appends the page's items whose keys are unseen, in order, and keeps `seen` the set of kept keys |
| PullVotes.PullFrom | script/pull-votes.mjs:34-69 | once the items before a request are known, the run's outcome is that request's failure or the de-duplication of all the items |
| PullVotes.FetchPage | script/pull-votes.mjs:40-67 | one request: the status check, the items and the next URL, as PageOf says |
| PullVotes.FetchAllVotes | script/pull-votes.mjs:34-70 | the `while (url)` loop gives the de-duplicated votes of every page, or the error it stops with, and requests the Requested URLs |
| CollectVotes.Or | scripts/pull-votes.mjs:38-41 | `a \|\| b` is `a` when it is truthy, otherwise `b` |
| CollectVotes.WithBioguide | scripts/pull-votes.mjs:28 | exactly the offenders with a truthy BioGuide ID are kept |
| CollectVotes.FilterAfterLoop | scripts/pull-votes.mjs:22-28 | filtering after the loop gives the same list as filtering in it |
| CollectVotes.OffendersSpec | scripts/pull-votes.mjs:20-29 | an offender is exactly a No or Nay position with a truthy BioGuide ID, carrying that member's name, party and state |
| CollectVotes.MissingVoteIsNoNay | scripts/pull-votes.mjs:23 | a position without a vote is never an offender |
| CollectVotes.NayIgnoresCase | scripts/pull-votes.mjs:23-24 | the vote counts exactly when it is "no" or "nay" in any case |
| CollectVotes.OffendersFromRoll | scripts/pull-votes.mjs:20-29 | the loop and filter give the reference list of offenders, in roll order |
| CollectVotes.RollId | scripts/pull-votes.mjs:36 | every roll-call key starts with the chamber and a dash |
| CollectVotes.EntryFields | scripts/pull-votes.mjs:37-45 | the title falls back from the question to the description to the bill's title to "Roll Call", the short name from the bill's number to the question to "RC n"; award, offending votes and roll-call reference are as listed; the offenders are the roll's |
| CollectVotes.Pairs | scripts/pull-votes.mjs:35-37 | one key and entry per listed roll call, in order |
| CollectVotes.CollectChamber | scripts/pull-votes.mjs:31-48 | the loop assigns each roll call under its key in list order |
| CollectVotes.ChamberKeys | scripts/pull-votes.mjs:35-37 | the keys are those of the listed roll calls |
| CollectVotes.ChamberPrefix | scripts/pull-votes.mjs:36 | every key starts with the chamber |
| CollectVotes.ChamberLast | scripts/pull-votes.mjs:37 | a key holds the entry of the last roll call with it |
| CollectVotes.NoVotesNoEntries | scripts/pull-votes.mjs:35 | a page without votes gives an empty dictionary |
| CollectVotes.EncodeComponent | scripts/pull-votes.mjs:33 | text of unreserved characters only is not changed by the encoding |
| CollectVotes.Run | scripts/pull-votes.mjs:5-50 | without a key the run stops with "CONGRESS_API_KEY missing"; a non-ok House answer stops it with the House URL; an ok House answer and a non-ok Senate answer stop it with the Senate URL; two ok answers give the House entries merged with the Senate entries, whose keys are both chambers' keys and which keep every House entry |
| CollectVotes.MergeKeepsBoth | scripts/pull-votes.mjs:50 | House and Senate keys never clash, so the merge keeps every House entry |
| CollectVotes.DisjointMerge | scripts/pull-votes.mjs:50 | maps whose keys start with "house-" and "senate-" are disjoint, and the merge keeps the first map's entries |
| PullDonors.Ratio | script/pull-donors.mjs:16-33 | the PAC share and the small-dollar share: with a non-zero total the share times the total is the part; with a zero total it is 0 |
| PullDonors.StateSplit | script/pull-donors.mjs:22-26 | in-state and out-of-state dollars add up to the by-state total, a row counting in state exactly when its state is the member's |
| PullDonors.SplitByState | script/pull-donors.mjs:22-26 | the by-state loop sums the rows of the member's state and the others separately |
| PullDonors.SumBySize | script/pull-donors.mjs:31-32 | the by-size loop sums every row's total and, separately, those of the size-0 bin |
| PullDonors.SmallShareBounded | script/pull-donors.mjs:31-33 | with non-negative totals the small money lies between 0 and the total, and the small share in [0, 1] |
| PullDonors.FailedRequestsGiveZeros | script/pull-donors.mjs:14-30 | a member whose three requests all fail gets a record of zeros and no industries |
| PullDonors.PullAll | script/pull-donors.mjs:2-36 | without a key the script fails with "Missing FEC_API_KEY"; otherwise the loop assigns each member with an FEC ID its record under its BioGuide ID, in member order |
| PullDonors.ProfileKeys | script/pull-donors.mjs:8-35 | the keys are the BioGuide IDs of the members with an FEC ID; members without one are skipped |
| PullDonors.LastMemberWins | script/pull-donors.mjs:35 | a member with an FEC ID and no later member under the same key owns its record |
| Alignments.AlignedAtMostSeen | script/build-alignments.mjs:8-13 | a member offends on at most as many money votes as are seen |
| Alignments.IndexBounded | script/build-alignments.mjs:14 | the index lies in [0, 1]; it is 0 when no money vote was seen or the member offended on none; otherwise it times the money votes is the member's offending votes |
| Alignments.OtherVotesIgnored | script/build-alignments.mjs:10 | a vote whose title matches none of campaign, finance, lobby, dark and ethic, in any case, changes no index |
| Alignments.Tally | script/build-alignments.mjs:7-13 | the inner loop counts the money votes and those on which the member is an offender |
| Alignments.BuildAlignments | script/build-alignments.mjs:5-15 | one entry per donor key, holding that member's index |
| OffenderCounts.Keys | scripts/build-alignments.mjs:10 | one key per offender, in order, an undefined BioGuide field counting as "undefined" |
| OffenderCounts.CountSpec | scripts/build-alignments.mjs:10 | the counted keys are those that occur, each holding its number of occurrences |
| OffenderCounts.CountedImpliesTotal | scripts/build-alignments.mjs:8-10 | a counted key comes from some counted roll call, so the total is at least 1 |
| OffenderCounts.SkippedVote | scripts/build-alignments.mjs:8 | a roll call without a list of offenders adds to neither the counts nor the total |
| OffenderCounts.ShareClose | scripts/build-alignments.mjs:14 | `+(n/total).toFixed(3)` is within half a thousandth of the exact quotient |
| OffenderCounts.Tally | scripts/build-alignments.mjs:5-11 | the loops count the roll calls with a list of offenders and each offender key's occurrences |
| OffenderCounts.AddOffenders | scripts/build-alignments.mjs:10 | the inner loop adds one to the count of each offender's key, in order |
| OffenderCounts.BuildAlignments | scripts/build-alignments.mjs:5-14 | the output has one entry per counted key, holding its count and rounded share |
| OffenderCounts.AlignmentsSpec | scripts/build-alignments.mjs:7-14 | a key has an entry exactly when some counted roll call lists it; the entry holds its number of listings, at least 1, and a share within half a thousandth of that count over the roll calls counted |
| Validate.Known | script/validate.mjs:8 | the known set holds exactly the members' BioGuide fields, undefined included |
| Validate.UnknownSnoc | script/validate.mjs:12 | one more entry adds one unknown exactly when it is not known |
| Validate.OffenderWarningCount | script/validate.mjs:11-13 | a roll call gives one warning per offender whose ID is not a member's |
| Validate.KeyWarningCount | script/validate.mjs:15-16 | the donor and alignment loops give one warning per key that is not a member's |
| Validate.VoteWarningCount | script/validate.mjs:10-14 | the vote loops give one warning per unknown offender entry, over all roll calls |
| Validate.BadCount | script/validate.mjs:9-16 | the issue count is the unknown offender entries plus the unknown donor keys plus the unknown alignment keys |
| Validate.NoOffendersNoIssues | script/validate.mjs:11 | a roll call without offenders adds no issue |
| Validate.AllGoodIffNoIssues | script/validate.mjs:17 | "All good" is printed exactly when there is no issue |
| Validate.Check | script/validate.mjs:8-17 | the three loops print the warnings in order, `bad` counts them, and the summary line follows from `bad` |
| SeedVotes.Pages | script/seed-votes-from-bills.mjs:5 | exactly the files whose names end in ".html" in any case |
| SeedVotes.Title | script/seed-votes-from-bills.mjs:9 | the title is the file name without its ".html" suffix, whatever its case |
| SeedVotes.DashSpaces | script/seed-votes-from-bills.mjs:11 | no whitespace is left, and only dashes are added |
| SeedVotes.DropMarks | script/seed-votes-from-bills.mjs:12 | none of `()'&` is left, and nothing is added |
| SeedVotes.CollapseDashes | script/seed-votes-from-bills.mjs:13 | no two dashes are left in a row, and nothing is added |
| SeedVotes.KeyShape | script/seed-votes-from-bills.mjs:10-13 | the key has no whitespace, none of `()'&`, no upper-case ASCII letter and no two dashes in a row |
| SeedVotes.Find | script/seed-votes-from-bills.mjs:16 | the first index where the text occurs, and none when it does not occur |
| SeedVotes.RunBefore | script/seed-votes-from-bills.mjs:16 | the start of the longest whitespace run ending at the index |
| SeedVotes.RunAfter | script/seed-votes-from-bills.mjs:16 | the end of the longest whitespace run starting at the index |
| SeedVotes.ShortSpec | script/seed-votes-from-bills.mjs:16 | with a "(2027)" tag, the short title is the title without its first tag and the whitespace around it |
| SeedVotes.Pairs | script/seed-votes-from-bills.mjs:8-23 | one key and entry per page, in directory order |
| SeedVotes.Seed | script/seed-votes-from-bills.mjs:7-24 | the loop assigns each page's entry under its key, a later page overwriting an earlier one |
| SeedVotes.EntriesShape | script/seed-votes-from-bills.mjs:14-23 | every page's entry is under its key, with its title, short title, link to the page, and no award, meaning or offenders |
| PullMembers.Photo | script/pull-members.mjs:3 | the photo URL is the 225x275 image base, the BioGuide ID and ".jpg" |
| PullMembers.PhotoInjective | script/pull-members.mjs:3 | two legislators share a photo URL only when they share a BioGuide ID |
| PullMembers.NormalizeParty | script/pull-members.mjs:5 | the code is the party's first character upper-cased, and "" exactly when the party is absent or empty |
| PullMembers.PartyLabel | script/pull-members.mjs:6 | a label exactly for D, R and I, starting with the code's letter; "" for any other code |
| PullMembers.LabelRoundTrip | script/pull-members.mjs:5-6 | a label normalises back to its own code, so code and label always agree |
| PullMembers.KnownParties | script/pull-members.mjs:5-6 | "Democrat", "republican" and "Independent" get their labels; "Libertarian" gets none |
| PullMembers.CurrentTerm | script/pull-members.mjs:12 | the last term, or a term with no fields when there is none |
| PullMembers.DisplayNameJoins | script/pull-members.mjs:16 | a first and a last name without surrounding spaces are joined by one space |
| PullMembers.FirstFec | script/pull-members.mjs:20 | the first FEC ID of a list, "" when there is none; on a single string, at most its first character |
| PullMembers.EntryFields | script/pull-members.mjs:14-22 | each entry carries the BioGuide ID and its photo; the chamber is "senate" exactly for a Senate term and "house" otherwise; a district exactly for a House term with a non-zero one; a label exactly for D, R and I; the state is "" exactly when the term has none |
| PullMembers.MembersAppend | script/pull-members.mjs:10-23 | the entries of two blocks of legislators are the entries of each, in order |
| PullMembers.SkippedWithoutId | script/pull-members.mjs:11 | a legislator without a BioGuide ID adds nothing and moves nothing |
| PullMembers.MembersFromInput | script/pull-members.mjs:10-23 | every entry comes from a listed legislator of the input, and there are at most as many entries as legislators |
| PullMembers.ListedAreKept | script/pull-members.mjs:10-23 | every legislator with a BioGuide ID has its entry |
| PullMembers.CollectMembers | script/pull-members.mjs:9-23 | the loop pushes one entry per legislator with a BioGuide ID, in input order |
| PullMembers.PullUnchecked | script/pull-members.mjs:8-23 | the status is not looked at: a body that reads as a list gives its entries, any other body fails |
| PullMembers.PullChecked | scripts/pull-members.mjs:14-32 | a non-ok response fails with `HTTP <status>` before the body is read; otherwise as the unchecked pull |
| FrontendUtils.FmtMoney | accountability/assets/js/utils.js:3 | "—" for null or undefined; otherwise "$" followed by the number as the locale writes it |
| FrontendUtils.PartyLabel | accountability/assets/js/utils.js:4 | a full name exactly for D, R and I, "—" otherwise |
| FrontendUtils.LabelsAgree | accountability/assets/js/utils.js:4 | the page and the members list give the same label for every known code and differ only in the placeholder |
| FrontendUtils.FirstGood | accountability/assets/js/utils.js:8-13 | the first path whose attempt answers ok with JSON; every earlier one threw or failed; none exactly when all fail |
| FrontendUtils.FetchFirstJson | accountability/assets/js/utils.js:6-16 | the loop returns the JSON of the first path that answers, skipping any that throws or is not ok; when none does it throws the error listing every path |
| FrontendUtils.Candidates | accountability/assets/js/utils.js:20-24 | three places are tried, each ending in `data/` and the file name |
| FrontendUtils.LoadFilePreference | accountability/assets/js/utils.js:37-75 | the copy next to the page wins; `../data/` is tried next, then `/data/`; when none answers the loader gives `{}` |
| FrontendUtils.LoadersFallBack | accountability/assets/js/utils.js:37-75 | when no path answers, every loader gives `{}` |
| FrontendUtils.PartyOf | accountability/assets/js/utils.js:30 | the party is at most one character, neither lower-case nor whitespace |
| FrontendUtils.NormaliseStep | accountability/assets/js/utils.js:26-32 | each element assigns its card under its BioGuide ID, and an element without one is skipped |
| FrontendUtils.Normalise | accountability/assets/js/utils.js:25-33 | the loop assigns each element's card in order; a null element makes it throw, which gives `{}` |
| FrontendUtils.LoadMembers | accountability/assets/js/utils.js:18-35 | the normalised cards of the first answering members file; any failure gives `{}` |
| FrontendUtils.PairsShape | accountability/assets/js/utils.js:27-31 | every card is keyed by a non-empty BioGuide ID, shows that ID and has a photo |
| FrontendUtils.MembersLoadedShape | accountability/assets/js/utils.js:18-35 | every card of the page is under its own non-empty BioGuide ID and has a photo, a placeholder if need be |
| FrontendUtils.ReadBack | accountability/assets/js/utils.js:27-31 | an entry the members script writes reads back with the same ID, name, state and photo |
| FrontendUtils.PartyReadBack | accountability/assets/js/utils.js:30 | a one-letter upper-case party code reads back unchanged |
| FrontendUtils.NullEntryEmpties | accountability/assets/js/utils.js:26-34 | one null element makes `loadMembers` give `{}`, whatever else the list holds |
| Wrappers.MapAll | src/normalize.py:24-65 | the conversion of a list succeeds exactly when every element converts, and then holds each element's result in order |
| Wrappers.MapAllFirstFailure | src/voter_history.py:17-24 | a loop that appends converted elements raises the error of the first element that fails |
| Text.Lower | src/voter_history.py:21 | lower-casing keeps the length and lower-cases each ASCII letter |
| Text.Upper | src/fec.py:91 | upper-casing keeps the length and upper-cases each ASCII letter |
| Text.SplitJoin | us_congress_pipeline/src/pipeline/link.py:20 | splitting a joined list gives the list back when no piece contains the separator |
| Text.SplitJoinNonEmpty | us_congress_pipeline/src/pipeline/link.py:20 | keeping the non-empty pieces of a split recovers non-empty, separator-free IDs, the empty list included |
| Text.TrimWithin | arafatforcongress-org-WALL-ready/data/scripts/fec-build.js:267 | trimming only removes characters |
| Text.LessTransitive | script/build-members-csv.js:111-113 | the string order `localeCompare` stands for is transitive |
| Text.LessTotal | script/build-members-csv.js:111-113 | two different strings are ordered one way or the other |
| Maps.AssignAllKeys | src/fec.py:57-61 | a dictionary filled by assignments has the keys of its start and of every pair assigned |
| Maps.AssignAllLast | src/fec.py:58-60 | the value left at a key is that of the last pair assigning it |
| Maps.AssignAllUntouched | src/fec.py:57-61 | a key no pair assigns keeps its starting value, or stays absent |
| Maps.AddTotalsCommutes | script/fec_analyze.py:144-155 | merging running totals does not depend on the order of the two maps |
| Maps.SumByKeyAt | script/fec_analyze.py:114-117 | the groups of a groupby-sum are the keys that occur, each holding the sum of its amounts |
| Maps.SumByKeyAppend | script/fec_analyze.py:123-127 | summing two blocks of rows separately and adding the sums is summing them together |
| Maps.AddInto | script/fec_analyze.py:116-117 | `d[k] = d.get(k, 0.0) + v` over a map's items adds it into the running totals, key by key |
| Dates.ParseIso | src/normalize.py:30-33 | `strptime(s, "%Y-%m-%d")` accepts only valid calendar dates |
| Dates.Padded | src/normalize.py:32 | a padded field has exactly the width, all digits |
| Dates.PaddedValue | src/normalize.py:32 | a padded field reads back as its number |
| Dates.ParseFormat | src/normalize.py:30-33 | every valid date reads back from its YYYY-MM-DD form |
| Dates.NoLeapDay2023 | src/voter_history.py:20 | "2023-02-29" does not parse, 2023 being no leap year |

## Left out

- HTTP, caching and retries (src/utils.py, the download scripts, the photo fetcher): API responses are a finite sequence given as a parameter, and running past it is a request failure.
- The download and unzip steps of the bulk helpers in src/fec.py (lines 80-92 and 133-144): the bulk tables arrive already read.
- `fetch_candidate_ids` and `fetch_contributions` in src/fec.py: single requests around the paging loop, which is modelled.
- The proxy agent and the request headers that the JavaScript fetchers set without reading them back.
- File reading and writing, the console and process exit: each script's output is the value it would write.
- script/fec_analyze.py: the numeric-ratio and median fallback of `pick_amount_col` (lines 33-44) needs pandas' `to_numeric` and median, so only the name phase is modelled. When no column name matches, as in a headerless file, the model finds no amount column and the file's report has no group sums. The source would instead sum the column its fallback picks.
- script/fec_analyze.py: `read_chunked` and the delimited-text parsing are I/O, so a file arrives as chunks of cells.
- script/fec_analyze.py: the per-chunk `nlargest(1000)` is not modelled, because pandas leaves the order of ties open. The name rollup keeps every group.
- script/fec_analyze.py: regular expressions are case-insensitive substring tests, except `\bst\b`, which is a word test on ASCII.
- Metrics: the party majority is an abstract function, because `idxmax` tie-breaking is pandas-specific. The inner merge that silently drops records with a NaN party is not modelled.
- src/analyze.py: a sigmoid of a logarithm on floats. Floating point is not modelled, and money is an exact `real`.
- `toFixed(3)` in scripts/build-alignments.mjs is modelled as exact rounding half up on rationals, not on binary floats.
- `toLocaleString` in accountability/assets/js/utils.js is a parameter of FrontendUtils.FmtMoney. The `debounce` timer there is not modelled.
- scripts/pull-donors.mjs: its substance is a concurrent worker pool over a shared queue. Only script/pull-donors.mjs, the sequential version, is modelled.
- The command-line front ends (src/cli.py, us_congress_pipeline/src/pipeline/cli.py), which only dispatch to the modelled functions.
- The ORM and schema files (src/models.py, sql_models.py): their fields give the datatype shapes.
- The SQL and CSV loaders.
- Configuration: src/config.py has no `congress_data_dir` setting, although src/members.py reads one. It is a parameter of Members.FetchMembers.
- Features the tests name but the code lacks (`normalize_independent_expenditures`, a `--schedule-e` option): not invented.
- Case mapping and character classes (`upper`, `lower`, `isalpha`, `isupper`, `toUpperCase`, `toLowerCase`) and `localeCompare` are modelled on ASCII letters. So FecAnalyze.LooksStateIff rejects a non-ASCII upper-case letter that Python's `isalpha()` and `isupper()` accept. Other characters are left unchanged, and `localeCompare` is comparison by character code.
- src/normalize.py holds unresolved merge-conflict lines. The model follows the one branch that is complete: `parsed_date`, where an empty or missing date gives None.
- FrontendUtils: a district number in members.json is read as its text, and a string or number element of the members list reads as an object with no keys.
- Python's `int()` and `float()` on text accept plain decimal numerals only. Exponents, `inf`, `nan`, underscores and surrounding blanks are not modelled.
- Badges: a key present with the value `null` reads as missing, so it takes the default. In Python, `None >= 3` raises instead.
- PullVotes.WithKey: appends `api_key` to the URL text; `new URL(url).searchParams.set` would also re-serialise the existing query, place the key before a fragment, reuse a trailing "?" and throw on an invalid URL.
- CollectVotes: a congress, session or roll number that is not numeric, or is `null`, is read as missing. `Number()` would give NaN or 0 for these.

## Findings

| source | as written | input that shows it | evidently intended | confidence | as-written member | corrected member |
|---|---|---|---|---|---|---|
| script/fec_analyze.py:123-127 | the first chunk is rolled up at line 123, and the loop at 125 reads the file again from its first chunk, so those rows are counted twice | a file of one row, state CA, amount 5: the report says 2 rows instead of 1 | every row counted once | high, not executed | FecAnalyze.AsWrittenCountsFirstChunkTwice | FecAnalyze.ReportSumsEachRowOnce |
| arafatforcongress-org-WALL-ready/data/scripts/fec-build.js:105 | `buildDonorsByMember` calls `.split(",")` on `fec_ids`, which the live run has already turned into an array (lines 259-269) | any live run: an API key and a roster of at least one row; the run throws a TypeError after writing members.json | the donor build uses the parsed list as it is | high, not executed | FecBuild.LiveRunCrashes | FecBuild.BuildRun |
| script/build-members-csv.js:80 | the row builder reads `leg.ids`, but the legislator entries keep their IDs under `id` | the entry of BioGuide A000360 with FEC ID S2TN00058: its row has empty BioGuide and FEC cells | read `leg.id` | high, not executed | MembersCsv.AsWrittenLosesIds | MembersCsv.RowOf |
