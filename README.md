# Remote job hunter: filter and ranker

This project models the two data stages of a remote-job search pipeline in Dafny.
The pipeline scrapes job boards, filters the postings, then scores and ranks them.
The model covers the last two stages of `tools.py`:

- **The job filter** (`job_filter_tool`) walks the scraped records in order. It keeps a record only if it passes three rules:
  - **Remoteness.** The lowered `location + ' ' + title + ' ' + description`, joined with single spaces (tools.py:157), contains one of `remote`, `worldwide`, `anywhere`, `work from home` or `distributed`.
  - **Country.** This rule applies unless the country preference, lowered, is `worldwide`. The lowered `location + ' ' + description` must then contain the lowered country or `worldwide`.
  - **Salary (fails open).** A record is dropped only when all of these hold: the minimum is positive, the record has salary text, every match of `\$?[\d,]+` in that text parses, and the largest match is below the minimum.

  Each kept record gets a `filter_reason`. The minimum salary is `int(min_salary)` when the string is all digits, and 0 otherwise. The arguments default to `"0"` and `"worldwide"` (tools.py:140), and `JobFilterTool` has the same defaults.
- **The quality analyzer** (`job_analyzer_tool`) scores each record, in order:
  - It starts at 50.
  - It adds 20 for salary text, 15 for `senior`/`lead`/`principal`/`staff` in the title, and 10 for a primary source (`WeWorkRemotely`, `RemoteOK`, `Remote.co`).
  - For the sample source `Demo`, the score is replaced by `85 + 2 * (records analyzed so far)`.
  - The reported score is clamped to 100.
  - Difficulty is `High` for `senior`/`lead`/`principal`, else `Low` for `junior`/`entry`/`associate`, else `Medium`.
  - The recommendation depends on whether the *unclamped* score exceeds 70.

  Finally the list is sorted stably by score, highest first.

Modules, one per concern:

- `Jobs` (jobs.dfy): the job record, the fields each stage adds, and the stage inputs and outputs. Input is either a decoded list or undecodable data. Output is either a list or the fixed error string.
- `Text` (text.dfy): ASCII `str.lower`, substring membership, `any(...)` over keywords, `str.isdigit`, and `int`/`str` on decimal text.
- `Salary` (salary.dfy): the left-to-right scan for matches of `\$?[\d,]+`, and how a salary text is read. The reading is `NoNumber`, `Unparsable` (a match with no digit makes `int('')` raise) or `Highest(m)`.
- `Filter` (filter.dfy): the three rules as predicates, and `Filtered` as the specification of the stage. `JobFilterTool` is the stage itself: a `for` loop with `continue` that follows the source branch by branch. Its `ensures` ties its output to `Filtered`.
- `Ranking` (ranking.dfy): the stable descending sort. `SortedByScore` is the specification, with lemmas for order, permutation, stability and idempotence. `SortByScoreInPlace` is an in-place insertion sort on an array, proved equal to it.
- `Analyzer` (analyzer.dfy): the score formula and the per-record analysis. `AnalyzeJob` builds the score with `+=` steps, and `JobAnalyzerTool` is the stage loop followed by the in-place sort.
- `Pipeline` (pipeline.dfy): the filter's output fed to the analyzer.
- `Scenarios` (scenarios.dfy): concrete records and salary texts run through the model.

## Model

| member | source | states |
|---|---|---|
| `Text.ContainsIffOccurs` | tools.py:157-166 | `needle in hay` holds exactly when `needle` occurs as a contiguous slice of `hay` at some position |
| `Text.ContainsAny` | tools.py:157-159 | `any(k in text for k in keywords)` holds exactly when some keyword of the list occurs in the text |
| `Text.DecimalRoundTrip` | tools.py:149 | `int` of the decimal text of `n` gives back `n` |
| `Salary.Tokens` | tools.py:172 | every match has the shape `\$?[\d,]+`; the list of matches is empty exactly when the text has no digit and no comma |
| `Salary.TokensCoverNumChars` | tools.py:172 | the matches lose and invent nothing: with any leading `$` removed, they concatenate to exactly the text's digits and commas, in order |
| `Salary.StripMarks` | tools.py:175 | `replace('$', '').replace(',', '')` on a match leaves only digits, and leaves nothing exactly when the match is all `$` and `,` |
| `Salary.StripMarksOfDigits` | tools.py:175 | removing `$` and `,` leaves a run of digits unchanged |
| `Salary.StripMarksAppend` | tools.py:175 | removing `$` and `,` from a concatenation is the same as removing them from each part and concatenating; with the lemma above and the one-character cases, this fixes the result for every text |
| `Salary.AmountOfDigits` | tools.py:175 | the amount of a match made of a digit run, with or without a leading `$`, is the decimal value of those digits |
| `Salary.AmountSkipsCommas` | tools.py:175 | a comma between two digit runs is a thousands separator: the amount is the decimal value of the two runs joined |
| `Salary.RunLengthOfRun` | tools.py:172 | the greedy run of `[\d,]` at the front of a text is exactly the leading run, up to the first other character |
| `Salary.BareRunToken` | tools.py:172 | `[\d,]+` is greedy: a whole run of digits and commas, up to the first other character, is a single match, and scanning goes on after it |
| `Salary.DollarRunToken` | tools.py:172 | a `$` directly before a run of digits and commas belongs to that run's match |
| `Salary.LoneDollarStartsNoMatch` | tools.py:172 | a `$` not followed by a digit or comma starts no match |
| `Salary.SkipsNonNumbers` | tools.py:172 | characters other than `$`, digits and commas start no match and are skipped |
| `Salary.MaxAmount` | tools.py:175 | `max` of the parsed amounts is at least every amount and equal to one of them |
| `Salary.Reading` | tools.py:172-179 | `NoNumber` exactly when the text has no digit or comma; `Unparsable` exactly when some match has no digit (so `int` raises); otherwise `Highest(m)` with `m` the largest parsed amount |
| `Filter.MinSalaryParsing` | tools.py:149 | the minimum salary reads back every decimal number and reads any non-digit string as 0 |
| `Filter.JobFilterTool` | tools.py:140-185 | undecodable input gives the fixed error string; otherwise the loop's output is exactly `Filtered` of the records, the parsed minimum and the country |
| `Filter.KeepAndMarkIsSubsequence` | tools.py:151-182 | keeping and marking records yields the marked records at increasing input positions, and exactly the positions the rule accepts |
| `Filter.FilteredIsSubsequence` | tools.py:151-182 | the filter's output is a subsequence of its input in input order; it holds exactly the records that pass all three rules, each changed only by the added `filter_reason` |
| `Filter.KeptRecordsPassAllRules` | tools.py:153-181 | every kept record carries its `filter_reason` and contains a remote keyword; when the country is not worldwide, its location text contains the country or `worldwide`; and it passes the salary rule |
| `Filter.WorldwideDropsNoCountry` | tools.py:164-167 | with the country `worldwide` in any case, every remote record that passes the salary rule is kept |
| `Filter.DefaultsKeepExactlyTheRemoteRecords` | tools.py:140-172 | with the default arguments `"0"` and `"worldwide"`, the filter keeps a record exactly when it advertises itself as remote |
| `Filter.SalaryRuleFailsOpen` | tools.py:170-179 | the salary rule keeps the record when the minimum is 0, when the salary is missing or empty, when the text has no digit or comma, or when some match has no digit |
| `Filter.SalaryRuleDropsBelowMinimum` | tools.py:172-177 | when every match parses, a record with salary text is dropped exactly when every parsed amount, and so the maximum, is below the minimum |
| `Ranking.InsertAt` | tools.py:242 | inserting a record into a list puts it right after the leading elements that score strictly higher |
| `Ranking.SortedByScoreIsDescending` | tools.py:242 | the ranked list is ordered by score, highest first |
| `Ranking.SortedByScoreIsPermutation` | tools.py:242 | the ranked list is a permutation of the analyses |
| `Ranking.SortedByScoreIsStable` | tools.py:242 | for every score, the records with that score keep their input order |
| `Ranking.SortedByScoreKeepsDescending` | tools.py:242 | sorting a list already in descending order leaves it unchanged |
| `Ranking.SortedByScoreIsIdempotent` | tools.py:242 | sorting the ranked list again leaves it unchanged |
| `Ranking.SiftRight` | tools.py:242 | one insertion step moves a record past the higher-scoring records after it and leaves the records before it untouched |
| `Ranking.SortByScoreInPlace` | tools.py:242 | the in-place sort leaves the array equal to the stable descending sort of its old contents |
| `Analyzer.AnalyzeJob` | tools.py:199-238 | the score built with `+=` steps, the Demo override, the difficulty chosen by keyword and the recommendation together give exactly the analysis that the score formula defines |
| `Analyzer.JobAnalyzerTool` | tools.py:188-245 | undecodable input gives the fixed error string; otherwise the output is the stable descending sort of the analyses, with each record numbered by its input position |
| `Analyzer.AnalysesOfAt` | tools.py:196-240 | the `k`-th analysis is the analysis of the `k`-th input record with index `k` |
| `Analyzer.ScoreRules` | tools.py:204-216 | the reported score is at most 100; for `Demo` it is `min(85 + 2*i, 100)`; otherwise it is the unclamped sum of base and bonuses, between 50 and 95 |
| `Analyzer.RecommendationFollowsScore` | tools.py:233-236 | using the unclamped score for the recommendation gives the same result as using the reported score: "good fit" exactly when the score exceeds 70 |
| `Analyzer.StaffScoresButIsNotHigh` | tools.py:209-222 | for a non-Demo record, `staff` with no other seniority keyword earns the +15 bonus but not a High difficulty |
| `Analyzer.RankedOutput` | tools.py:231-242 | the ranked list has the input's length, is a permutation of the analyses, is descending and stable, and each element has a score of at most 100 and is the analysis of some input record at its own position |
| `Pipeline.RankedRecordsWereKept` | tools.py:151-242 | the analyzer drops no filtered record, and every ranked record is the analysis of a record the filter kept: it carries its `filter_reason` and contains a remote keyword |
| `Scenarios.SeniorPrimaryPostingScores95` | tools.py:204-236 | a salaried "Senior Backend Engineer" posting from RemoteOK scores 95, has High difficulty and gets a "good fit" recommendation |
| `Scenarios.ThirdDemoRecordScores89` | tools.py:215-216 | a Demo record analyzed third scores 89, whatever its title and salary |
| `Scenarios.CommaTokens` | tools.py:172 | the text `CommaSalary`, "90k, 120k", gives exactly the matches "90", "," and "120" |
| `Scenarios.CommaAloneMakesSalaryUnparsable` | tools.py:172-179 | for "90k, 120k" the lone comma makes `int` fail, so the reading is `Unparsable` and the record passes a minimum of 100000 |
| `Scenarios.DollarAmountsTokens` | tools.py:172 | the text `DollarSalary`, "$90k - $120k", gives exactly the matches "$90" and "$120" |
| `Scenarios.ThousandsSuffixIsIgnored` | tools.py:172-177 | "$90k - $120k" reads as 120, so a minimum of 100000 drops the record |

## Left out

- `job_scraper_tool` (tools.py:10-137) is not modelled: it is HTTP requests, HTML parsing with a foreign library, and pauses. The stages take the scraped records as a sequence.
- `json.loads` and `json.dumps` at the stage boundaries are not modelled. A stage receives either `Decoded(records)` or `Undecodable`. A list element that is not a JSON object, or a top level that is not a list, is not modelled either. Such input is loaded at tools.py:144 and tools.py:192. A number, boolean or `null` at the top level makes `for job in jobs` raise (tools.py:151, tools.py:198). A list element that is not an object makes `job.get` raise (tools.py:153, tools.py:199). A non-empty top-level object is iterated by its keys, and a non-empty top-level string by its characters; `.get` raises on the first one. An empty top-level object or string leaves the loop with nothing to do, and the stage returns `[]` (tools.py:185, tools.py:245), as it does for `Decoded([])`. Records (JSON objects) whose values are not strings are not modelled either. Among records, the source raises only where a string method or `re.findall` reaches a non-string value. For example, a numeric `salary` passes the filter when the minimum is 0, because the salary rule short-circuits on `min_sal > 0` (tools.py:171). It also earns the +20 bonus, which tests only truthiness (tools.py:206). A non-string `source`, `company` or `url` never raises.
- The analysis timestamp (`datetime.now().isoformat()`) is nondeterministic, so `AnalyzedJob` has no timestamp field.
- The `print` calls are left out.
- The `filter_reason` and recommendation sentences are f-string templates. They are modelled by their parameters (`FilterReason(remote, country, minSalary)`, `GoodFit(jobTitle)` / `ConsiderFor(jobTitle)`), not as formatted text.
- `str.lower`, `str.isdigit` and the regex class `\d` are modelled for ASCII only. Python also lowers non-ASCII letters and treats non-ASCII digits as digits.
- From Python 3.11, `int` raises `ValueError` on a string of more than 4300 digits. The model parses decimal text of any length. In the salary rule (tools.py:175) such a match would make the rule fail open under the bare `except`. `int(min_salary)` (tools.py:149) is outside any `try`, so a minimum salary of more than 4300 digits makes the filter raise, where `ParseMinSalary` reads it as a number.
- A missing text key reads as `""` (`job.get(key, '')`), which is how the model's fields are filled. A `null` `title`, `location` or `description` makes `.lower()` raise in the source (tools.py:153-155 and tools.py:209); that case is not modelled. These are the only keys the source lowers. A `null` `source`, `company` or `url` never raises, and a `null` `salary` is falsy, like the model's `None`.
- The filter sets `filter_reason` on each job dictionary in place. The dictionaries come straight from `json.loads`, so no caller can observe that. The model copies the record with the field set.
- Keys other than `title`, `company`, `source`, `location`, `description`, `url`, `salary` and `filter_reason` are not modelled. `JobRecord` has no place for them. The source carries them through both stages unchanged: the filter appends the same dictionary it read (tools.py:181-182), and the analyzer copies it with `**job` (tools.py:232).
- `{**job, ...}` would let the new keys overwrite an existing `quality_score` or `recommendation` key. The model keeps the modelled fields of the original record beside the new fields.
- Python's `list.sort` is the interpreter's built-in stable sort. It is modelled by its contract (`SortedByScore`) and by an in-place insertion sort on an array that meets the same contract. The built-in algorithm itself is not modelled.
- crew.py, agents.py and tasks.py are not modelled: they hold agent and LLM configuration, interactive prompts and the report file. crew.py replaces an empty minimum salary with "0" and an empty country with "worldwide" before the stages run. The model takes both strings as given; with an empty country the substring test matches every record.
