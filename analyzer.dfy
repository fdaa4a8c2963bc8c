/**
 * The quality analyzer: scores each record, rates how hard it is to apply,
 * attaches the fixed strategies and a recommendation, and ranks the list by
 * score, highest first.
 */
module Analyzer {
  import opened Jobs
  import opened Text
  import opened Ranking

  const SeniorityKeywords: seq<string> := ["senior", "lead", "principal", "staff"]
  const HighKeywords: seq<string> := ["senior", "lead", "principal"]
  const LowKeywords: seq<string> := ["junior", "entry", "associate"]
  const PrimarySources: seq<string> := ["WeWorkRemotely", "RemoteOK", "Remote.co"]
  const DemoSource: string := "Demo"
  const Strategies: seq<string> := [
    "Tailor resume to highlight remote work experience",
    "Emphasize relevant technical skills in cover letter",
    "Research company culture and values before applying",
    "Prepare for video interview setup and remote work questions"
  ]
  const InvalidFilteredData: string := "Error: Invalid filtered jobs data"

  function Bonus(signal: bool, points: nat): nat
  {
    if signal then points else 0
  }

  predicate IsSenior(title: string)
  {
    ContainsAny(Lower(title), SeniorityKeywords)
  }

  /**
   * The score before clamping: for the sample source, 85 plus two per record
   * analyzed before this one; otherwise 50 plus a bonus per quality signal.
   */
  function RawScore(job: JobRecord, index: nat): int
  {
    if job.source == DemoSource then 85 + 2 * index
    else 50 + Bonus(HasSalaryText(job), 20) + Bonus(IsSenior(job.title), 15) + Bonus(job.source in PrimarySources, 10)
  }

  function DifficultyOf(title: string): Difficulty
  {
    if ContainsAny(Lower(title), HighKeywords) then High
    else if ContainsAny(Lower(title), LowKeywords) then Low
    else Medium
  }

  /** The analysis of `job` when it is the `index`-th record analyzed; the recommendation reads the unclamped score. */
  function Analysis(job: JobRecord, index: nat, jobTitle: string): AnalyzedJob
  {
    var raw := RawScore(job, index);
    AnalyzedJob(
      job,
      if raw < 100 then raw else 100,
      DifficultyOf(job.title),
      Strategies,
      if raw > 70 then GoodFit(jobTitle) else ConsiderFor(jobTitle))
  }

  /** One pass of the analyzer's loop body: the score is built up step by step. */
  method AnalyzeJob(job: JobRecord, index: nat, jobTitle: string) returns (analyzed: AnalyzedJob)
    ensures analyzed == Analysis(job, index, jobTitle)
  {
    var title := job.title;
    var source := job.source;

    var qualityScore := 50;
    if job.salary.Some? && job.salary.value != "" {
      qualityScore := qualityScore + 20;
    }
    if ContainsAny(Lower(title), SeniorityKeywords) {
      qualityScore := qualityScore + 15;
    }
    if source in PrimarySources {
      qualityScore := qualityScore + 10;
    }
    if source == DemoSource {
      qualityScore := 85 + index * 2;
    }

    var difficulty := Medium;
    if ContainsAny(Lower(title), HighKeywords) {
      difficulty := High;
    } else if ContainsAny(Lower(title), LowKeywords) {
      difficulty := Low;
    }

    analyzed := AnalyzedJob(
      job,
      if qualityScore < 100 then qualityScore else 100,
      difficulty,
      Strategies,
      if qualityScore > 70 then GoodFit(jobTitle) else ConsiderFor(jobTitle));
  }

  /** The analyses in input order, each record numbered by its position. */
  function AnalysesOf(jobs: seq<JobRecord>, jobTitle: string): (r: seq<AnalyzedJob>)
    ensures |r| == |jobs|
    decreases |jobs|
  {
    if jobs == [] then []
    else AnalysesOf(jobs[..|jobs| - 1], jobTitle) + [Analysis(jobs[|jobs| - 1], |jobs| - 1, jobTitle)]
  }

  method JobAnalyzerTool(data: Payload<JobRecord>, jobTitle: string) returns (out: ToolOutput<AnalyzedJob>)
    ensures data.Undecodable? ==> out == ErrorMessage(InvalidFilteredData)
    ensures data.Decoded? ==> out == Output(SortedByScore(AnalysesOf(data.records, jobTitle)))
  {
    if data.Undecodable? {
      return ErrorMessage(InvalidFilteredData);
    }
    var jobs := data.records;
    var analyzedJobs: seq<AnalyzedJob> := [];

    for i := 0 to |jobs|
      invariant analyzedJobs == AnalysesOf(jobs[..i], jobTitle)
    {
      assert jobs[..i + 1][..i] == jobs[..i];
      var analyzed := AnalyzeJob(jobs[i], |analyzedJobs|, jobTitle);
      analyzedJobs := analyzedJobs + [analyzed];
    }
    assert jobs[..|jobs|] == jobs;

    var ranked := new AnalyzedJob[|analyzedJobs|](k requires 0 <= k < |analyzedJobs| => analyzedJobs[k]);
    assert ranked[..] == analyzedJobs;
    SortByScoreInPlace(ranked);
    out := Output(ranked[..]);
  }

  /** The `k`-th analysis is that of the `k`-th record, numbered `k`. */
  lemma {:induction false} AnalysesOfAt(jobs: seq<JobRecord>, jobTitle: string, k: nat)
    requires k < |jobs|
    ensures AnalysesOf(jobs, jobTitle)[k] == Analysis(jobs[k], k, jobTitle)
    decreases |jobs|
  {
    if k < |jobs| - 1 {
      AnalysesOfAt(jobs[..|jobs| - 1], jobTitle, k);
    }
  }

  /**
   * The score never exceeds 100. For the sample source it is 85 plus two per
   * earlier record, clamped; otherwise it is 50 plus 20 for a salary, 15 for
   * a seniority keyword and 10 for a primary site, between 50 and 95.
   */
  lemma ScoreRules(job: JobRecord, index: nat, jobTitle: string)
    ensures Analysis(job, index, jobTitle).qualityScore <= 100
    ensures job.source == DemoSource ==>
      Analysis(job, index, jobTitle).qualityScore == if 85 + 2 * index < 100 then 85 + 2 * index else 100
    ensures job.source != DemoSource ==>
      50 <= Analysis(job, index, jobTitle).qualityScore <= 95
      && Analysis(job, index, jobTitle).qualityScore == RawScore(job, index)
  {
  }

  /** Reading the unclamped score for the recommendation agrees with reading the reported one. */
  lemma RecommendationFollowsScore(job: JobRecord, index: nat, jobTitle: string)
    ensures Analysis(job, index, jobTitle).recommendation ==
      if Analysis(job, index, jobTitle).qualityScore > 70 then GoodFit(jobTitle) else ConsiderFor(jobTitle)
  {
  }

  /** "staff" earns the seniority bonus but, unlike "senior", "lead" and "principal", not a High difficulty. */
  lemma StaffScoresButIsNotHigh(job: JobRecord, index: nat, jobTitle: string)
    requires job.source != DemoSource
    requires Contains(Lower(job.title), "staff")
    requires forall k :: 0 <= k < |HighKeywords| ==> !Contains(Lower(job.title), HighKeywords[k])
    ensures RawScore(job, index) == 65 + Bonus(HasSalaryText(job), 20) + Bonus(job.source in PrimarySources, 10)
    ensures Analysis(job, index, jobTitle).difficulty != High
  {
    assert SeniorityKeywords[3] == "staff";
  }

  /**
   * The ranked output has one record per input record: it is a permutation of
   * the analyses, ordered by score with ties in input order, and each element
   * is the analysis of some input record at its input position, keeping all
   * of that record's fields.
   */
  lemma RankedOutput(jobs: seq<JobRecord>, jobTitle: string)
    ensures |SortedByScore(AnalysesOf(jobs, jobTitle))| == |jobs|
    ensures multiset(SortedByScore(AnalysesOf(jobs, jobTitle))) == multiset(AnalysesOf(jobs, jobTitle))
    ensures Descending(SortedByScore(AnalysesOf(jobs, jobTitle)))
    ensures forall v :: WithScore(SortedByScore(AnalysesOf(jobs, jobTitle)), v) == WithScore(AnalysesOf(jobs, jobTitle), v)
    ensures forall r | r in SortedByScore(AnalysesOf(jobs, jobTitle)) ::
      r.qualityScore <= 100 && exists i :: 0 <= i < |jobs| && r == Analysis(jobs[i], i, jobTitle)
  {
    var analyses := AnalysesOf(jobs, jobTitle);
    var out := SortedByScore(analyses);
    SortedByScoreIsPermutation(analyses);
    SortedByScoreIsDescending(analyses);
    assert |out| == |multiset(out)| == |multiset(analyses)| == |analyses|;
    forall v ensures WithScore(out, v) == WithScore(analyses, v) {
      SortedByScoreIsStable(analyses, v);
    }
    forall r | r in out
      ensures r.qualityScore <= 100 && exists i :: 0 <= i < |jobs| && r == Analysis(jobs[i], i, jobTitle)
    {
      assert r in multiset(analyses);
      var i :| 0 <= i < |analyses| && analyses[i] == r;
      AnalysesOfAt(jobs, jobTitle, i);
    }
  }
}
