/** The filter's output handed to the analyzer, as the stages run one after the other. */
module Pipeline {
  import opened Jobs
  import opened Text
  import opened Filter
  import opened Ranking
  import opened Analyzer

  /**
   * Ranking the filtered records drops none and invents none: every ranked
   * record is the analysis of a record the filter kept, so it carries its
   * `filter_reason` and passes the remoteness rule.
   */
  lemma RankedRecordsWereKept(jobs: seq<JobRecord>, minSal: nat, country: string, jobTitle: string)
    ensures |SortedByScore(AnalysesOf(Filtered(jobs, minSal, country), jobTitle))| == |Filtered(jobs, minSal, country)|
    ensures forall r | r in SortedByScore(AnalysesOf(Filtered(jobs, minSal, country), jobTitle)) ::
      r.job.filterReason == Some(FilterReason(true, country, minSal))
      && exists k :: 0 <= k < |RemoteKeywords| && Contains(RemoteText(r.job), RemoteKeywords[k])
  {
    var kept := Filtered(jobs, minSal, country);
    RankedOutput(kept, jobTitle);
    KeptRecordsPassAllRules(jobs, minSal, country);
    forall r | r in SortedByScore(AnalysesOf(kept, jobTitle))
      ensures r.job in kept
    {
      var i :| 0 <= i < |kept| && r == Analysis(kept[i], i, jobTitle);
    }
  }
}
