/**
 * The job record that flows between the stages of the remote-job pipeline,
 * and the fields each stage adds to it.
 */
module Jobs {

  datatype Option<T> = None | Some(value: T)

  /** The parameters the filter writes into `filter_reason`; the exact sentence is a template over these. */
  datatype FilterReason = FilterReason(remote: bool, country: string, minSalary: nat)

  /**
   * One posting. A key the dictionary lacks reads as "" for the text fields
   * (the stages only ever use `job.get(key, '')`); `url` and `salary` may be
   * absent or null. `filterReason` is present once the filter has kept the record.
   */
  datatype JobRecord = JobRecord(
    title: string,
    company: string,
    source: string,
    location: string,
    description: string,
    url: Option<string>,
    salary: Option<string>,
    filterReason: Option<FilterReason>)

  datatype Difficulty = Low | Medium | High

  /** "Good fit for {job_title} role" or "Consider for {job_title} position". */
  datatype Recommendation = GoodFit(jobTitle: string) | ConsiderFor(jobTitle: string)

  /** `{**job, 'quality_score': …, …}`: the original record with the analyzer's fields beside it. */
  datatype AnalyzedJob = AnalyzedJob(
    job: JobRecord,
    qualityScore: int,
    difficulty: Difficulty,
    strategies: seq<string>,
    recommendation: Recommendation)

  /** What `json.loads` gives a stage: a list of records, or text it cannot decode. */
  datatype Payload<T> = Decoded(records: seq<T>) | Undecodable

  /** What a stage returns: its list of records, or the fixed error string. */
  datatype ToolOutput<T> = Output(records: seq<T>) | ErrorMessage(text: string)

  /** Python truthiness of the salary value: present, not null and not "". */
  predicate HasSalaryText(job: JobRecord)
  {
    job.salary.Some? && job.salary.value != ""
  }
}
