/**
 * The job filter: keeps the records that advertise themselves as remote,
 * match the country preference and do not fall below the minimum salary,
 * and marks each kept record with the criteria it was filtered by.
 */
module Filter {
  import opened Jobs
  import opened Text
  import opened Salary

  const RemoteKeywords: seq<string> := ["remote", "worldwide", "anywhere", "work from home", "distributed"]
  const Worldwide: string := "worldwide"
  const InvalidJobsData: string := "Error: Invalid jobs data format"

  /** `int(min_salary) if min_salary.isdigit() else 0`. */
  function ParseMinSalary(minSalary: string): nat
  {
    if IsDecimalText(minSalary) then DecimalValue(minSalary) else 0
  }

  /** The minimum salary reads back every number written in decimal, and anything else as 0. */
  lemma MinSalaryParsing(minSalary: string, n: nat)
    ensures ParseMinSalary(DecimalString(n)) == n
    ensures !IsDecimalText(minSalary) ==> ParseMinSalary(minSalary) == 0
  {
    DecimalRoundTrip(n);
  }

  /** Lowered `location + ' ' + title + ' ' + description`. */
  function RemoteText(job: JobRecord): string
  {
    Lower(job.location) + " " + Lower(job.title) + " " + Lower(job.description)
  }

  /** Lowered `location + ' ' + description`. */
  function LocationText(job: JobRecord): string
  {
    Lower(job.location) + " " + Lower(job.description)
  }

  predicate IsRemote(job: JobRecord)
  {
    ContainsAny(RemoteText(job), RemoteKeywords)
  }

  predicate MatchesCountry(job: JobRecord, country: string)
  {
    Lower(country) == Worldwide
    || Contains(LocationText(job), Lower(country))
    || Contains(LocationText(job), Worldwide)
  }

  /** The salary rule passes a record unless every number in its salary text parses and the largest is below the minimum. */
  predicate SalaryAdmits(job: JobRecord, minSal: nat)
  {
    !(minSal > 0 && HasSalaryText(job))
    || match Reading(job.salary.value)
       case Highest(m) => m >= minSal
       case _ => true
  }

  predicate Keeps(job: JobRecord, minSal: nat, country: string)
  {
    IsRemote(job) && MatchesCountry(job, country) && SalaryAdmits(job, minSal)
  }

  /** `job['filter_reason'] = …`. */
  function Annotate(job: JobRecord, minSal: nat, country: string): JobRecord
  {
    job.(filterReason := Some(FilterReason(true, country, minSal)))
  }

  /** The records of `jobs` that `keep` accepts, each passed through `mark`, in input order. */
  function KeepAndMark(jobs: seq<JobRecord>, keep: JobRecord -> bool, mark: JobRecord -> JobRecord): seq<JobRecord>
    decreases |jobs|
  {
    if jobs == [] then []
    else
      var last := jobs[|jobs| - 1];
      KeepAndMark(jobs[..|jobs| - 1], keep, mark) + (if keep(last) then [mark(last)] else [])
  }

  /** The records of `jobs` the filter keeps, annotated, in input order. */
  function Filtered(jobs: seq<JobRecord>, minSal: nat, country: string): seq<JobRecord>
  {
    KeepAndMark(jobs, job => Keeps(job, minSal, country), job => Annotate(job, minSal, country))
  }

  /** The filter stage; like the source, it defaults to no minimum salary and a worldwide search. */
  method JobFilterTool(data: Payload<JobRecord>, minSalary: string := "0", country: string := Worldwide) returns (out: ToolOutput<JobRecord>)
    ensures data.Undecodable? ==> out == ErrorMessage(InvalidJobsData)
    ensures data.Decoded? ==> out == Output(Filtered(data.records, ParseMinSalary(minSalary), country))
  {
    if data.Undecodable? {
      return ErrorMessage(InvalidJobsData);
    }
    var jobs := data.records;
    var filtered: seq<JobRecord> := [];
    var minSal := ParseMinSalary(minSalary);

    for i := 0 to |jobs|
      invariant filtered == Filtered(jobs[..i], minSal, country)
    {
      assert jobs[..i + 1][..i] == jobs[..i];
      var job := jobs[i];
      var location := Lower(job.location);
      var title := Lower(job.title);
      var description := Lower(job.description);

      var isRemote := ContainsAny(location + " " + title + " " + description, RemoteKeywords);
      if !isRemote {
        continue;
      }

      if Lower(country) != Worldwide {
        var locationText := location + " " + description;
        if !Contains(locationText, Lower(country)) && !Contains(locationText, Worldwide) {
          continue;
        }
      }

      if minSal > 0 && job.salary.Some? && job.salary.value != "" {
        var salaryNumbers := Tokens(job.salary.value);
        if salaryNumbers != [] {
          // A match with no digit makes `int` raise, and the bare `except` keeps the record.
          if forall k :: 0 <= k < |salaryNumbers| ==> HasDigits(salaryNumbers[k]) {
            var maxSalary := MaxAmount(salaryNumbers);
            if maxSalary < minSal {
              continue;
            }
          }
        }
      }

      filtered := filtered + [job.(filterReason := Some(FilterReason(isRemote, country, minSal)))];
    }
    assert jobs[..|jobs|] == jobs;
    out := Output(filtered);
  }

  /** `idx` lists, in increasing order, exactly the positions whose record `keep` accepts, and the output marks those records. */
  lemma {:induction false} KeepAndMarkIsSubsequence(jobs: seq<JobRecord>, keep: JobRecord -> bool, mark: JobRecord -> JobRecord)
    returns (idx: seq<nat>)
    ensures |idx| == |KeepAndMark(jobs, keep, mark)|
    ensures forall k :: 0 <= k < |idx| ==> idx[k] < |jobs| && KeepAndMark(jobs, keep, mark)[k] == mark(jobs[idx[k]])
    ensures forall k, l :: 0 <= k < l < |idx| ==> idx[k] < idx[l]
    ensures forall i :: 0 <= i < |jobs| ==> (i in idx <==> keep(jobs[i]))
    decreases |jobs|
  {
    if jobs == [] {
      idx := [];
    } else {
      var n := |jobs| - 1;
      var prefix := jobs[..n];
      var idx0 := KeepAndMarkIsSubsequence(prefix, keep, mark);
      var out0 := KeepAndMark(prefix, keep, mark);
      var out := KeepAndMark(jobs, keep, mark);
      if keep(jobs[n]) {
        idx := idx0 + [n];
        assert out == out0 + [mark(jobs[n])];
        assert idx[|idx0|] == n && out[|out0|] == mark(jobs[n]);
      } else {
        idx := idx0;
        assert out == out0;
      }
      forall k | 0 <= k < |idx0|
        ensures idx[k] == idx0[k] && out[k] == out0[k] && out0[k] == mark(jobs[idx0[k]])
      {
        assert prefix[idx0[k]] == jobs[idx0[k]];
      }
      forall i | 0 <= i < |jobs|
        ensures i in idx <==> keep(jobs[i])
      {
        if i < n {
          assert prefix[i] == jobs[i];
          assert i in idx <==> i in idx0;
        } else {
          assert n !in idx0;
        }
      }
    }
  }

  /**
   * The filter's output is a subsequence of its input: `idx` lists, in
   * increasing order, the positions of the kept records, which are exactly
   * the positions whose record passes all three rules, and each kept record
   * differs from its original only by the added `filter_reason`.
   */
  lemma FilteredIsSubsequence(jobs: seq<JobRecord>, minSal: nat, country: string) returns (idx: seq<nat>)
    ensures |idx| == |Filtered(jobs, minSal, country)|
    ensures forall k :: 0 <= k < |idx| ==> idx[k] < |jobs| && Filtered(jobs, minSal, country)[k] == Annotate(jobs[idx[k]], minSal, country)
    ensures forall k, l :: 0 <= k < l < |idx| ==> idx[k] < idx[l]
    ensures forall i :: 0 <= i < |jobs| ==> (i in idx <==> Keeps(jobs[i], minSal, country))
  {
    idx := KeepAndMarkIsSubsequence(jobs, job => Keeps(job, minSal, country), job => Annotate(job, minSal, country));
  }

  /** Every kept record carries `filter_reason` and passed the remoteness, country and salary rules. */
  lemma KeptRecordsPassAllRules(jobs: seq<JobRecord>, minSal: nat, country: string)
    ensures forall r | r in Filtered(jobs, minSal, country) :: r.filterReason == Some(FilterReason(true, country, minSal))
    ensures forall r | r in Filtered(jobs, minSal, country) ::
      exists k :: 0 <= k < |RemoteKeywords| && Contains(RemoteText(r), RemoteKeywords[k])
    ensures Lower(country) != Worldwide ==> forall r | r in Filtered(jobs, minSal, country) ::
      Contains(LocationText(r), Lower(country)) || Contains(LocationText(r), Worldwide)
    ensures forall r | r in Filtered(jobs, minSal, country) :: SalaryAdmits(r, minSal)
  {
    var out := Filtered(jobs, minSal, country);
    var idx := FilteredIsSubsequence(jobs, minSal, country);
    forall r | r in out
      ensures r.filterReason == Some(FilterReason(true, country, minSal)) && Keeps(r, minSal, country)
    {
      var k :| 0 <= k < |out| && out[k] == r;
      assert Keeps(jobs[idx[k]], minSal, country);
    }
  }

  /** When the country preference is "worldwide" in any case, the country rule drops nothing. */
  lemma WorldwideDropsNoCountry(jobs: seq<JobRecord>, minSal: nat, country: string)
    requires Lower(country) == Worldwide
    ensures forall j | j in jobs && IsRemote(j) && SalaryAdmits(j, minSal) ::
      Annotate(j, minSal, country) in Filtered(jobs, minSal, country)
  {
    var out := Filtered(jobs, minSal, country);
    var idx := FilteredIsSubsequence(jobs, minSal, country);
    forall j | j in jobs && IsRemote(j) && SalaryAdmits(j, minSal)
      ensures Annotate(j, minSal, country) in out
    {
      var i :| 0 <= i < |jobs| && jobs[i] == j;
      assert i in idx;
      var k :| 0 <= k < |idx| && idx[k] == i;
      assert out[k] == Annotate(j, minSal, country);
    }
  }

  /** With the default arguments, a record is kept exactly when it advertises itself as remote. */
  lemma DefaultsKeepExactlyTheRemoteRecords(job: JobRecord)
    ensures Keeps(job, ParseMinSalary("0"), Worldwide) <==> IsRemote(job)
  {
    assert ParseMinSalary("0") == 0 by {
      assert IsDecimalText("0");
      assert "0"[..0] == [];
    }
    assert Lower(Worldwide) == Worldwide;
  }

  /**
   * The salary rule fails open: a zero minimum, a missing or empty salary,
   * a text with no digit or comma, or a match `int` rejects all pass.
   */
  lemma SalaryRuleFailsOpen(job: JobRecord, minSal: nat)
    ensures minSal == 0 ==> SalaryAdmits(job, minSal)
    ensures !HasSalaryText(job) ==> SalaryAdmits(job, minSal)
    ensures HasSalaryText(job) && (forall i :: 0 <= i < |job.salary.value| ==> !IsNumChar(job.salary.value[i]))
      ==> SalaryAdmits(job, minSal)
    ensures HasSalaryText(job)
      && (exists k :: 0 <= k < |Tokens(job.salary.value)| && !HasDigits(Tokens(job.salary.value)[k]))
      ==> SalaryAdmits(job, minSal)
  {
  }

  /** When every match parses, a record with salary text is dropped exactly when all its amounts, hence their maximum, are below the minimum. */
  lemma SalaryRuleDropsBelowMinimum(job: JobRecord, minSal: nat)
    requires minSal > 0 && HasSalaryText(job)
    requires Tokens(job.salary.value) != []
    requires forall k :: 0 <= k < |Tokens(job.salary.value)| ==> HasDigits(Tokens(job.salary.value)[k])
    ensures !SalaryAdmits(job, minSal) <==>
      forall k :: 0 <= k < |Tokens(job.salary.value)| ==> Amount(Tokens(job.salary.value)[k]) < minSal
  {
  }
}
