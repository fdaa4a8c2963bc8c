/** Concrete records run through the model. */
module Scenarios {
  import opened Jobs
  import opened Text
  import opened Salary
  import opened Filter
  import opened Analyzer

  function Posting(title: string, source: string, salary: Option<string>): JobRecord
  {
    JobRecord(title, "Acme", source, "Remote", "Remote position", None, salary, None)
  }

  lemma SeniorPrimaryPostingScores95()
    ensures Analysis(Posting("Senior Backend Engineer", "RemoteOK", Some("$140,000")), 0, "Backend Engineer")
      == AnalyzedJob(Posting("Senior Backend Engineer", "RemoteOK", Some("$140,000")), 95, High, Strategies, GoodFit("Backend Engineer"))
  {
    var job := Posting("Senior Backend Engineer", "RemoteOK", Some("$140,000"));
    var r := Lower(job.title);
    assert |r| == 23;
    assert r[0] == 's' && r[1] == 'e' && r[2] == 'n' && r[3] == 'i' && r[4] == 'o' && r[5] == 'r';
    assert r[..6] == "senior";
    assert Contains(r, SeniorityKeywords[0]) && Contains(r, HighKeywords[0]);
    assert IsSenior(job.title);
    assert DifficultyOf(job.title) == High;
    assert HasSalaryText(job) && job.source in PrimarySources;
    assert RawScore(job, 0) == 95;
  }

  lemma ThirdDemoRecordScores89(title: string, salary: Option<string>)
    ensures Analysis(Posting(title, "Demo", salary), 2, "Backend Engineer").qualityScore == 89
  {
  }

  const CommaSalary: string := "90k, 120k"
  const DollarSalary: string := "$90k - $120k"

  // The scanner is run over the two salary texts one piece at a time, from
  // the right: each lemma below adds one piece to the front of the text and
  // one greedy-match step. The texts are spelled as nested concatenations,
  // and the lemmas that need a whole text take it as a parameter equal to
  // the constant, so that the verifier never unfolds the scanner over a
  // long literal in one go.

  lemma CommaTail1()
    ensures Tokens("120" + "k") == ["120"]
  {
    SkipsNonNumbers("k", "");
    assert "k" + "" == "k";
    BareRunToken("120", "k");
  }

  lemma CommaTail2()
    ensures Tokens(" " + ("120" + "k")) == ["120"]
  {
    CommaTail1();
    SkipsNonNumbers(" ", "120" + "k");
  }

  lemma CommaTail3()
    ensures Tokens("," + (" " + ("120" + "k"))) == [",", "120"]
  {
    CommaTail2();
    BareRunToken(",", " " + ("120" + "k"));
  }

  lemma CommaTail4()
    ensures Tokens("k" + ("," + (" " + ("120" + "k")))) == [",", "120"]
  {
    CommaTail3();
    SkipsNonNumbers("k", "," + (" " + ("120" + "k")));
  }

  lemma CommaTokensSplit()
    ensures Tokens("90" + ("k" + ("," + (" " + ("120" + "k"))))) == ["90", ",", "120"]
  {
    CommaTail4();
    BareRunToken("90", "k" + ("," + (" " + ("120" + "k"))));
  }

  lemma CommaTokens(text: string)
    requires text == CommaSalary
    ensures Tokens(text) == ["90", ",", "120"]
  {
    assert text == "90" + ("k" + ("," + (" " + ("120" + "k"))));
    CommaTokensSplit();
  }

  lemma CommaReading(text: string)
    requires text == CommaSalary
    ensures Reading(text) == Unparsable
  {
    CommaTokens(text);
    assert StripMarks(",") == [];
    assert !HasDigits(Tokens(text)[1]);
  }

  /** In "90k, 120k" the comma after "k" is a match of its own, `int('')` raises, and the salary rule keeps the record. */
  lemma CommaAloneMakesSalaryUnparsable()
    ensures Reading(CommaSalary) == Unparsable
    ensures SalaryAdmits(Posting("Engineer", "RemoteOK", Some(CommaSalary)), 100000)
  {
    CommaReading(CommaSalary);
  }

  lemma UpperAmountTokens()
    ensures Tokens("$120k") == ["$120"]
  {
    SkipsNonNumbers("k", "");
    assert "k" + "" == "k";
    DollarRunToken("120", "k");
    assert "$" + "120" + "k" == "$120k";
    assert "$" + "120" == "$120";
  }

  lemma DollarAmountsTokensSplit()
    ensures Tokens("$" + "90" + ("k - " + "$120k")) == ["$90", "$120"]
  {
    UpperAmountTokens();
    SkipsNonNumbers("k - ", "$120k");
    DollarRunToken("90", "k - " + "$120k");
    assert "$" + "90" == "$90";
  }

  lemma DollarAmountsTokens(text: string)
    requires text == DollarSalary
    ensures Tokens(text) == ["$90", "$120"]
  {
    assert text == "$" + "90" + ("k - " + "$120k");
    DollarAmountsTokensSplit();
  }

  lemma {:induction false} DollarAmountsValues()
    ensures Amount("$90") == 90 && Amount("$120") == 120
  {
    assert StripMarks("$90") == "90";
    assert StripMarks("$120") == "120";
    assert DecimalValue("90") == 90 by {
      assert "90"[..1] == "9";
      assert DecimalValue("9") == 9 by { assert "9"[..0] == ""; }
    }
    assert DecimalValue("120") == 120 by {
      assert "120"[..2] == "12";
      assert "12"[..1] == "1";
      assert DecimalValue("1") == 1 by { assert "1"[..0] == ""; }
    }
  }

  lemma DollarAmountsMax()
    ensures HasDigits("$90") && HasDigits("$120")
    ensures MaxAmount(["$90", "$120"]) == 120
  {
    DollarAmountsValues();
    assert StripMarks("$90") != [] && StripMarks("$120") != [];
    assert ["$90", "$120"][1..] == ["$120"];
  }

  lemma DollarAmountsReading(text: string)
    requires text == DollarSalary
    ensures Reading(text) == Highest(120)
  {
    DollarAmountsTokens(text);
    DollarAmountsMax();
  }

  /** A "k" suffix is not part of a match: "$90k - $120k" reads as 120, below a minimum of 100000, and the record is dropped. */
  lemma ThousandsSuffixIsIgnored()
    ensures Reading(DollarSalary) == Highest(120)
    ensures !SalaryAdmits(Posting("Engineer", "RemoteOK", Some(DollarSalary)), 100000)
  {
    DollarAmountsReading(DollarSalary);
  }
}
