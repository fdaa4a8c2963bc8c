/**
 * Reading a salary text the way the filter does: every match of the regular
 * expression `\$?[\d,]+` (`re.findall`), each with `$` and `,` removed and
 * passed to `int`, and the largest of them kept. A match left with no digit
 * (a lone `,` or `$,`) makes `int('')` raise.
 */
module Salary {
  import opened Text

  /** A character of the class `[\d,]`. */
  predicate IsNumChar(c: char)
  {
    IsDigit(c) || c == ','
  }

  predicate AllNumChars(s: string)
  {
    forall i :: 0 <= i < |s| ==> IsNumChar(s[i])
  }

  /** Length of the longest prefix of `s` that matches `[\d,]*`. */
  function RunLength(s: string): (n: nat)
    ensures n <= |s|
    ensures AllNumChars(s[..n])
    ensures n < |s| ==> !IsNumChar(s[n])
  {
    if s == [] || !IsNumChar(s[0]) then 0
    else
      var m := RunLength(s[1..]);
      assert s[..1 + m] == [s[0]] + s[1..][..m];
      1 + m
  }

  /** The shape of one match of `\$?[\d,]+`. */
  predicate IsToken(t: string)
  {
    if |t| > 0 && t[0] == '$' then |t| > 1 && AllNumChars(t[1..]) else |t| > 0 && AllNumChars(t)
  }

  /** All non-overlapping matches of `\$?[\d,]+` in `s`, left to right. */
  function Tokens(s: string): (r: seq<string>)
    ensures forall k :: 0 <= k < |r| ==> IsToken(r[k])
    ensures r == [] <==> forall i :: 0 <= i < |s| ==> !IsNumChar(s[i])
    decreases |s|
  {
    if s == [] then []
    else if s[0] == '$' && |s| > 1 && IsNumChar(s[1]) then
      var n := 1 + RunLength(s[1..]);
      assert s[..n][1..] == s[1..][..n - 1];
      [s[..n]] + Tokens(s[n..])
    else if IsNumChar(s[0]) then
      var n := RunLength(s);
      [s[..n]] + Tokens(s[n..])
    else
      var r := Tokens(s[1..]);
      assert forall i :: 1 <= i < |s| ==> s[i] == s[1..][i - 1];
      r
  }

  /** `t.replace('$', '').replace(',', '')`. */
  function StripMarks(t: string): (r: string)
    ensures (forall i :: 0 <= i < |t| ==> t[i] == '$' || IsNumChar(t[i])) ==> AllDigits(r)
    ensures r == [] <==> forall i :: 0 <= i < |t| ==> t[i] == '$' || t[i] == ','
  {
    if t == [] then []
    else
      var rest := StripMarks(t[1..]);
      assert forall i :: 1 <= i < |t| ==> t[i] == t[1..][i - 1];
      (if t[0] == '$' || t[0] == ',' then [] else [t[0]]) + rest
  }

  /** A run of digits has no marks to remove. */
  lemma {:induction false} StripMarksOfDigits(t: string)
    requires AllDigits(t)
    ensures StripMarks(t) == t
    decreases |t|
  {
    if t != [] {
      StripMarksOfDigits(t[1..]);
    }
  }

  /** Removing the marks works piece by piece: it commutes with concatenation. */
  lemma {:induction false} StripMarksAppend(a: string, b: string)
    ensures StripMarks(a + b) == StripMarks(a) + StripMarks(b)
    decreases |a|
  {
    if a == [] {
      assert a + b == b;
    } else {
      assert (a + b)[0] == a[0];
      assert (a + b)[1..] == a[1..] + b;
      StripMarksAppend(a[1..], b);
    }
  }

  /** A token that `int` accepts once its marks are removed: it holds a digit. */
  predicate HasDigits(t: string)
  {
    StripMarks(t) != []
  }

  /**
   * `int(t.replace('$', '').replace(',', ''))` for a token. Where `int` raises
   * (no digit is left) this is 0; the filter reads it only after `HasDigits`.
   */
  function Amount(t: string): nat
    requires IsToken(t)
  {
    assert forall i :: 0 <= i < |t| ==> t[i] == '$' || IsNumChar(t[i]) by {
      if |t| > 0 && t[0] == '$' {
        assert forall i :: 1 <= i < |t| ==> t[i] == t[1..][i - 1];
      }
    }
    DecimalValue(StripMarks(t))
  }

  /** A leading `$` does not change the amount: `int` reads the digits after it. */
  lemma AmountOfDigits(d: string)
    requires IsDecimalText(d)
    ensures IsToken(d) && Amount(d) == DecimalValue(d)
    ensures IsToken("$" + d) && Amount("$" + d) == DecimalValue(d)
  {
    var t := "$" + d;
    assert t[1..] == d;
    assert AllNumChars(d);
    assert IsToken(t);
    StripMarksOfDigits(d);
    StripMarksAppend("$", d);
    assert StripMarks("$") == [];
    assert StripMarks(t) == d;
  }

  lemma CommaJoinIsToken(a: string, b: string)
    requires AllDigits(a) && AllDigits(b)
    ensures IsToken(a + "," + b) && AllDigits(a + b)
  {
    var t := a + "," + b;
    forall i | 0 <= i < |t|
      ensures IsNumChar(t[i])
    {
      if i < |a| {
        assert t[i] == a[i];
      } else if i > |a| {
        assert t[i] == b[i - |a| - 1];
      }
    }
    assert t[0] != '$';
    forall i | 0 <= i < |a + b|
      ensures IsDigit((a + b)[i])
    {
      if i >= |a| {
        assert (a + b)[i] == b[i - |a|];
      }
    }
  }

  /** Commas inside a match are thousands separators: `int` reads the digits around them joined. */
  lemma AmountSkipsCommas(a: string, b: string)
    requires a != [] && b != [] && AllDigits(a) && AllDigits(b)
    ensures IsToken(a + "," + b) && AllDigits(a + b) && Amount(a + "," + b) == DecimalValue(a + b)
  {
    CommaJoinIsToken(a, b);
    StripCommaJoin(a, b);
  }

  /** Removing the marks from two digit runs around a comma leaves the runs joined. */
  lemma StripCommaJoin(a: string, b: string)
    requires AllDigits(a) && AllDigits(b)
    ensures StripMarks(a + "," + b) == a + b
  {
    assert StripMarks(a + ",") == a by {
      StripMarksOfDigits(a);
      assert StripMarks(",") == [];
      StripMarksAppend(a, ",");
    }
    assert StripMarks(a + "," + b) == a + b by {
      StripMarksOfDigits(b);
      StripMarksAppend(a + ",", b);
    }
  }

  /** `max(...)` over the amounts of a non-empty list of tokens. */
  function MaxAmount(tokens: seq<string>): (m: nat)
    requires tokens != []
    requires forall k :: 0 <= k < |tokens| ==> IsToken(tokens[k])
    ensures forall k :: 0 <= k < |tokens| ==> Amount(tokens[k]) <= m
    ensures exists k :: 0 <= k < |tokens| && Amount(tokens[k]) == m
  {
    if |tokens| == 1 then Amount(tokens[0])
    else
      var rest := MaxAmount(tokens[1..]);
      assert forall k :: 1 <= k < |tokens| ==> tokens[k] == tokens[1..][k - 1];
      if Amount(tokens[0]) >= rest then Amount(tokens[0]) else rest
  }

  lemma {:induction false} RunLengthOfRun(run: string, rest: string)
    requires AllNumChars(run)
    requires rest == [] || !IsNumChar(rest[0])
    ensures RunLength(run + rest) == |run|
    decreases |run|
  {
    if run == [] {
      assert run + rest == rest;
    } else {
      assert (run + rest)[1..] == run[1..] + rest;
      RunLengthOfRun(run[1..], rest);
    }
  }

  /** `[\d,]+` is greedy: a run of digits and commas up to the first other character is one match. */
  lemma BareRunToken(run: string, rest: string)
    requires run != [] && AllNumChars(run)
    requires rest == [] || !IsNumChar(rest[0])
    ensures Tokens(run + rest) == [run] + Tokens(rest)
  {
    RunLengthOfRun(run, rest);
    assert (run + rest)[..|run|] == run && (run + rest)[|run|..] == rest;
  }

  /** A `$` directly before a run of digits and commas belongs to that run's match. */
  lemma DollarRunToken(run: string, rest: string)
    requires run != [] && AllNumChars(run)
    requires rest == [] || !IsNumChar(rest[0])
    ensures Tokens("$" + run + rest) == ["$" + run] + Tokens(rest)
  {
    var s := "$" + run + rest;
    assert s[1..] == run + rest;
    RunLengthOfRun(run, rest);
    assert s[..1 + |run|] == "$" + run && s[1 + |run|..] == rest;
  }

  /** A `$` not followed by a digit or comma starts no match. */
  lemma LoneDollarStartsNoMatch(rest: string)
    requires rest == [] || !IsNumChar(rest[0])
    ensures Tokens("$" + rest) == Tokens(rest)
  {
    assert ("$" + rest)[1..] == rest;
  }

  /** Characters other than `$`, digits and commas start no match and are skipped. */
  lemma {:induction false} SkipsNonNumbers(prefix: string, rest: string)
    requires forall i :: 0 <= i < |prefix| ==> !IsNumChar(prefix[i]) && prefix[i] != '$'
    ensures Tokens(prefix + rest) == Tokens(rest)
    decreases |prefix|
  {
    if prefix == [] {
      assert prefix + rest == rest;
    } else {
      assert (prefix + rest)[1..] == prefix[1..] + rest;
      SkipsNonNumbers(prefix[1..], rest);
    }
  }

  /** What the filter learns from a salary text. */
  datatype SalaryReading =
    | NoNumber            // `re.findall` found nothing
    | Unparsable          // some match has no digit, so `int('')` raised
    | Highest(amount: nat) // every match parsed; the largest value

  function Reading(text: string): (r: SalaryReading)
    ensures r == NoNumber <==> forall i :: 0 <= i < |text| ==> !IsNumChar(text[i])
    ensures r == Unparsable <==> Tokens(text) != [] && exists k :: 0 <= k < |Tokens(text)| && !HasDigits(Tokens(text)[k])
    ensures r.Highest? ==> forall k :: 0 <= k < |Tokens(text)| ==> HasDigits(Tokens(text)[k]) && Amount(Tokens(text)[k]) <= r.amount
    ensures r.Highest? ==> exists k :: 0 <= k < |Tokens(text)| && Amount(Tokens(text)[k]) == r.amount
  {
    var tokens := Tokens(text);
    if tokens == [] then NoNumber
    else if exists k :: 0 <= k < |tokens| && StripMarks(tokens[k]) == [] then Unparsable
    else Highest(MaxAmount(tokens))
  }

  /** The characters of `s` in the class `[\d,]`, in order. */
  function NumChars(s: string): string
  {
    if s == [] then [] else (if IsNumChar(s[0]) then [s[0]] else []) + NumChars(s[1..])
  }

  /** A token without its optional leading `$`. */
  function Body(t: string): string
  {
    if |t| > 0 && t[0] == '$' then t[1..] else t
  }

  function ConcatBodies(tokens: seq<string>): string
  {
    if tokens == [] then [] else Body(tokens[0]) + ConcatBodies(tokens[1..])
  }

  lemma {:induction false} NumCharsAppend(a: string, b: string)
    ensures NumChars(a + b) == NumChars(a) + NumChars(b)
    decreases |a|
  {
    if a != [] {
      assert (a + b)[0] == a[0];
      assert (a + b)[1..] == a[1..] + b;
      NumCharsAppend(a[1..], b);
      assert NumChars(a + b) == (if IsNumChar(a[0]) then [a[0]] else []) + NumChars(a[1..] + b);
    } else {
      assert a + b == b;
    }
  }

  lemma {:induction false} NumCharsOfRun(a: string)
    requires AllNumChars(a)
    ensures NumChars(a) == a
    decreases |a|
  {
    if a != [] {
      NumCharsOfRun(a[1..]);
    }
  }

  /** The matches lose no digit or comma of the text and invent none: their bodies, joined, are exactly its `[\d,]` characters. */
  lemma {:induction false} TokensCoverNumChars(s: string)
    ensures ConcatBodies(Tokens(s)) == NumChars(s)
    decreases |s|
  {
    if s == [] {
    } else if s[0] == '$' && |s| > 1 && IsNumChar(s[1]) {
      var n := 1 + RunLength(s[1..]);
      assert s[..n][1..] == s[1..][..n - 1] == s[1..n];
      assert Tokens(s) == [s[..n]] + Tokens(s[n..]);
      TokensCoverNumChars(s[n..]);
      assert s[1..] == s[1..n] + s[n..];
      NumCharsAppend(s[1..n], s[n..]);
      NumCharsOfRun(s[1..n]);
    } else if IsNumChar(s[0]) {
      var n := RunLength(s);
      assert Tokens(s) == [s[..n]] + Tokens(s[n..]);
      TokensCoverNumChars(s[n..]);
      assert s == s[..n] + s[n..];
      NumCharsAppend(s[..n], s[n..]);
      NumCharsOfRun(s[..n]);
    } else {
      TokensCoverNumChars(s[1..]);
    }
  }
}
