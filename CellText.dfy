/**
 * Text helpers the exporter relies on: the character replacement it applies
 * to every cell value, splitting the dimension reference at ':', and the
 * decimal notation of integers (parsing style and shared-string indexes,
 * writing header suffixes).
 */
module CellText {
  import opened Optional

  /** Every occurrence of `from` replaced by `to`. */
  function Replace(s: string, from: char, to: char): (r: string)
    ensures |r| == |s|
    ensures forall i :: 0 <= i < |s| ==> r[i] == (if s[i] == from then to else s[i])
  {
    if s == [] then [] else [if s[0] == from then to else s[0]] + Replace(s[1..], from, to)
  }

  /**
   * Line feeds become spaces and double quotes become apostrophes, so the
   * value can be written between double quotes on one line.
   */
  function Sanitize(text: string): (r: string)
    ensures |r| == |text|
    ensures forall i :: 0 <= i < |r| ==> r[i] != '\n' && r[i] != '"'
    ensures forall i :: 0 <= i < |text| ==>
      r[i] == (if text[i] == '\n' then ' ' else if text[i] == '"' then '\'' else text[i])
  {
    Replace(Replace(text, '\n', ' '), '"', '\'')
  }

  lemma SanitizeIdempotent(text: string)
    ensures Sanitize(Sanitize(text)) == Sanitize(text)
  {
  }

  /** Sanitizing changes exactly the texts that hold a line feed or a double quote. */
  lemma SanitizeUnchanged(text: string)
    ensures Sanitize(text) == text <==> forall i :: 0 <= i < |text| ==> text[i] != '\n' && text[i] != '"'
  {
    if Sanitize(text) == text {
      forall i | 0 <= i < |text| ensures text[i] != '\n' && text[i] != '"' {
        assert Sanitize(text)[i] == text[i];
      }
    }
  }


  lemma SanitizeExample(text: string)
    requires text == "He said \"hi\"\nBye"
    ensures Sanitize(text) == "He said 'hi' Bye"
  {
    var r := Sanitize(text);
    assert |r| == 16;
    assert forall i :: 0 <= i < 16 ==> r[i] == "He said 'hi' Bye"[i];
  }

  /** The pieces of `s` between occurrences of `sep` (one piece when `sep` does not occur). */
  function Split(s: string, sep: char): (parts: seq<string>)
    ensures |parts| >= 1
    ensures forall i :: 0 <= i < |parts| ==> sep !in parts[i]
    ensures |parts| >= 2 <==> sep in s
  {
    if s == [] then [[]]
    else
      assert s == [s[0]] + s[1..];
      var rest := Split(s[1..], sep);
      if s[0] == sep then [[]] + rest
      else [[s[0]] + rest[0]] + rest[1..]
  }

  function JoinWith(parts: seq<string>, sep: char): string {
    if parts == [] then []
    else if |parts| == 1 then parts[0]
    else parts[0] + [sep] + JoinWith(parts[1..], sep)
  }

  lemma {:induction false} SplitJoin(s: string, sep: char)
    ensures JoinWith(Split(s, sep), sep) == s
  {
    if s != [] {
      var rest := Split(s[1..], sep);
      SplitJoin(s[1..], sep);
      if s[0] == sep {
        assert ([[]] + rest)[1..] == rest;
        assert s == [sep] + s[1..];
      } else {
        var parts := [[s[0]] + rest[0]] + rest[1..];
        if |rest| == 1 {
          assert s == [s[0]] + rest[0];
        } else {
          assert parts[1..] == rest[1..];
          assert s == [s[0]] + s[1..];
        }
      }
    }
  }

  /** Splitting yields one more piece than there are separators. */
  lemma {:induction false} SplitCount(s: string, sep: char)
    ensures |Split(s, sep)| == multiset(s)[sep] + 1
  {
    if s != [] {
      SplitCount(s[1..], sep);
      assert s == [s[0]] + s[1..];
    }
  }

  /** Text without the separator is one piece. */
  lemma {:induction false} SplitNone(s: string, sep: char)
    requires sep !in s
    ensures Split(s, sep) == [s]
  {
    if s != [] {
      SplitNone(s[1..], sep);
      assert [s[0]] + s[1..] == s;
    }
  }

  /** Text with one separator splits into the parts before and after it. */
  lemma {:induction false} SplitAround(before: string, after: string, sep: char)
    requires sep !in before && sep !in after
    ensures Split(before + [sep] + after, sep) == [before, after]
  {
    var s := before + [sep] + after;
    if before == [] {
      assert s[1..] == after;
      SplitNone(after, sep);
    } else {
      assert s[1..] == before[1..] + [sep] + after;
      SplitAround(before[1..], after, sep);
      assert [before[0]] + before[1..] == before;
    }
  }

  predicate IsDigit(c: char) {
    '0' <= c <= '9'
  }

  predicate AllDigits(s: string) {
    forall i :: 0 <= i < |s| ==> IsDigit(s[i])
  }

  function DigitChar(d: nat): char
    requires d < 10
  {
    (48 + d) as char
  }

  /** The decimal notation of n, without leading zeros. */
  function DecimalString(n: nat): (s: string)
    ensures |s| >= 1 && AllDigits(s)
    ensures |s| > 1 ==> s[0] != '0'
    decreases n
  {
    if n < 10 then [DigitChar(n)] else DecimalString(n / 10) + [DigitChar(n % 10)]
  }

  function DigitsValue(s: string): nat
    requires AllDigits(s)
  {
    if s == [] then 0 else DigitsValue(s[..|s| - 1]) * 10 + (s[|s| - 1] as int - 48)
  }

  /** A non-empty run of decimal digits read as a number; anything else is refused. */
  function ParseDecimal(s: string): (r: Option<nat>)
    ensures r.Some? <==> s != [] && AllDigits(s)
  {
    if s != [] && AllDigits(s) then Some(DigitsValue(s)) else None
  }

  lemma {:induction false} ParseDecimalString(n: nat)
    ensures ParseDecimal(DecimalString(n)) == Some(n)
    decreases n
  {
    var s := DecimalString(n);
    if n < 10 {
      assert s[..0] == [];
    } else {
      ParseDecimalString(n / 10);
      assert s[..|s| - 1] == DecimalString(n / 10);
      assert DigitsValue(s) == (n / 10) * 10 + n % 10;
    }
  }
}
