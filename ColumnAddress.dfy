/**
 * Spreadsheet cell addresses ("AB12") and the 1-based column numbers they
 * name: the address is reduced to its upper-case letters, which are read as
 * a bijective base-26 numeral (A = 1, ..., Z = 26, AA = 27, ...).
 */
module ColumnAddress {

  predicate IsColumnLetter(c: char) {
    'A' <= c <= 'Z'
  }

  predicate AllLetters(s: string) {
    forall i :: 0 <= i < |s| ==> IsColumnLetter(s[i])
  }

  /** The address with every character outside A-Z removed (the letters keep their order). */
  function ColumnName(address: string): (name: string)
    ensures AllLetters(name)
    ensures |name| <= |address|
  {
    if |address| == 0 then []
    else if IsColumnLetter(address[0]) then [address[0]] + ColumnName(address[1..])
    else ColumnName(address[1..])
  }

  /** Every letter of the address survives, as often as it occurs there. */
  lemma {:induction false} ColumnNameKeepsLetters(address: string)
    ensures forall c :: IsColumnLetter(c) ==> multiset(ColumnName(address))[c] == multiset(address)[c]
  {
    if |address| > 0 {
      ColumnNameKeepsLetters(address[1..]);
      assert address == [address[0]] + address[1..];
    }
  }

  lemma {:induction false} ColumnNameAppend(a: string, b: string)
    ensures ColumnName(a + b) == ColumnName(a) + ColumnName(b)
  {
    if a == [] {
      assert a + b == b;
    } else {
      assert (a + b)[0] == a[0];
      assert (a + b)[1..] == a[1..] + b;
      ColumnNameAppend(a[1..], b);
    }
  }

  lemma {:induction false} ColumnNameOfLetters(s: string)
    requires AllLetters(s)
    ensures ColumnName(s) == s
  {
    if s != [] {
      ColumnNameOfLetters(s[1..]);
    }
  }

  lemma {:induction false} ColumnNameOfNonLetters(s: string)
    requires forall i :: 0 <= i < |s| ==> !IsColumnLetter(s[i])
    ensures ColumnName(s) == []
  {
    if s != [] {
      ColumnNameOfNonLetters(s[1..]);
    }
  }

  /** A cell address is its column letters followed by a row part without letters. */
  lemma CellAddressColumnName(letters: string, rowPart: string)
    requires AllLetters(letters)
    requires forall i :: 0 <= i < |rowPart| ==> !IsColumnLetter(rowPart[i])
    ensures ColumnName(letters + rowPart) == letters
  {
    ColumnNameAppend(letters, rowPart);
    ColumnNameOfLetters(letters);
    ColumnNameOfNonLetters(rowPart);
  }

  /** The digit value `ColumnIndexFromName` in XlsxToCsvExporter gives a character: its code minus 64 ('A' is 1). */
  function DigitValue(c: char): int {
    c as int - 64
  }

  function Pow26(k: nat): nat {
    if k == 0 then 1 else 26 * Pow26(k - 1)
  }

  /** The column number of a name, read as a base-26 numeral from its last letter backwards. */
  function ColumnValue(name: string): (value: int)
    ensures AllLetters(name) ==> value >= 0 && (value == 0 <==> name == [])
  {
    if name == [] then 0
    else ColumnValue(name[..|name| - 1]) * 26 + DigitValue(name[|name| - 1])
  }

  /**
   * The loop of `ColumnIndexFromName` in XlsxToCsvExporter: each letter, from the left, contributes its digit
   * times 26 to the power of the number of letters after it.
   */
  method ColumnIndexFromName(columnName: string) returns (columnIndex: int)
    ensures columnIndex == ColumnValue(columnName)
    ensures AllLetters(columnName) ==> columnIndex >= 0 && (columnIndex == 0 <==> columnName == [])
  {
    columnIndex := 0;
    var index := 0;
    var length := |columnName| - 1;
    while length >= 0
      invariant 0 <= index <= |columnName|
      invariant length == |columnName| - 1 - index
      invariant columnIndex == ColumnValue(columnName[..index]) * Pow26(length + 1)
    {
      ghost var before := ColumnValue(columnName[..index]);
      var digit := DigitValue(columnName[index]);
      assert columnName[..index + 1][..index] == columnName[..index];
      assert ColumnValue(columnName[..index + 1]) == before * 26 + digit;
      assert Pow26(length + 1) == 26 * Pow26(length);
      MulDistributes(before, digit, Pow26(length));
      columnIndex := columnIndex + digit * Pow26(length);
      index := index + 1;
      length := length - 1;
    }
    assert columnName[..index] == columnName;
  }

  lemma MulDistributes(v: int, d: int, p: int)
    ensures v * (26 * p) + d * p == (v * 26 + d) * p
  {
  }

  /** The inverse encoding: the letters of column number n (empty for 0). */
  function ColumnLetters(n: nat): (name: string)
    ensures AllLetters(name)
    ensures n == 0 <==> name == []
  {
    if n == 0 then [] else ColumnLetters((n - 1) / 26) + [(65 + (n - 1) % 26) as char]
  }

  lemma {:induction false} ColumnLettersValue(n: nat)
    ensures ColumnValue(ColumnLetters(n)) == n
  {
    if n > 0 {
      var name := ColumnLetters(n);
      var prefix := ColumnLetters((n - 1) / 26);
      assert name[..|name| - 1] == prefix;
      ColumnLettersValue((n - 1) / 26);
    }
  }

  lemma {:induction false} ColumnValueLetters(name: string)
    requires AllLetters(name)
    ensures ColumnValue(name) >= 0 && ColumnLetters(ColumnValue(name)) == name
  {
    if name != [] {
      var prefix := name[..|name| - 1];
      var v := ColumnValue(prefix);
      var d := DigitValue(name[|name| - 1]);
      ColumnValueLetters(prefix);
      assert 1 <= d <= 26;
      assert ColumnValue(name) == v * 26 + d;
      DivModDigit(v, d - 1);
      assert name == prefix + [name[|name| - 1]];
    }
  }

  lemma DivModDigit(v: int, r: int)
    requires v >= 0 && 0 <= r < 26
    ensures (v * 26 + r) / 26 == v && (v * 26 + r) % 26 == r
  {
  }

  /** The column numbers of a few names, worked out. */
  lemma KnownColumns()
    ensures ColumnValue("A") == 1 && ColumnValue("Z") == 26
    ensures ColumnValue("AA") == 27 && ColumnValue("AZ") == 52 && ColumnValue("BA") == 53
  {
    assert "AA"[..1] == "A" && "AZ"[..1] == "A" && "BA"[..1] == "B";
  }

  /** The cell address "AB12" names column 28. */
  lemma KnownCellAddress()
    ensures ColumnValue(ColumnName("AB12")) == 28
  {
    CellAddressColumnName("AB", "12");
    assert "AB" + "12" == "AB12";
    assert "AB"[..1] == "A";
  }
}
