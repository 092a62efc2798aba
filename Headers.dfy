/**
 * The header registry of the first row: each label is counted, and a
 * repeated label is written with its occurrence number appended.
 */
module Headers {
  import opened CellText

  datatype Registration = Registration(headers: map<string, nat>, written: string)

  /**
   * Registers one first-row text: a new text is recorded with count 1 and
   * written unchanged; a known one has its count raised and is written with
   * the new count appended.
   */
  function RegisterHeader(headers: map<string, nat>, text: string): (r: Registration)
    ensures r.headers.Keys == headers.Keys + {text} && r.headers[text] >= 1
    ensures |text| <= |r.written| && r.written[..|text|] == text
    ensures r.written == text <==> text !in headers
  {
    if text !in headers then Registration(headers[text := 1], text)
    else Registration(headers[text := headers[text] + 1], text + DecimalString(headers[text] + 1))
  }

  /** The registry holds exactly the given first-row texts, each with its number of occurrences. */
  ghost predicate Counts(headers: map<string, nat>, labels: seq<string>) {
    forall l :: (l in headers <==> l in labels) && (l in headers ==> headers[l] == multiset(labels)[l])
  }

  /** The label written for the k-th occurrence of a text. */
  function Suffixed(text: string, k: nat): string {
    if k <= 1 then text else text + DecimalString(k)
  }

  /**
   * Registering one more text keeps the registry a count of the texts seen,
   * and the k-th occurrence of a text is written as the text itself when k
   * is 1 and as the text followed by k otherwise.
   */
  lemma RegisterHeaderCounts(headers: map<string, nat>, labels: seq<string>, text: string)
    requires Counts(headers, labels)
    ensures Counts(RegisterHeader(headers, text).headers, labels + [text])
    ensures RegisterHeader(headers, text).written == Suffixed(text, multiset(labels + [text])[text])
  {
    var after := RegisterHeader(headers, text).headers;
    assert multiset(labels + [text]) == multiset(labels) + multiset{text};
    forall l ensures (l in after <==> l in labels + [text]) && (l in after ==> after[l] == multiset(labels + [text])[l]) {
      if l != text {
        assert l in after <==> l in headers;
      }
    }
  }

  /** The suffix does not make labels unique: "Name", "Name", "Name2" are written "Name", "Name2", "Name2". */
  lemma SuffixedLabelsCanCollide()
    ensures var first := RegisterHeader(map[], "Name");
            var second := RegisterHeader(first.headers, "Name");
            var third := RegisterHeader(second.headers, "Name2");
            first.written == "Name" && second.written == "Name2" && third.written == "Name2"
  {
    assert DecimalString(2) == "2";
  }
}
