/** The quoting of the note field in the CSV export: every `"` is doubled and the whole field is put
    between quotes, as rule 7 of section 2 of RFC 4180 prescribes. */
module Csv {
  import opened Wrappers

  const Quote: char := '"'

  /** The number of quote characters in `s`. */
  function QuoteCount(s: string): nat {
    if s == [] then 0 else (if s[0] == Quote then 1 else 0) + QuoteCount(s[1..])
  }

  /** `s.replace(/"/g, '""')`. */
  function EscapeQuotes(s: string): (r: string)
    ensures |r| == |s| + QuoteCount(s)
  {
    if s == [] then []
    else if s[0] == Quote then [Quote, Quote] + EscapeQuotes(s[1..])
    else [s[0]] + EscapeQuotes(s[1..])
  }

  /** The note as it appears in a CSV row. */
  function QuoteField(s: string): (r: string)
    ensures |r| == |s| + QuoteCount(s) + 2
    ensures r[0] == Quote && r[|r| - 1] == Quote
  {
    [Quote] + EscapeQuotes(s) + [Quote]
  }

  /** Reads the inside of a quoted field: `""` stands for one quote, and a lone quote is malformed. */
  function Unescape(s: string): Option<string> {
    if s == [] then Some([])
    else if s[0] == Quote then
      if |s| >= 2 && s[1] == Quote then
        match Unescape(s[2..])
        case Some(rest) => Some([Quote] + rest)
        case None => None
      else None
    else
      match Unescape(s[1..])
      case Some(rest) => Some([s[0]] + rest)
      case None => None
  }

  /** Reads one quoted CSV field back, as a parser following RFC 4180 would. */
  function UnquoteField(f: string): Option<string> {
    if |f| >= 2 && f[0] == Quote && f[|f| - 1] == Quote then Unescape(f[1..|f| - 1]) else None
  }

  lemma {:induction false} UnescapeInvertsEscape(s: string)
    ensures Unescape(EscapeQuotes(s)) == Some(s)
  {
    if s != [] {
      UnescapeInvertsEscape(s[1..]);
      var e := EscapeQuotes(s);
      if s[0] == Quote {
        assert e[2..] == EscapeQuotes(s[1..]);
      } else {
        assert e[1..] == EscapeQuotes(s[1..]);
      }
      assert s == [s[0]] + s[1..];
    }
  }

  /** Reading an exported note back yields the note, whatever quotes, commas or line breaks it holds. */
  lemma QuoteRoundTrip(s: string)
    ensures UnquoteField(QuoteField(s)) == Some(s)
  {
    var f := QuoteField(s);
    assert f[1..|f| - 1] == EscapeQuotes(s);
    UnescapeInvertsEscape(s);
  }

  /** Distinct notes are exported as distinct fields. */
  lemma QuoteFieldInjective(s: string, t: string)
    requires QuoteField(s) == QuoteField(t)
    ensures s == t
  {
    QuoteRoundTrip(s);
    QuoteRoundTrip(t);
  }
}
