/** cleanResponseContent (api/generate-position.ts): the post-processing of
    a generated final position, which trims the reply and removes one layer
    of quotes wrapped around all of it. */
module GeneratePosition {
  import opened Text

  /** The quote of each pattern, tried in order: each pattern matches a text
      that starts and ends with its quote character and captures everything
      in between (newlines included). */
  const QuotePatterns: seq<char> := ['"', '\'', '"', '\'']

  predicate IsQuote(c: char) {
    c == '"' || c == '\''
  }

  /** The pattern for quote `q` matches `t`. */
  predicate Wraps(t: string, q: char) {
    |t| >= 2 && t[0] == q && t[|t| - 1] == q
  }

  /** The pattern for `q` strips `t`: it matches and captures something
      that is not blank. */
  predicate Strips(t: string, q: char) {
    Wraps(t, q) && !IsBlank(Inner(t))
  }

  /** The captured group: what lies between the quotes. */
  function Inner(t: string): (r: string)
    requires |t| >= 2
    ensures |r| == |t| - 2
  {
    t[1..|t| - 1]
  }

  /** The reply as cleaned: the trimmed text, with its wrapping quotes
      removed when what they enclose is not blank. */
  function Cleaned(content: string): (r: string)
    ensures IsTrimmed(r)
    ensures |r| <= |content|
  {
    if content == [] then content
    else
      var t := Trim(content);
      if |t| >= 2 && IsQuote(t[0]) && Wraps(t, t[0]) && !IsBlank(Inner(t)) then Trim(Inner(t)) else t
  }

  /** cleanResponseContent: the patterns are tried in order and the first one
      whose captured text is not blank after trimming wins. */
  method CleanResponseContent(content: string) returns (r: string)
    ensures r == Cleaned(content)
  {
    if content == [] {
      return content;
    }
    var cleaned := Trim(content);
    var i := 0;
    while i < |QuotePatterns|
      invariant 0 <= i <= |QuotePatterns|
      invariant cleaned == Trim(content)
      invariant forall j :: 0 <= j < i ==> !Strips(cleaned, QuotePatterns[j])
    {
      var q := QuotePatterns[i];
      if Wraps(cleaned, q) && Inner(cleaned) != [] {
        var inner := Trim(Inner(cleaned));
        assert inner != [] <==> Strips(cleaned, q);
        if inner != [] {
          StripsOneLayer(content, q);
          TrimIdempotent(Inner(cleaned));
          cleaned := inner;
          break;
        }
      }
      i := i + 1;
    }
    if i == |QuotePatterns| {
      NoPatternOnlyTrimmed(content);
      TrimIdempotent(content);
    }
    return Trim(cleaned);
  }

  /** When no pattern strips anything, the reply is only trimmed. */
  lemma NoPatternOnlyTrimmed(content: string)
    requires content != []
    requires forall j :: 0 <= j < |QuotePatterns| ==> !Strips(Trim(content), QuotePatterns[j])
    ensures Cleaned(content) == Trim(content)
  {
    var t := Trim(content);
    if |t| >= 2 && IsQuote(t[0]) {
      assert QuotePatterns[if t[0] == '"' then 0 else 1] == t[0];
    }
  }

  /** An empty reply comes back as it is. */
  lemma EmptyUnchanged()
    ensures Cleaned([]) == []
  {
  }

  /** A reply wrapped in matching quotes around something that is not blank
      loses exactly that one layer, and the rest is trimmed. */
  lemma StripsOneLayer(content: string, q: char)
    requires IsQuote(q) && Wraps(Trim(content), q) && !IsBlank(Inner(Trim(content)))
    ensures Cleaned(content) == Trim(Inner(Trim(content)))
  {
  }

  /** Quotes around nothing, or around blanks only, are kept. */
  lemma BlankInsideKept(content: string, q: char)
    requires content != [] && Wraps(Trim(content), q) && IsBlank(Inner(Trim(content)))
    ensures Cleaned(content) == Trim(content)
  {
  }

  /** Only one layer goes: a doubly quoted reply keeps its inner quotes. */
  lemma OnlyOneLayer()
    ensures Cleaned("\"\"x\"\"") == "\"x\""
  {
    var t := "\"\"x\"\"";
    assert t[0] == '"' && t[4] == '"';
    TrimmedIsFixpoint(t);
    var inner := Inner(t);
    assert inner == "\"x\"";
    assert !IsBlank(inner) by {
      assert !IsWhitespace(inner[0]);
    }
    TrimmedIsFixpoint(inner);
  }
}
