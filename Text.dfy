/** The string operations the chat widget and its backend rely on:
    whitespace trimming (`String.prototype.trim`, `str.strip`), lower-casing
    (`str.lower`), prefix tests (`startsWith`) and substring search
    (Python's `in`). Only ASCII is modelled. */
module Text {

  /** The ASCII characters that `trim` and `strip` both remove:
      space, tab, line feed, vertical tab, form feed and carriage return. */
  predicate IsWhitespace(c: char) {
    c == ' ' || c == '\t' || c == '\n' || c == '\U{B}' || c == '\U{C}' || c == '\r'
  }

  predicate IsBlank(s: string) {
    forall i :: 0 <= i < |s| ==> IsWhitespace(s[i])
  }

  /** The number of whitespace characters at the start of `s`. */
  function LeadingWhitespace(s: string): (n: nat)
    ensures n <= |s|
    ensures forall i :: 0 <= i < n ==> IsWhitespace(s[i])
    ensures n < |s| ==> !IsWhitespace(s[n])
  {
    if |s| > 0 && IsWhitespace(s[0]) then 1 + LeadingWhitespace(s[1..]) else 0
  }

  /** The number of whitespace characters at the end of `s`. */
  function TrailingWhitespace(s: string): (n: nat)
    ensures n <= |s|
    ensures forall i :: |s| - n <= i < |s| ==> IsWhitespace(s[i])
    ensures n < |s| ==> !IsWhitespace(s[|s| - 1 - n])
  {
    if |s| > 0 && IsWhitespace(s[|s| - 1]) then 1 + TrailingWhitespace(s[..|s| - 1]) else 0
  }

  /** `s.trim()` / `s.strip()`: the longest slice of `s` that neither starts
      nor ends with whitespace, obtained by dropping only whitespace. */
  function Trim(s: string): (r: string)
    ensures var a := LeadingWhitespace(s);
      && a + |r| <= |s|
      && r == s[a..a + |r|]
      && (forall i :: a + |r| <= i < |s| ==> IsWhitespace(s[i]))
    ensures r != [] ==> !IsWhitespace(r[0]) && !IsWhitespace(r[|r| - 1])
  {
    var t := s[LeadingWhitespace(s)..];
    t[..|t| - TrailingWhitespace(t)]
  }

  /** A string trims to empty exactly when it is all whitespace: this is the
      emptiness test both the client and the server apply to a message. */
  lemma TrimEmptyIffBlank(s: string)
    ensures Trim(s) == [] <==> IsBlank(s)
  {
  }

  /** A string with no whitespace at either end is its own trim. */
  lemma TrimUntrimmed(s: string)
    requires s != [] ==> !IsWhitespace(s[0]) && !IsWhitespace(s[|s| - 1])
    ensures Trim(s) == s
  {
    if s != [] {
      assert LeadingWhitespace(s) == 0;
      assert TrailingWhitespace(s) == 0;
    }
  }

  /** Trimming twice is trimming once. */
  lemma TrimIdempotent(s: string)
    ensures Trim(Trim(s)) == Trim(s)
  {
    TrimUntrimmed(Trim(s));
  }

  function LowerChar(c: char): (d: char)
    ensures 'A' <= c <= 'Z' ==> d as int == c as int + 32
    ensures !('A' <= c <= 'Z') ==> d == c
  {
    if 'A' <= c <= 'Z' then (c as int + 32) as char else c
  }

  /** `s.lower()`, restricted to ASCII letters. */
  function Lower(s: string): (r: string)
    ensures |r| == |s|
    ensures forall i :: 0 <= i < |s| ==> r[i] == LowerChar(s[i])
  {
    if s == [] then [] else [LowerChar(s[0])] + Lower(s[1..])
  }

  predicate StartsWith(s: string, prefix: string) {
    |prefix| <= |s| && s[..|prefix|] == prefix
  }

  /** `word` occurs in `text` starting at index `i`. */
  predicate OccursAt(text: string, word: string, i: nat) {
    i + |word| <= |text| && text[i..i + |word|] == word
  }

  /** Python's `word in text`, as a left-to-right scan. */
  predicate Contains(text: string, word: string) {
    StartsWith(text, word) || (|text| > 0 && Contains(text[1..], word))
  }

  /** Any occurrence makes the scan succeed. */
  lemma {:induction false} ContainsFromOccurrence(text: string, word: string, i: nat)
    requires OccursAt(text, word, i)
    ensures Contains(text, word)
  {
    if i > 0 {
      assert text[1..][i - 1..i - 1 + |word|] == text[i..i + |word|];
      ContainsFromOccurrence(text[1..], word, i - 1);
    }
  }

  /** A successful scan has found an occurrence. */
  lemma {:induction false} OccurrenceFromContains(text: string, word: string) returns (i: nat)
    requires Contains(text, word)
    ensures OccursAt(text, word, i)
  {
    if StartsWith(text, word) {
      i := 0;
    } else {
      var j := OccurrenceFromContains(text[1..], word);
      assert text[1..][j..j + |word|] == text[j + 1..j + 1 + |word|];
      i := j + 1;
    }
  }

  /** The scan agrees with the definition of substring. */
  lemma ContainsIff(text: string, word: string)
    ensures Contains(text, word) <==> exists i: nat :: OccursAt(text, word, i)
  {
    if Contains(text, word) {
      var i := OccurrenceFromContains(text, word);
    }
    forall i: nat | OccursAt(text, word, i) ensures Contains(text, word) {
      ContainsFromOccurrence(text, word, i);
    }
  }

  /** A string contains whatever it is built around. */
  lemma ContainsMiddle(a: string, b: string, c: string)
    ensures Contains(a + b + c, b)
  {
    assert (a + b + c)[|a|..|a| + |b|] == b;
    ContainsFromOccurrence(a + b + c, b, |a|);
  }
}
