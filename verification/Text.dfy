/** The string functions of Go's standard library that names go through, on ASCII text. */
module Text {
  predicate IsSpace(c: char) { c == ' ' || '\t' <= c <= '\r' }

  function TrimSpace(s: string): string
    decreases |s|
  {
    if s != "" && IsSpace(s[0]) then TrimSpace(s[1..])
    else if s != "" && IsSpace(s[|s| - 1]) then TrimSpace(s[..|s| - 1])
    else s
  }

  function Lower(s: string): string {
    if s == "" then "" else [if 'A' <= s[0] <= 'Z' then s[0] - 'A' + 'a' else s[0]] + Lower(s[1..])
  }

  /** strings.TrimSuffix(s, ".") */
  function TrimDot(s: string): string { if s != "" && s[|s| - 1] == '.' then s[..|s| - 1] else s }

  // ---------- what they do ----------

  function LowerChar(c: char): char { if 'A' <= c <= 'Z' then c - 'A' + 'a' else c }

  /** Capital letters become small ones, and nothing else changes. */
  lemma {:induction false} LowerIs(s: string)
    ensures |Lower(s)| == |s| && forall i :: 0 <= i < |s| ==> Lower(s)[i] == LowerChar(s[i])
  {
    if s != "" { LowerIs(s[1..]); }
  }

  lemma {:induction false} LowerConcat(s: string, t: string)
    ensures Lower(s + t) == Lower(s) + Lower(t)
  {
    LowerIs(s);
    LowerIs(t);
    LowerIs(s + t);
  }

  predicate Blank(s: string) { forall i :: 0 <= i < |s| ==> s[i] in {' ', '\t', '\n', '\U{B}', '\U{C}', '\r'} }

  /** Text that neither starts nor ends with white space. */
  predicate Trimmed(s: string) { s == "" || (!Blank(s[..1]) && !Blank(s[|s| - 1..])) }

  lemma SpaceIs(c: char)
    ensures IsSpace(c) <==> c in {' ', '\t', '\n', '\U{B}', '\U{C}', '\r'}
  {
    if '\t' <= c <= '\r' {
      assert c as int in {9, 10, 11, 12, 13};
    }
  }

  lemma {:induction false} TrimFront(before: string, rest: string)
    requires Blank(before)
    ensures TrimSpace(before + rest) == TrimSpace(rest)
  {
    if before == "" {
      assert before + rest == rest;
    } else {
      SpaceIs(before[0]);
      assert (before + rest)[1..] == before[1..] + rest;
      TrimFront(before[1..], rest);
    }
  }

  lemma {:induction false} TrimBack(s: string, after: string)
    requires s != "" && !IsSpace(s[0]) && !IsSpace(s[|s| - 1]) && Blank(after)
    ensures TrimSpace(s + after) == s
    decreases |after|
  {
    if after == "" {
      assert s + after == s;
    } else {
      SpaceIs(after[|after| - 1]);
      assert (s + after)[..|s + after| - 1] == s + after[..|after| - 1];
      TrimBack(s, after[..|after| - 1]);
    }
  }

  /** White space around a text goes, and nothing else. */
  lemma TrimIs(before: string, s: string, after: string)
    requires Blank(before) && Blank(after) && Trimmed(s)
    ensures TrimSpace(before + s + after) == s
  {
    assert before + s + after == before + (s + after);
    TrimFront(before, s + after);
    if s == "" {
      TrimFront(after, "");
      assert s + after == after == after + "";
    } else {
      SpaceIs(s[0]);
      SpaceIs(s[|s| - 1]);
      assert s[..1][0] == s[0] && s[|s| - 1..][0] == s[|s| - 1];
      TrimBack(s, after);
    }
  }

  /** One final dot goes. */
  lemma TrimDotIs(s: string)
    ensures TrimDot(s + ".") == s && (s == "" || s[|s| - 1] != '.' ==> TrimDot(s) == s)
  {
    assert (s + ".")[..|s|] == s;
  }
}
