/**
 The two brace matchers that pull the first balanced object out of free text. Strings are
 byte strings: only ASCII characters are ever compared, and no byte of a longer UTF-8
 sequence equals one of them.
 */
module JsonExtract {

  // ----- The scanner both loops implement -----

  datatype Scanner = Scanner(depth: int, inString: bool, escaped: bool)

  const OUTSIDE := Scanner(0, false, false)

  function Step(s: Scanner, c: char): Scanner {
    if s.inString then
      if s.escaped then s.(escaped := false)
      else if c == '\\' then s.(escaped := true)
      else if c == '"' then s.(inString := false)
      else s
    else if c == '"' then s.(inString := true)
    else if c == '{' then s.(depth := s.depth + 1)
    else if c == '}' then s.(depth := s.depth - 1)
    else s
  }

  function Fold(s: Scanner, text: string): Scanner
    decreases |text|
  {
    if text == "" then s else Fold(Step(s, text[0]), text[1..])
  }

  /** The position of the first closing brace that brings the depth to zero, or -1. */
  function CloseAt(s: Scanner, text: string): (i: int)
    ensures -1 <= i < |text|
    decreases |text|
  {
    if text == "" then -1
    else
      var s' := Step(s, text[0]);
      if !s.inString && text[0] == '}' && s'.depth == 0 then 0
      else
        var i := CloseAt(s', text[1..]);
        if i < 0 then -1 else i + 1
  }

  function FirstOpen(text: string): (i: int)
    ensures -1 <= i < |text|
    ensures i >= 0 ==> text[i] == '{'
    ensures forall j :: 0 <= j < (if i < 0 then |text| else i) ==> text[j] != '{'
  {
    if text == "" then -1
    else if text[0] == '{' then 0
    else
      var i := FirstOpen(text[1..]);
      if i < 0 then -1 else i + 1
  }

  function Extraction(text: string): string {
    var start := FirstOpen(text);
    if start < 0 then ""
    else
      var i := CloseAt(OUTSIDE, text[start..]);
      if i < 0 then "" else text[start..start + i + 1]
  }

  // ----- The two loops -----

  method IndexOfOpen(s: string) returns (start: int)
    ensures start == FirstOpen(s)
  {
    start := 0;
    while start < |s|
      invariant 0 <= start <= |s|
      invariant FirstOpen(s) == if FirstOpen(s[start..]) < 0 then -1 else start + FirstOpen(s[start..])
    {
      if s[start] == '{' {
        return;
      }
      start := start + 1;
    }
    start := -1;
  }

  method ExtractJson(s: string) returns (r: string)
    ensures r == Extraction(s)
  {
    hide FirstOpen, CloseAt, CloseFrom;
    var start := IndexOfOpen(s);
    if start < 0 {
      return "";
    }
    NotClosedYet(s, start);
    var depth, inStr, esc, i := 0, false, false, start;
    while i < |s|
      invariant start <= i <= |s|
      invariant !inStr ==> !esc
      invariant CloseFrom(s, start, i, Scanner(depth, inStr, esc))
    {
      var c := s[i];
      CloseNext(s, start, i, Scanner(depth, inStr, esc));
      i := i + 1;
      if inStr {
        if esc {
          esc := false;
        } else if c == '\\' {
          esc := true;
        } else if c == '"' {
          inStr := false;
        }
        continue;
      }
      if c == '"' {
        inStr := true;
      } else if c == '{' {
        depth := depth + 1;
      } else if c == '}' {
        depth := depth - 1;
        if depth == 0 {
          return s[start..i];
        }
      }
    }
    NeverCloses(s, start, Scanner(depth, inStr, esc));
    return "";
  }

  /** The twin tests the escape flag first and outside strings too. */
  method ExtractJsonObject(s: string) returns (r: string)
    ensures r == Extraction(s)
  {
    hide FirstOpen, CloseAt, CloseFrom;
    var start := IndexOfOpen(s);
    if start < 0 {
      return "";
    }
    NotClosedYet(s, start);
    var depth, inString, escape, i := 0, false, false, start;
    while i < |s|
      invariant start <= i <= |s|
      invariant escape ==> inString
      invariant CloseFrom(s, start, i, Scanner(depth, inString, escape))
    {
      var c := s[i];
      CloseNext(s, start, i, Scanner(depth, inString, escape));
      i := i + 1;
      if escape {
        escape := false;
        continue;
      }
      if inString {
        if c == '\\' {
          escape := true;
        } else if c == '"' {
          inString := false;
        }
        continue;
      }
      if c == '"' {
        inString := true;
      } else if c == '{' {
        depth := depth + 1;
      } else if c == '}' {
        depth := depth - 1;
        if depth == 0 {
          return s[start..i];
        }
      }
    }
    NeverCloses(s, start, Scanner(depth, inString, escape));
    return "";
  }

  /** The loops' progress: the object has not closed before `i`, and the scanner stands at `i`. */
  ghost predicate CloseFrom(s: string, start: nat, i: nat, scanner: Scanner)
    requires start <= i <= |s|
  {
    CloseAt(OUTSIDE, s[start..]) ==
      if CloseAt(scanner, s[i..]) < 0 then -1 else i - start + CloseAt(scanner, s[i..])
  }

  lemma CloseNext(s: string, start: nat, i: nat, scanner: Scanner)
    requires start <= i < |s| && CloseFrom(s, start, i, scanner)
    ensures
      var closes := !scanner.inString && s[i] == '}' && scanner.depth == 1;
      && (closes ==> CloseAt(OUTSIDE, s[start..]) == i - start)
      && (!closes ==> CloseFrom(s, start, i + 1, Step(scanner, s[i])))
  {
    assert s[i..][1..] == s[i + 1..];
  }

  lemma NotClosedYet(s: string, start: nat)
    requires start <= |s|
    ensures CloseFrom(s, start, start, OUTSIDE)
  {
  }

  lemma NeverCloses(s: string, start: nat, scanner: Scanner)
    requires start <= |s| && CloseFrom(s, start, |s|, scanner)
    ensures CloseAt(OUTSIDE, s[start..]) < 0
  {
  }

  // ----- What the result is -----

  lemma {:induction false} FoldConcat(s: Scanner, a: string, b: string)
    ensures Fold(s, a + b) == Fold(Fold(s, a), b)
    decreases |a|
  {
    if a == "" {
      assert a + b == b;
    } else {
      assert (a + b)[1..] == a[1..] + b;
      FoldConcat(Step(s, a[0]), a[1..], b);
    }
  }

  /** The scanner never returns to depth zero inside `text`. */
  predicate Inside(s: Scanner, text: string)
    decreases |text|
  {
    text == "" || (var s' := Step(s, text[0]); s'.depth > 0 && Inside(s', text[1..]))
  }

  lemma {:induction false} InsideConcat(s: Scanner, a: string, b: string)
    ensures Inside(s, a + b) <==> Inside(s, a) && Inside(Fold(s, a), b)
    decreases |a|
  {
    if a == "" {
      assert a + b == b;
    } else {
      assert (a + b)[1..] == a[1..] + b;
      InsideConcat(Step(s, a[0]), a[1..], b);
    }
  }

  /** Text the scanner passes without closing only shifts the closing position. */
  lemma {:induction false} CloseAfter(s: Scanner, a: string, b: string)
    requires Inside(s, a)
    ensures CloseAt(s, a + b) == if CloseAt(Fold(s, a), b) < 0 then -1 else |a| + CloseAt(Fold(s, a), b)
    decreases |a|
  {
    if a == "" {
      assert a + b == b;
    } else {
      assert (a + b)[1..] == a[1..] + b;
      CloseAfter(Step(s, a[0]), a[1..], b);
    }
  }

  /**
   What the extractors return: nothing, or a piece that starts at the first opening brace,
   ends with a brace, is balanced, and has no shorter balanced beginning.
   */
  lemma ExtractionIsFirstBalanced(text: string)
    ensures var r := Extraction(text);
            r != "" ==>
              && FirstOpen(text) >= 0 && r <= text[FirstOpen(text)..]
              && Fold(OUTSIDE, r) == OUTSIDE && r[|r| - 1] == '}'
              && Inside(OUTSIDE, r[..|r| - 1])
    ensures Extraction(text) == "" && FirstOpen(text) >= 0 ==> Inside(OUTSIDE, text[FirstOpen(text)..])
  {
    hide FirstOpen, CloseAt, Fold, Inside;
    var start := FirstOpen(text);
    if start >= 0 {
      var rest := text[start..];
      ObjectBalances(rest);
      var i := CloseAt(OUTSIDE, rest);
      if i >= 0 {
        assert text[start..start + i + 1] == rest[..i + 1];
        assert rest[..i + 1][..i] == rest[..i];
      }
    }
  }

  lemma ObjectBalances(rest: string)
    requires rest != "" && rest[0] == '{'
    ensures var i := CloseAt(OUTSIDE, rest);
            && (i < 0 ==> Inside(OUTSIDE, rest))
            && (i >= 0 ==> rest[i] == '}' && Inside(OUTSIDE, rest[..i]) && Fold(OUTSIDE, rest[..i + 1]) == OUTSIDE)
  {
    CloseAtBalances(Step(OUTSIDE, '{'), rest[1..]);
    var i := CloseAt(OUTSIDE, rest);
    if i >= 0 {
      assert rest[..i + 1][1..] == rest[1..][..i];
      assert rest[..i][1..] == rest[1..][..i - 1];
    }
  }

  lemma {:induction false} CloseAtBalances(s: Scanner, text: string)
    requires s.depth > 0 && (s.escaped ==> s.inString)
    ensures var i := CloseAt(s, text);
            && (i < 0 ==> Inside(s, text))
            && (i >= 0 ==> Inside(s, text[..i]) && text[i] == '}')
            && (i >= 0 ==> Fold(s, text[..i + 1]) == OUTSIDE)
    decreases |text|
  {
    if text != "" {
      var s' := Step(s, text[0]);
      if !s.inString && text[0] == '}' && s'.depth == 0 {
        assert text[..1] == [text[0]];
      } else {
        CloseAtBalances(s', text[1..]);
        var i := CloseAt(s, text);
        if i >= 0 {
          assert text[..i][1..] == text[1..][..i - 1];
          assert text[..i + 1][1..] == text[1..][..i];
        }
      }
    }
  }
}
