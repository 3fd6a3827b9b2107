/** Message rows, phone matching, and what it means for two rows to be the same message. */
module SmsTypes {
  import opened Selections

  /** One stored message; rows of a table are listed in order of their ids. */
  datatype Row = Row(id: int, sender: string, body: string, timestamp: int)

  const WINDOW := 180_000

  function Abs(a: int): nat {
    if a < 0 then -a else a
  }

  predicate IsDigit(c: char) {
    '0' <= c <= '9'
  }

  function DigitsOf(s: string): string {
    if s == "" then ""
    else DigitsOf(s[..|s| - 1]) + if IsDigit(s[|s| - 1]) then [s[|s| - 1]] else ""
  }

  /** The last nine digits, or all of them if there are fewer. */
  function Canonical(s: string): string {
    var d := DigitsOf(s);
    if |d| >= 9 then d[|d| - 9..] else d
  }

  predicate PhonesMatch(a: string, b: string) {
    Canonical(a) != "" && Canonical(b) != "" && Canonical(a) == Canonical(b)
  }

  lemma {:induction false} DigitsAreSelected(s: string)
    ensures Selects(DigitsOf(s), s, IsDigit)
  {
    hide Selects;
    if s == "" {
      SelectsNone(IsDigit);
    } else {
      var front, last := s[..|s| - 1], s[|s| - 1];
      DigitsAreSelected(front);
      SelectsNext(DigitsOf(front), front, last, IsDigit);
      assert s == front + [last];
    }
  }

  /** The last nine of the digits, or all if there are no more. */
  ghost predicate LastNineDigits(s: string, out: string) {
    exists digits: string :: Selects(digits, s, IsDigit)
      && |out| == (if |digits| < 9 then |digits| else 9) && digits[|digits| - |out|..] == out
  }

  lemma CanonicalMeans(s: string)
    ensures LastNineDigits(s, Canonical(s))
  {
    DigitsAreSelected(s);
    hide Selects, DigitsOf;
  }

  method LastDigits(s: string) returns (out: string)
    ensures out == Canonical(s) && LastNineDigits(s, out)
  {
    CanonicalMeans(s);
    hide LastNineDigits;
    out := "";
    for i := 0 to |s|
      invariant out == DigitsOf(s[..i])
    {
      assert s[..i + 1][..i] == s[..i];
      if '0' <= s[i] <= '9' {
        out := out + [s[i]];
      }
    }
    assert s[..|s|] == s;
    if |out| >= 9 {
      out := out[|out| - 9..];
    }
  }

  method Match(a: string, b: string) returns (r: bool)
    ensures r == PhonesMatch(a, b)
  {
    var ca := LastDigits(a);
    var cb := LastDigits(b);
    return ca != "" && cb != "" && ca == cb;
  }

  /** Matching is a partial equivalence: a sender without digits matches nothing, itself included. */
  lemma MatchingIsPartialEquivalence(a: string, b: string, c: string)
    ensures PhonesMatch(a, b) <==> PhonesMatch(b, a)
    ensures PhonesMatch(a, b) && PhonesMatch(b, c) ==> PhonesMatch(a, c)
    ensures PhonesMatch(a, a) <==> exists ch :: ch in a && IsDigit(ch)
  {
    SomeDigit(a);
  }

  lemma {:induction false} SomeDigit(s: string)
    ensures DigitsOf(s) != "" <==> exists ch :: ch in s && IsDigit(ch)
  {
    if s != "" {
      var front, last := s[..|s| - 1], s[|s| - 1];
      SomeDigit(front);
      assert s == front + [last];
      if ch :| ch in s && IsDigit(ch) {
        assert ch in front || ch == last;
      }
    }
  }

  predicate Near(a: Row, b: Row) {
    a.body == b.body && PhonesMatch(a.sender, b.sender) && Abs(a.timestamp - b.timestamp) < WINDOW
  }

  ghost predicate Ascending(rows: seq<Row>) {
    forall i, j :: 0 <= i < j < |rows| ==> rows[i].id < rows[j].id
  }

  /** The same rows with other senders. */
  function WithSenders(rows: seq<Row>, senders: seq<string>): (r: seq<Row>)
    requires |senders| == |rows|
    ensures |r| == |rows|
    ensures forall i :: 0 <= i < |r| ==> r[i] == rows[i].(sender := senders[i])
  {
    seq(|rows|, i requires 0 <= i < |rows| => rows[i].(sender := senders[i]))
  }
}
