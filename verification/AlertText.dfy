/** The string operations behind the alert format: trimming, fields, splitting, numbers. */
module AlertText {
  import opened Common
  import opened Strings
  import Board

  /** A non-empty word without blanks. */
  predicate Solid(s: string) {
    s != "" && forall i :: 0 <= i < |s| ==> !IsSpace(s[i])
  }

  lemma TrimmedStays(s: string)
    requires Trimmed(s)
    ensures Trim(s) == s
  {
  }

  lemma {:induction false} TrimRightOf(s: string, blanks: string)
    requires s == "" || !IsSpace(s[|s| - 1])
    requires forall i :: 0 <= i < |blanks| ==> IsSpace(blanks[i])
    ensures TrimRight(s + blanks) == s
  {
    if blanks == "" {
      assert s + blanks == s;
    } else {
      var n := |blanks| - 1;
      assert (s + blanks)[..|s + blanks| - 1] == s + blanks[..n];
      TrimRightOf(s, blanks[..n]);
    }
  }

  /** Trimming on the right never cuts a character that is not white space, nor anything before it. */
  lemma {:induction false} TrimRightKeeps(s: string, k: nat)
    requires k < |s| && !IsSpace(s[k])
    ensures |TrimRight(s)| > k && TrimRight(s) <= s
  {
    if IsSpace(s[|s| - 1]) {
      TrimRightKeeps(s[..|s| - 1], k);
    }
  }

  // ----- Splitting at " | " -----

  const SEPARATOR := " | "

  predicate SeparatorAt(s: string, i: int) {
    0 <= i <= |s| - 3 && s[i] == ' ' && s[i + 1] == '|' && s[i + 2] == ' '
  }

  function SeparatorIn(s: string, from: nat): (i: int)
    ensures i == -1 || (from <= i && SeparatorAt(s, i))
    ensures forall j :: from <= j < (if i < 0 then |s| else i) ==> !SeparatorAt(s, j)
    decreases |s| - from
  {
    if from >= |s| then -1
    else if SeparatorAt(s, from) then from
    else SeparatorIn(s, from + 1)
  }

  /** At most three parts. */
  function SplitThree(s: string): (parts: seq<string>)
    ensures 1 <= |parts| <= 3
  {
    var i := SeparatorIn(s, 0);
    if i < 0 then [s]
    else
      var rest := s[i + 3..];
      var j := SeparatorIn(rest, 0);
      if j < 0 then [s[..i], rest] else [s[..i], rest[..j], rest[j + 3..]]
  }

  lemma SeparatorIsAt(a: string, b: string)
    requires forall i :: 0 <= i < |a| ==> !SeparatorAt(a + SEPARATOR + b, i)
    ensures SeparatorIn(a + SEPARATOR + b, 0) == |a|
  {
    var s := a + SEPARATOR + b;
    assert SeparatorAt(s, |a|);
  }

  // ----- Fields -----

  function WordLength(s: string): (n: nat)
    ensures n <= |s|
    ensures forall i :: 0 <= i < n ==> !IsSpace(s[i])
    ensures n < |s| ==> IsSpace(s[n])
  {
    if s == "" || IsSpace(s[0]) then 0 else 1 + WordLength(s[1..])
  }

  function Fields(s: string): seq<string>
    decreases |s|
  {
    if s == "" then []
    else if IsSpace(s[0]) then Fields(s[1..])
    else
      var n := WordLength(s);
      [s[..n]] + Fields(s[n..])
  }

  lemma {:induction false} FieldsAreSolid(s: string)
    ensures forall f | f in Fields(s) :: Solid(f)
    decreases |s|
  {
    if s != "" {
      if IsSpace(s[0]) {
        FieldsAreSolid(s[1..]);
      } else {
        FieldsAreSolid(s[WordLength(s)..]);
      }
    }
  }

  lemma {:induction false} WordEnds(w: string, rest: string)
    requires forall i :: 0 <= i < |w| ==> !IsSpace(w[i])
    requires rest != "" ==> IsSpace(rest[0])
    ensures WordLength(w + rest) == |w|
  {
    if w == "" {
      assert w + rest == rest;
    } else {
      assert (w + rest)[0] == w[0] && (w + rest)[1..] == w[1..] + rest;
      WordEnds(w[1..], rest);
    }
  }

  lemma FieldsOfWord(w: string, rest: string)
    requires Solid(w) && (rest != "" ==> IsSpace(rest[0]))
    ensures Fields(w + rest) == [w] + Fields(rest)
  {
    WordEnds(w, rest);
    var n := |w|;
    assert (w + rest)[..n] == w && (w + rest)[n..] == rest;
    assert (w + rest)[0] == w[0];
  }

  lemma OneWord(w: string)
    requires Solid(w)
    ensures Fields(w) == [w]
  {
    assert w + "" == w;
    FieldsOfWord(w, "");
  }

  lemma {:induction false} SomeField(s: string)
    requires s != "" && !IsSpace(s[|s| - 1])
    ensures Fields(s) != []
    decreases |s|
  {
    if IsSpace(s[0]) {
      SomeField(s[1..]);
    }
  }

  /** A trimmed text is a single word exactly if it has a single field. */
  lemma OneFieldIffSolid(s: string)
    requires Trimmed(s)
    ensures |Fields(s)| == 1 <==> Solid(s)
  {
    if Solid(s) {
      OneWord(s);
    } else if s != "" {
      var n := WordLength(s);
      assert n < |s|;
      SomeField(s[n..]);
    }
  }

  // ----- Numbers -----

  const MAX_INT := 0x7fff_ffff_ffff_ffff
  const MIN_INT := -0x8000_0000_0000_0000

  function Itoa(n: int): string {
    if n < 0 then "-" + Board.Digits(-n) else Board.Digits(n)
  }

  function Atoi(s: string): Option<int> {
    var sign := |s| > 0 && (s[0] == '-' || s[0] == '+');
    var digits := if sign then s[1..] else s;
    if digits == "" || !Board.OnlyDigits(digits) then None
    else
      var m: int := Board.NumberOf(digits);
      var n := if sign && s[0] == '-' then -m else m;
      if MIN_INT <= n <= MAX_INT then Some(n) else None
  }

  lemma AtoiItoa(n: int)
    requires MIN_INT <= n <= MAX_INT
    ensures Atoi(Itoa(n)) == Some(n) && Solid(Itoa(n)) && '|' !in Itoa(n)
  {
    hide Board.Digits, Board.NumberOf;
    var m := if n < 0 then -n else n;
    var d := Board.Digits(m);
    Board.NumberOfDigits(m);
    assert ("-" + d)[1..] == d;
    assert d[0] != '-' && d[0] != '+';
    forall i | 0 <= i < |d| ensures !IsSpace(d[i]) && d[i] != '|' {
    }
  }
}
