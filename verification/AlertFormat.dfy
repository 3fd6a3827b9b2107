/** The wire format of a relayed distress alert: building, parsing, and when one undoes the other. */
module AlertFormat {
  import opened Common
  import opened AlertText
  import opened Strings

  const PREFIX := "GAFAM911"

  datatype Alert = Alert(id: string, phone: string, name: string, message: string, hop: int)

  function Replace(s: string): string {
    if s == "" then ""
    else
      [if s[0] == '\r' || s[0] == '\n' then ' ' else if s[0] == '|' then '/' else s[0]] + Replace(s[1..])
  }

  /** Characters that would break the format are replaced, then the ends are trimmed. */
  function Sanitize(s: string): string {
    Trim(Replace(s))
  }

  function Head(id: string, hop: int, phone: string): string {
    PREFIX + " " + id + " " + Itoa(hop) + " " + Sanitize(phone)
  }

  function Build(id: string, hop: int, phone: string, name: string, message: string): string {
    Head(id, hop, phone) + SEPARATOR + Sanitize(name) + SEPARATOR + Sanitize(message)
  }

  function Lower(c: char): char {
    if 'A' <= c <= 'Z' then (c as int + 32) as char else c
  }

  predicate EqualFold(a: string, b: string) {
    |a| == |b| && forall i :: 0 <= i < |a| ==> Lower(a[i]) == Lower(b[i])
  }

  function Parse(body: string): Option<Alert> {
    var parts := SplitThree(Trim(body));
    if |parts| < 2 then None
    else
      var head := Fields(parts[0]);
      if |head| != 4 || !EqualFold(head[0], PREFIX) then None
      else
        match Atoi(head[2])
        case None => None
        case Some(hop) =>
          if hop < 1 then None
          else Some(Alert(head[1], head[3], parts[1], if |parts| == 3 then parts[2] else "", hop))
  }

  // ----- Sanitising -----

  lemma {:induction false} ReplaceProperties(s: string)
    ensures |Replace(s)| == |s|
    ensures forall i :: 0 <= i < |s| ==>
              Replace(s)[i] == if s[i] == '\r' || s[i] == '\n' then ' ' else if s[i] == '|' then '/' else s[i]
  {
    if s != "" {
      ReplaceProperties(s[1..]);
    }
  }

  /** No bar, no line break, no white space at the ends. */
  lemma SanitizeIsClean(s: string)
    ensures var c := Sanitize(s); Trimmed(c) && '|' !in c && '\r' !in c && '\n' !in c
  {
    ReplaceProperties(s);
    TrimIsTrimmed(Replace(s));
  }

  /** A line break becomes a blank, a bar a slash, and any other character stays as it is. */
  predicate Cleaned(c: char, d: char) {
    d == if c == '\r' || c == '\n' then ' ' else if c == '|' then '/' else c
  }

  /** The text from i to j stands in `t` character for character, and only white space around it is gone. */
  predicate KeepsFrom(s: string, t: string, i: nat, j: nat) {
    && i <= j <= |s| && |t| == j - i && OnlySpaceOutside(s, i, j)
    && forall k :: i <= k < j ==> Cleaned(s[k], t[k - i])
  }

  lemma SanitizeKeepsTheText(s: string)
    ensures exists i: nat, j: nat :: KeepsFrom(s, Sanitize(s), i, j)
  {
    ReplaceProperties(s);
    var i, j := TrimCutsOnlySpace(Replace(s));
    forall k | (0 <= k < i || j <= k < |s|) ensures IsSpace(s[k]) {
      assert IsSpace(Replace(s)[k]);
    }
    assert KeepsFrom(s, Sanitize(s), i, j);
  }

  lemma SanitizeTwice(s: string)
    ensures Sanitize(Sanitize(s)) == Sanitize(s)
  {
    SanitizeIsClean(s);
    var c := Sanitize(s);
    ReplaceProperties(c);
    assert Replace(c) == c by {
      forall i | 0 <= i < |c| ensures Replace(c)[i] == c[i] {
        assert c[i] in c;
      }
    }
    TrimmedStays(c);
  }

  // ----- The round trip -----

  /** The fields survive: id and phone are single words, the id is not a lone bar, there is a message. */
  predicate Transmittable(id: string, hop: int, phone: string, message: string) {
    Solid(id) && id != "|" && Solid(Sanitize(phone)) && Sanitize(message) != "" && hop >= 1
  }

  function Sent(id: string, hop: int, phone: string, name: string, message: string): Alert {
    Alert(id, Sanitize(phone), Sanitize(name), Sanitize(message), hop)
  }

  lemma HeadFields(id: string, hop: int, phone: string)
    requires Solid(id) && MIN_INT <= hop <= MAX_INT
    ensures Fields(Head(id, hop, phone)) == [PREFIX, id, Itoa(hop)] + Fields(Sanitize(phone))
  {
    AtoiItoa(hop);
    HeadNests(id, hop, phone);
    PrefixIsSolid();
    hide *;
    WordFields(PREFIX, id, Itoa(hop), Sanitize(phone));
  }

  lemma PrefixIsSolid()
    ensures Solid(PREFIX)
  {
  }

  lemma HeadNests(id: string, hop: int, phone: string)
    ensures Head(id, hop, phone) == PREFIX + (" " + (id + (" " + (Itoa(hop) + (" " + Sanitize(phone))))))
  {
    hide Sanitize, Itoa;
    var p, h := Sanitize(phone), Itoa(hop);
    assert (PREFIX + " " + id + " " + h) + " " + p == (PREFIX + " " + id + " ") + (h + (" " + p));
    assert (PREFIX + " " + id + " ") + (h + (" " + p)) == PREFIX + (" " + (id + (" " + (h + (" " + p)))));
  }

  lemma WordFields(a: string, b: string, c: string, d: string)
    requires Solid(a) && Solid(b) && Solid(c)
    ensures Fields(a + (" " + (b + (" " + (c + (" " + d)))))) == [a, b, c] + Fields(d)
  {
    hide *;
    AfterWord(c, d);
    AfterWord(b, c + (" " + d));
    AfterWord(a, b + (" " + (c + (" " + d))));
  }

  lemma AfterWord(w: string, rest: string)
    requires Solid(w)
    ensures Fields(w + (" " + rest)) == [w] + Fields(rest)
  {
    FieldsOfWord(w, " " + rest);
  }

  /** Inside the head a separator can only come from an id that is a lone bar. */
  lemma NoSeparatorInHead(id: string, hop: int, phone: string, tail: string)
    requires Solid(id) && id != "|" && MIN_INT <= hop <= MAX_INT
    ensures forall i :: 0 <= i < |Head(id, hop, phone)| ==> !SeparatorAt(Head(id, hop, phone) + SEPARATOR + tail, i)
  {
    AtoiItoa(hop);
    SanitizeIsClean(phone);
    var head := Head(id, hop, phone);
    var s := head + SEPARATOR + tail;
    forall i | 0 <= i < |head| ensures !SeparatorAt(s, i) {
      if SeparatorAt(s, i) {
        BarIsInId(id, Itoa(hop), Sanitize(phone), tail, i);
      }
    }
  }

  lemma BarIsInId(id: string, h: string, p: string, tail: string, i: nat)
    requires Solid(id) && id != "|" && Solid(h) && '|' !in h && Trimmed(p) && '|' !in p
    requires i < |PREFIX + " " + id + " " + h + " " + p|
    ensures !SeparatorAt(PREFIX + " " + id + " " + h + " " + p + SEPARATOR + tail, i)
  {
    var s := PREFIX + " " + id + " " + h + " " + p + SEPARATOR + tail;
    var a, b, c := 9 + |id|, 10 + |id| + |h|, 11 + |id| + |h| + |p|;
    assert forall k :: 0 <= k < 8 ==> s[k] == PREFIX[k];
    assert forall k :: 9 <= k < a ==> s[k] == id[k - 9];
    assert forall k :: a + 1 <= k < b ==> s[k] == h[k - a - 1];
    assert forall k :: b + 1 <= k < c ==> s[k] == p[k - b - 1];
    assert s[8] == ' ' && s[a] == ' ' && s[b] == ' ';
    if i < 8 {
      assert s[i] != ' ';
    } else if i == 8 {
      assert |id| > 1 ==> s[10] == id[1] && !IsSpace(id[1]);
      assert |id| == 1 ==> s[9] == id[0] && id[0] != '|';
    } else if i < a {
      assert s[i] == id[i - 9] && !IsSpace(id[i - 9]);
    } else if i == a {
      assert s[a + 1] == h[0] && h[0] in h;
    } else if i < b {
      assert s[i] == h[i - a - 1] && !IsSpace(h[i - a - 1]);
    } else if i == b {
      assert p != "" ==> s[b + 1] == p[0] && p[0] in p;
      assert p == "" ==> s[b + 1] == ' ';
    } else if i + 1 < c {
      assert s[i + 1] == p[i - b] && p[i - b] in p;
    } else {
      assert s[i] == p[|p| - 1] && !IsSpace(p[|p| - 1]);
    }
  }

  lemma NoSeparatorInName(name: string, tail: string)
    ensures forall i :: 0 <= i < |Sanitize(name)| ==> !SeparatorAt(Sanitize(name) + SEPARATOR + tail, i)
  {
    SanitizeIsClean(name);
    var n := Sanitize(name);
    var s := n + SEPARATOR + tail;
    forall i | 0 <= i < |n| ensures !SeparatorAt(s, i) {
      if i + 1 < |n| {
        assert s[i + 1] == n[i + 1] && n[i + 1] in n;
      } else {
        assert s[i + 1] == ' ';
      }
    }
  }

  lemma ParseBuild(id: string, hop: int, phone: string, name: string, message: string)
    requires Transmittable(id, hop, phone, message) && hop <= MAX_INT
    ensures Parse(Build(id, hop, phone, name, message)) == Some(Sent(id, hop, phone, name, message))
  {
    hide Fields, SplitThree, Trim, Itoa, Atoi, Sanitize, Head;
    SplitBuilt(id, hop, phone, name, message);
    HeadFields(id, hop, phone);
    OneWord(Sanitize(phone));
    AtoiItoa(hop);
  }

  lemma SplitBuilt(id: string, hop: int, phone: string, name: string, message: string)
    requires Transmittable(id, hop, phone, message) && hop <= MAX_INT
    ensures SplitThree(Trim(Build(id, hop, phone, name, message)))
            == [Head(id, hop, phone), Sanitize(name), Sanitize(message)]
  {
    hide Sanitize, Itoa, Trim, SeparatorIn;
    var body := Build(id, hop, phone, name, message);
    var head, n, m := Head(id, hop, phone), Sanitize(name), Sanitize(message);
    SanitizeIsClean(message);
    assert body[0] == 'G' && body[|body| - 1] == m[|m| - 1];
    TrimmedStays(body);
    var tail := n + SEPARATOR + m;
    assert body == head + SEPARATOR + tail;
    NoSeparatorInHead(id, hop, phone, tail);
    SeparatorIsAt(head, tail);
    NoSeparatorInName(name, m);
    SeparatorIsAt(n, m);
    assert body[..|head|] == head && body[|head| + 3..] == tail;
    assert tail[..|n|] == n && tail[|n| + 3..] == m;
  }

  /** Without a message the trailing separator is trimmed away and the name takes the bar. */
  lemma EmptyMessageBreaks(id: string, hop: int, phone: string, name: string)
    requires Solid(id) && id != "|" && Solid(Sanitize(phone)) && 1 <= hop <= MAX_INT
    ensures Parse(Build(id, hop, phone, name, "")) == Some(Alert(id, Sanitize(phone), Sanitize(name) + " |", "", hop))
  {
    hide Fields, SplitThree, Trim, Itoa, Atoi, Sanitize, Head;
    SplitWithoutMessage(id, hop, phone, name);
    HeadFields(id, hop, phone);
    OneWord(Sanitize(phone));
    AtoiItoa(hop);
  }

  lemma SplitWithoutMessage(id: string, hop: int, phone: string, name: string)
    requires Solid(id) && id != "|" && Solid(Sanitize(phone)) && 1 <= hop <= MAX_INT
    ensures SplitThree(Trim(Build(id, hop, phone, name, ""))) == [Head(id, hop, phone), Sanitize(name) + " |"]
  {
    assert Sanitize("") == "";
    hide Sanitize, Itoa, SeparatorIn, TrimRight, SeparatorAt;
    var body := Build(id, hop, phone, name, "");
    var head, n := Head(id, hop, phone), Sanitize(name);
    var tail := n + " |";
    var kept := head + SEPARATOR + tail;
    assert body == head + SEPARATOR + n + SEPARATOR + "";
    EmptyTail(head, n);
    assert body[0] == 'G' && TrimLeft(body) == body;
    TrimRightOf(kept, " ");
    NoSeparatorInHead(id, hop, phone, tail);
    SeparatorIsAt(head, tail);
    assert kept[..|head|] == head && kept[|head| + 3..] == tail;
    SanitizeIsClean(name);
    NoBarNoSeparator(n);
  }

  lemma EmptyTail(head: string, n: string)
    ensures head + SEPARATOR + n + SEPARATOR + "" == head + SEPARATOR + (n + " |") + " "
  {
  }

  lemma NoBarNoSeparator(n: string)
    requires '|' !in n
    ensures SeparatorIn(n + " |", 0) == -1
  {
    var tail := n + " |";
    forall i | 0 <= i < |tail| ensures !SeparatorAt(tail, i) {
      if i + 1 < |n| {
        assert tail[i + 1] == n[i + 1] && n[i + 1] in n;
      }
    }
  }

  /** A lone bar as id is taken for a separator. */
  lemma BarIdBreaks(hop: int, phone: string, name: string, message: string)
    requires MIN_INT <= hop <= MAX_INT
    ensures Parse(Build("|", hop, phone, name, message)) == None
  {
    var body := Build("|", hop, phone, name, message);
    HopAtEleven(hop, phone, name, message);
    hide Build, TrimRight, Fields, IsSpace, SeparatorIn, Atoi, EqualFold;
    TrimRightKeeps(body, 11);
    var t := Trim(body);
    assert t == TrimRight(body) && t[..11] == body[..11];
    SeparatorIsAtEight(t);
    assert SplitThree(t)[0] == PREFIX;
    PrefixIsSolid();
    OneWord(PREFIX);
  }

  lemma HopAtEleven(hop: int, phone: string, name: string, message: string)
    requires MIN_INT <= hop <= MAX_INT
    ensures var body := Build("|", hop, phone, name, message);
            |body| > 11 && body[..11] == PREFIX + SEPARATOR && !IsSpace(body[11]) && !IsSpace(body[0])
  {
    AtoiItoa(hop);
    BarHead();
    var h, body := Itoa(hop), Build("|", hop, phone, name, message);
    assert body == PREFIX + " " + "|" + " " + h + " " + Sanitize(phone) + SEPARATOR + Sanitize(name) + SEPARATOR + Sanitize(message);
    hide *;
    StartsWith(PREFIX + " " + "|" + " ", h, Sanitize(phone), Sanitize(name), Sanitize(message));
  }

  lemma BarHead()
    ensures var a := PREFIX + " " + "|" + " "; a == PREFIX + SEPARATOR && |a| == 11 && a[0] == 'G' && !IsSpace('G')
  {
  }

  lemma StartsWith(a: string, h: string, p: string, n: string, m: string)
    requires a != "" && h != ""
    ensures var body := a + h + " " + p + SEPARATOR + n + SEPARATOR + m;
            |body| > |a| && body[..|a|] == a && body[|a|] == h[0] && body[0] == a[0]
  {
  }

  lemma SeparatorIsAtEight(t: string)
    requires |t| > 11 && t[..11] == PREFIX + SEPARATOR
    ensures SeparatorIn(t, 0) == 8 && t[..8] == PREFIX
  {
    assert forall i :: 0 <= i < 11 ==> t[i] == (PREFIX + SEPARATOR)[i];
    assert SeparatorAt(t, 8);
    forall i | 0 <= i < 8 ensures !SeparatorAt(t, i) {
      assert t[i] == PREFIX[i] && PREFIX[i] != ' ';
    }
  }

  /**
   Parsing a built body gives back the id, the hop and the sanitised fields exactly if the
   id and the sanitised phone are single words, the id is not a lone bar, the hop is at
   least 1 and the sanitised message is not empty.
   */
  lemma RoundTripIffTransmittable(id: string, hop: int, phone: string, name: string, message: string)
    requires MIN_INT <= hop <= MAX_INT
    ensures Parse(Build(id, hop, phone, name, message)) == Some(Sent(id, hop, phone, name, message))
            <==> Transmittable(id, hop, phone, message)
  {
    var body := Build(id, hop, phone, name, message);
    assert Sanitize("") == "";
    hide Parse, Sanitize, Head;
    if Transmittable(id, hop, phone, message) {
      ParseBuild(id, hop, phone, name, message);
    } else if Parse(body) == Some(Sent(id, hop, phone, name, message)) {
      ParsedWordsAreSolid(body);
      if id == "|" {
        BarIdBreaks(hop, phone, name, message);
      } else {
        EmptyMessageBreaks(id, hop, phone, name);
      }
    }
  }

  lemma ParsedWordsAreSolid(body: string)
    ensures Parse(body).Some? ==>
              Solid(Parse(body).value.id) && Solid(Parse(body).value.phone) && Parse(body).value.hop >= 1
  {
    FieldsAreSolid(SplitThree(Trim(body))[0]);
  }

  /**
   Whatever the texts are, a built body is understood exactly if the sanitised phone is a single
   word, and then with the id and the hop it was built with.
   */
  lemma HeaderSurvives(id: string, hop: int, phone: string, name: string, message: string)
    requires Solid(id) && id != "|" && 1 <= hop <= MAX_INT
    ensures var a := Parse(Build(id, hop, phone, name, message));
            && (a.Some? <==> Solid(Sanitize(phone)))
            && (a.Some? ==> a.value.id == id && a.value.hop == hop)
  {
    assert EqualFold(PREFIX, PREFIX);
    hide *;
    HeadIsFirstPart(id, hop, phone, name, message);
    HeadFields(id, hop, phone);
    SanitizeIsClean(phone);
    OneFieldIffSolid(Sanitize(phone));
    AtoiItoa(hop);
    ParsedFrom(Build(id, hop, phone, name, message), id, hop, Fields(Sanitize(phone)));
  }

  /** Only the fields of the first part decide whether a body is understood. */
  lemma ParsedFrom(body: string, id: string, hop: int, last: seq<string>)
    requires |SplitThree(Trim(body))| >= 2 && hop >= 1 && Atoi(Itoa(hop)) == Some(hop) && EqualFold(PREFIX, PREFIX)
    requires Fields(SplitThree(Trim(body))[0]) == [PREFIX, id, Itoa(hop)] + last
    ensures Parse(body).Some? <==> |last| == 1
    ensures Parse(body).Some? ==> Parse(body).value.id == id && Parse(body).value.hop == hop
  {
    hide Fields, SplitThree, Trim, Itoa, Atoi, EqualFold;
  }

  lemma HeadIsFirstPart(id: string, hop: int, phone: string, name: string, message: string)
    requires Solid(id) && id != "|" && 1 <= hop <= MAX_INT
    ensures var parts := SplitThree(Trim(Build(id, hop, phone, name, message)));
            |parts| >= 2 && parts[0] == Head(id, hop, phone)
  {
    var head, n, m := Head(id, hop, phone), Sanitize(name), Sanitize(message);
    var body, tail := Build(id, hop, phone, name, message), n + SEPARATOR + m;
    assert body[0] == 'G' && TrimLeft(body) == body;
    hide Sanitize, Itoa, Head, TrimRight, SeparatorIn;
    assert body == head + SEPARATOR + tail;
    var k := |head| + 3 + |n| + 1;
    assert body[k] == '|';
    TrimRightKeeps(body, k);
    var t := Trim(body);
    NoSeparatorInHead(id, hop, phone, tail);
    FirstSeparatorStays(head, tail, t);
  }

  lemma FirstSeparatorStays(head: string, tail: string, t: string)
    requires t <= head + SEPARATOR + tail && |t| >= |head| + 3
    requires forall i :: 0 <= i < |head| ==> !SeparatorAt(head + SEPARATOR + tail, i)
    ensures SeparatorIn(t, 0) == |head| && t[..|head|] == head
  {
    var s := head + SEPARATOR + tail;
    assert t == s[..|t|];
    assert SeparatorAt(s, |head|) && SeparatorAt(t, |head|);
    forall i | 0 <= i < |head| ensures !SeparatorAt(t, i) {
      assert !SeparatorAt(s, i);
    }
  }

  /** Relaying a received alert with the next hop number changes nothing but the number. */
  lemma RelayChangesOnlyTheHop(id: string, hop: int, phone: string, name: string, message: string)
    requires Transmittable(id, hop, phone, message) && hop < MAX_INT
    ensures var a := Parse(Build(id, hop, phone, name, message));
            && a.Some?
            && Build(a.value.id, hop + 1, a.value.phone, a.value.name, a.value.message)
               == Build(id, hop + 1, phone, name, message)
            && Parse(Build(a.value.id, hop + 1, a.value.phone, a.value.name, a.value.message))
               == Some(a.value.(hop := hop + 1))
  {
    hide Parse, Sanitize, Itoa, Solid;
    ParseBuild(id, hop, phone, name, message);
    ParseBuild(id, hop + 1, phone, name, message);
    SanitizeTwice(phone);
    SanitizeTwice(name);
    SanitizeTwice(message);
  }
}
