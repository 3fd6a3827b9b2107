/**
 Extracting a printed JSON object from the middle of free text gives back the object.
 Trees follow sections 4 to 7 of RFC 8259, with any whitespace between tokens.
 */
module JsonRoundTrip {
  import opened JsonExtract

  /** A character of a string, plain or escaped; \uXXXX is an escaped u and four plain ones. */
  datatype StringPart = Raw(c: char) | Escaped(c: char)

  datatype Json =
    | Literal(text: string)
    | Text(parts: seq<StringPart>)
    | Array(blank: string, items: seq<Item>)
    | Object(blank: string, members: seq<Member>)

  datatype Item = Item(before: string, value: Json, after: string)

  datatype Member = Member(
    before: string, key: seq<StringPart>, beforeColon: string, afterColon: string, value: Json, after: string)

  // ----- Well-formed trees -----

  predicate Whitespace(s: string) {
    forall c | c in s :: c == ' ' || c == '\t' || c == '\n' || c == '\r'
  }

  /** Numbers and the three names contain none of the scanner's characters. */
  predicate Neutral(s: string) {
    forall c | c in s :: c != '{' && c != '}' && c != '"'
  }

  predicate GoodParts(parts: seq<StringPart>) {
    forall p | p in parts :: p.Raw? ==> p.c != '"' && p.c != '\\'
  }

  predicate Good(v: Json)
    decreases v
  {
    match v
    case Literal(text) => Neutral(text)
    case Text(parts) => GoodParts(parts)
    case Array(blank, items) => Whitespace(blank) && GoodItems(items)
    case Object(blank, members) => Whitespace(blank) && GoodMembers(members)
  }

  predicate GoodItems(items: seq<Item>)
    decreases items
  {
    items == [] ||
    (Whitespace(items[0].before) && Good(items[0].value) && Whitespace(items[0].after) && GoodItems(items[1..]))
  }

  predicate GoodMembers(members: seq<Member>)
    decreases members
  {
    members == [] ||
    (var m := members[0];
     && Whitespace(m.before) && GoodParts(m.key) && Whitespace(m.beforeColon) && Whitespace(m.afterColon)
     && Good(m.value) && Whitespace(m.after) && GoodMembers(members[1..]))
  }

  // ----- Printing -----

  function PrintParts(parts: seq<StringPart>): string {
    if parts == [] then ""
    else (if parts[0].Raw? then [parts[0].c] else ['\\', parts[0].c]) + PrintParts(parts[1..])
  }

  function Quoted(parts: seq<StringPart>): string {
    "\"" + PrintParts(parts) + "\""
  }

  function Print(v: Json): string
    decreases v
  {
    match v
    case Literal(text) => text
    case Text(parts) => Quoted(parts)
    case Array(blank, items) => "[" + blank + PrintItems(items) + "]"
    case Object(blank, members) => "{" + blank + PrintMembers(members) + "}"
  }

  function PrintItems(items: seq<Item>): string
    decreases items
  {
    if items == [] then ""
    else
      items[0].before + Print(items[0].value) + items[0].after
      + (if |items| > 1 then "," else "") + PrintItems(items[1..])
  }

  function PrintMembers(members: seq<Member>): string
    decreases members
  {
    if members == [] then ""
    else
      var m := members[0];
      m.before + Quoted(m.key) + m.beforeColon + ":" + m.afterColon + Print(m.value) + m.after
      + (if |members| > 1 then "," else "") + PrintMembers(members[1..])
  }

  // ----- Printed pieces leave the scanner where it was -----

  /** Reading `text` at any depth inside an object returns to the same place without closing. */
  ghost predicate Passes(text: string) {
    forall d :: d > 0 ==> Inside(At(d), text) && Fold(At(d), text) == At(d)
  }

  function At(depth: int): Scanner {
    Scanner(depth, false, false)
  }

  lemma PassesConcat(a: string, b: string)
    requires Passes(a) && Passes(b)
    ensures Passes(a + b)
  {
    forall d | d > 0 ensures Inside(At(d), a + b) && Fold(At(d), a + b) == At(d) {
      InsideConcat(At(d), a, b);
      FoldConcat(At(d), a, b);
    }
  }

  lemma {:induction false} NeutralPasses(text: string)
    requires Neutral(text)
    ensures Passes(text)
  {
    if text != "" {
      forall c | c in text[1..] ensures c in text {
      }
      NeutralPasses(text[1..]);
      forall d | d > 0 ensures Inside(At(d), text) && Fold(At(d), text) == At(d) {
        assert text[0] in text;
        assert Step(At(d), text[0]) == At(d);
      }
    }
  }

  lemma WhitespacePasses(text: string)
    requires Whitespace(text)
    ensures Passes(text)
  {
    NeutralPasses(text);
  }

  lemma {:induction false} PartsStayInString(parts: seq<StringPart>, d: int)
    requires GoodParts(parts) && d > 0
    ensures Inside(Scanner(d, true, false), PrintParts(parts))
    ensures Fold(Scanner(d, true, false), PrintParts(parts)) == Scanner(d, true, false)
  {
    if parts != [] {
      var s := Scanner(d, true, false);
      var first := if parts[0].Raw? then [parts[0].c] else ['\\', parts[0].c];
      PartsStayInString(parts[1..], d);
      assert parts[0] in parts;
      if parts[0].Raw? {
        assert Step(s, parts[0].c) == s;
        assert first[1..] == "";
      } else {
        assert first[1..] == [parts[0].c] && first[1..][1..] == "";
        assert Step(Step(s, '\\'), parts[0].c) == s;
        assert Fold(s, first) == Fold(Step(s, '\\'), [parts[0].c]) == s;
      }
      assert Inside(s, first) && Fold(s, first) == s;
      InsideConcat(s, first, PrintParts(parts[1..]));
      FoldConcat(s, first, PrintParts(parts[1..]));
    }
  }

  lemma QuotedPasses(parts: seq<StringPart>)
    requires GoodParts(parts)
    ensures Passes(Quoted(parts))
  {
    var body := PrintParts(parts);
    forall d | d > 0 ensures Inside(At(d), Quoted(parts)) && Fold(At(d), Quoted(parts)) == At(d) {
      PartsStayInString(parts, d);
      var s := Scanner(d, true, false);
      assert ("\"" + body)[1..] == body;
      assert Inside(At(d), "\"" + body) && Fold(At(d), "\"" + body) == s;
      assert "\""[1..] == "";
      InsideConcat(At(d), "\"" + body, "\"");
      FoldConcat(At(d), "\"" + body, "\"");
    }
  }

  /** A brace pair around passing text passes: one level deeper and back. */
  lemma BracesPass(body: string)
    requires Passes(body)
    ensures Passes("{" + body + "}")
  {
    forall d | d > 0 ensures Inside(At(d), "{" + body + "}") && Fold(At(d), "{" + body + "}") == At(d) {
      assert ("{" + body)[1..] == body && Step(At(d), '{') == At(d + 1);
      assert Inside(At(d + 1), body) && Fold(At(d + 1), body) == At(d + 1);
      assert Inside(At(d), "{" + body) && Fold(At(d), "{" + body) == At(d + 1);
      assert "}"[1..] == "";
      InsideConcat(At(d), "{" + body, "}");
      FoldConcat(At(d), "{" + body, "}");
    }
  }

  lemma {:induction false} PrintPasses(v: Json)
    requires Good(v)
    ensures Passes(Print(v))
    decreases v
  {
    match v
    case Literal(text) => NeutralPasses(text);
    case Text(parts) => QuotedPasses(parts);
    case Array(blank, items) =>
      WhitespacePasses(blank);
      ItemsPass(items);
      NeutralPasses("[");
      NeutralPasses("]");
      PassesConcat("[", blank);
      PassesConcat("[" + blank, PrintItems(items));
      PassesConcat("[" + blank + PrintItems(items), "]");
    case Object(blank, members) =>
      WhitespacePasses(blank);
      MembersPass(members);
      PassesConcat(blank, PrintMembers(members));
      BracesPass(blank + PrintMembers(members));
      assert "{" + (blank + PrintMembers(members)) + "}" == Print(v);
  }

  lemma SeparatorPasses(more: bool)
    ensures Passes(if more then "," else "")
  {
    NeutralPasses(",");
    NeutralPasses("");
  }

  lemma {:induction false} ItemsPass(items: seq<Item>)
    requires GoodItems(items)
    ensures Passes(PrintItems(items))
    decreases items
  {
    if items == [] {
      NeutralPasses("");
    } else {
      var it := items[0];
      var sep := if |items| > 1 then "," else "";
      WhitespacePasses(it.before);
      PrintPasses(it.value);
      WhitespacePasses(it.after);
      SeparatorPasses(|items| > 1);
      ItemsPass(items[1..]);
      PassesConcat(it.before, Print(it.value));
      PassesConcat(it.before + Print(it.value), it.after);
      PassesConcat(it.before + Print(it.value) + it.after, sep);
      PassesConcat(it.before + Print(it.value) + it.after + sep, PrintItems(items[1..]));
    }
  }

  lemma {:induction false} MembersPass(members: seq<Member>)
    requires GoodMembers(members)
    ensures Passes(PrintMembers(members))
    decreases members
  {
    if members == [] {
      NeutralPasses("");
    } else {
      var m := members[0];
      var sep := if |members| > 1 then "," else "";
      WhitespacePasses(m.before);
      QuotedPasses(m.key);
      WhitespacePasses(m.beforeColon);
      NeutralPasses(":");
      WhitespacePasses(m.afterColon);
      PrintPasses(m.value);
      WhitespacePasses(m.after);
      SeparatorPasses(|members| > 1);
      MembersPass(members[1..]);
      var a := m.before + Quoted(m.key);
      PassesConcat(m.before, Quoted(m.key));
      PassesConcat(a, m.beforeColon);
      PassesConcat(a + m.beforeColon, ":");
      PassesConcat(a + m.beforeColon + ":", m.afterColon);
      PassesConcat(a + m.beforeColon + ":" + m.afterColon, Print(m.value));
      PassesConcat(a + m.beforeColon + ":" + m.afterColon + Print(m.value), m.after);
      PassesConcat(a + m.beforeColon + ":" + m.afterColon + Print(m.value) + m.after, sep);
      PassesConcat(a + m.beforeColon + ":" + m.afterColon + Print(m.value) + m.after + sep, PrintMembers(members[1..]));
    }
  }

  // ----- The round trip -----

  /**
   For every object tree, every prefix without an opening brace and any suffix at all, the
   extractors return exactly the printed object.
   */
  lemma ExtractPrinted(v: Json, prefix: string, suffix: string)
    requires v.Object? && Good(v)
    requires '{' !in prefix
    ensures Extraction(prefix + Print(v) + suffix) == Print(v)
  {
    var body := v.blank + PrintMembers(v.members);
    var all := prefix + Print(v) + suffix;
    assert Print(v) == "{" + body + "}";
    OpenIsAt(prefix, body + "}" + suffix);
    assert all == prefix + ("{" + (body + "}" + suffix));
    assert all[|prefix|..] == "{" + (body + "}" + suffix);
    BodyCloses(v, suffix);
    var i := CloseAt(OUTSIDE, all[|prefix|..]);
    assert all[|prefix|..][1..] == body + ("}" + suffix);
    assert i == 1 + |body|;
    assert all[|prefix|..|prefix| + i + 1] == Print(v);
  }

  lemma {:induction false} OpenIsAt(prefix: string, rest: string)
    requires '{' !in prefix
    ensures FirstOpen(prefix + ("{" + rest)) == |prefix|
  {
    if prefix == "" {
      assert prefix + ("{" + rest) == "{" + rest;
    } else {
      assert (prefix + ("{" + rest))[1..] == prefix[1..] + ("{" + rest);
      assert prefix[0] in prefix;
      OpenIsAt(prefix[1..], rest);
    }
  }

  lemma BodyCloses(v: Json, suffix: string)
    requires v.Object? && Good(v)
    ensures var body := v.blank + PrintMembers(v.members);
            CloseAt(At(1), body + ("}" + suffix)) == |body|
  {
    var body := v.blank + PrintMembers(v.members);
    WhitespacePasses(v.blank);
    MembersPass(v.members);
    PassesConcat(v.blank, PrintMembers(v.members));
    assert Inside(At(1), body) && Fold(At(1), body) == At(1);
    CloseAfter(At(1), body, "}" + suffix);
  }

  /** Every object, printed after the prefix, is extracted whatever follows it. */
  ghost predicate Transparent(prefix: string) {
    forall v: Json, suffix: string | v.Object? && Good(v) :: Extraction(prefix + Print(v) + suffix) == Print(v)
  }

  /** The round trip holds for every object and suffix exactly if the prefix has no opening brace. */
  lemma RoundTripIffNoBraceBefore(prefix: string)
    ensures Transparent(prefix) <==> '{' !in prefix
  {
    if '{' !in prefix {
      forall v: Json, suffix: string | v.Object? && Good(v)
        ensures Extraction(prefix + Print(v) + suffix) == Print(v)
      {
        ExtractPrinted(v, prefix, suffix);
      }
    } else {
      var v := PrefixMatters(prefix, "");
      assert Extraction(prefix + Print(v) + "") != Print(v);
    }
  }

  /** Behind an opening brace some empty object is lost: its second character differs from the one after the brace. */
  lemma PrefixMatters(prefix: string, suffix: string) returns (v: Json)
    requires '{' in prefix
    ensures v.Object? && Good(v) && Extraction(prefix + Print(v) + suffix) != Print(v)
  {
    var i := FirstOpen(prefix);
    FirstOpenIsFirst(prefix, "{");
    var next := (prefix + "{")[i + 1];
    v := if next == '}' then Object(" ", []) else Object("", []);
    assert Print(v) == if next == '}' then "{ }" else "{}";
    assert Print(v)[0] == '{' && Print(v)[1] != next;
    var all := prefix + Print(v) + suffix;
    FirstOpenIsFirst(prefix, Print(v) + suffix);
    assert all == prefix + (Print(v) + suffix);
    assert all[i..][1] == all[i + 1] == next;
    hide Print;
    ExtractionIsFirstBalanced(all);
  }

  lemma {:induction false} FirstOpenIsFirst(prefix: string, rest: string)
    requires '{' in prefix
    ensures FirstOpen(prefix) >= 0 && FirstOpen(prefix + rest) == FirstOpen(prefix)
  {
    if prefix[0] != '{' {
      assert (prefix + rest)[1..] == prefix[1..] + rest;
      FirstOpenIsFirst(prefix[1..], rest);
    }
  }
}
