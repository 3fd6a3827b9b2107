/** The prompt that summarises a day's phone logs: ranking, greedy picking, and the length limit. */
module PromptPacker {
  import opened Common
  import opened Strings

  const PROMPT_MAX := 2000
  const MOST_LINES := 28
  const FALLBACK_LINES := 12

  datatype Entry = Entry(ts: int, level: string, tag: string, message: string)

  datatype Scored = Scored(entry: Entry, score: int, idx: nat)

  datatype Prompt = Prompt(text: string, selected: nat, total: int)

  // ----- Scores -----

  function Lower(s: string): string {
    seq(|s|, i requires 0 <= i < |s| => if 'A' <= s[i] <= 'Z' then (s[i] as int + 32) as char else s[i])
  }

  predicate Includes(s: string, word: string)
    decreases |s|
  {
    word <= s || (s != "" && Includes(s[1..], word))
  }

  const NOISE := ["removeinvalidnode", "junk list", "hwviewrootimpl", "choreographer", "libperfctl", "openglrenderer",
                  "inputtransport", "bufferqueue", "surfaceflinger", "gralloc", "graphicbuffer"]

  predicate IsNoise(e: Entry) {
    exists w | w in NOISE :: Includes(Lower(e.tag + " " + e.message), w)
  }

  function Score(e: Entry): int {
    var tag, msg := Lower(e.tag), Lower(e.message);
    if IsNoise(e) then -1000
    else
      (if Includes(tag, "gafam") || Includes(msg, "gafam") then 12 else 0)
      + (if Includes(tag, "edge") || Includes(msg, "edge") || Includes(msg, "infer") then 10 else 0)
      + (if Includes(tag, "sms") || Includes(msg, "sms") then 10 else 0)
      + (if e.level == "E" || e.level == "W" then 6 else 0)
      + (if e.level == "I" then 1 else 0)
  }

  predicate Mentions(s: string, word: string) {
    Includes(Lower(s), word)
  }

  /** The entry's tag or message speaks of the phone's own work. */
  predicate OfOwnWork(e: Entry) {
    || Mentions(e.tag, "gafam") || Mentions(e.message, "gafam")
    || Mentions(e.tag, "edge") || Mentions(e.message, "edge") || Mentions(e.message, "infer")
    || Mentions(e.tag, "sms") || Mentions(e.message, "sms")
  }

  /** The letter a word in lower case has, or its capital. */
  predicate SameLetter(c: char, d: char) {
    c == d || ('A' <= c <= 'Z' && d as int == c as int + 32)
  }

  ghost predicate StandsAt(s: string, word: string, i: nat) {
    i + |word| <= |s| && forall k :: 0 <= k < |word| ==> SameLetter(s[i + k], word[k])
  }

  /** A text mentions a word exactly if the word stands somewhere in it, in capitals or not. */
  lemma MentionsInAnyCase(s: string, word: string)
    requires forall c | c in word :: !('A' <= c <= 'Z')
    ensures Mentions(s, word) <==> exists i: nat :: StandsAt(s, word, i)
  {
    var l := Lower(s);
    IncludesMeans(l, word);
    forall i: nat ensures StandsAt(s, word, i) <==> OccursAt(l, word, i) {
      if i + |word| <= |s| {
        forall k | 0 <= k < |word| ensures SameLetter(s[i + k], word[k]) <==> l[i..i + |word|][k] == word[k] {
          assert word[k] in word;
        }
      }
    }
  }

  predicate OccursAt(s: string, word: string, i: nat) {
    i + |word| <= |s| && s[i..i + |word|] == word
  }

  lemma {:induction false} IncludesMeans(s: string, word: string)
    ensures Includes(s, word) <==> exists i: nat :: OccursAt(s, word, i)
    decreases |s|
  {
    assert word <= s <==> OccursAt(s, word, 0);
    if s != "" {
      IncludesMeans(s[1..], word);
      forall i: nat | i > 0 ensures OccursAt(s, word, i) <==> OccursAt(s[1..], word, i - 1) {
        if i + |word| <= |s| {
          assert s[i..i + |word|] == s[1..][i - 1..i - 1 + |word|];
        }
      }
      if i: nat :| OccursAt(s[1..], word, i) {
        assert OccursAt(s, word, i + 1);
      }
    }
  }

  /** Whatever the levels, an entry about the phone's own work is tried before one that is not. */
  lemma OwnWorkComesFirst(a: Entry, b: Entry)
    requires OfOwnWork(a) && !IsNoise(a) && !OfOwnWork(b)
    ensures Score(a) > Score(b)
  {
  }

  /** An entry is relevant exactly if it is no noise and is an error, a warning or an information, or speaks of own work. */
  lemma RelevantIff(e: Entry)
    ensures Score(e) > 0 <==> !IsNoise(e) && (e.level == "E" || e.level == "W" || e.level == "I" || OfOwnWork(e))
    ensures Score(e) == -1000 <==> IsNoise(e)
    ensures Score(e) >= 10 <==> !IsNoise(e) && OfOwnWork(e)
  {
    hide IsNoise, Includes, Lower;
  }

  // ----- Lines -----

  function Digit(n: nat): char
    requires n < 10
  {
    (n + '0' as int) as char
  }

  function TwoDigits(n: nat): (s: string)
    requires n < 100
    ensures |s| == 2
  {
    [Digit(n / 10), Digit(n % 10)]
  }

  /** The time of day in UTC of a millisecond timestamp. */
  function Clock(ts: int): (s: string)
    ensures |s| == 8
  {
    var seconds := ts % 86_400_000 / 1000;
    TwoDigits(seconds / 3600) + ":" + TwoDigits(seconds / 60 % 60) + ":" + TwoDigits(seconds % 60)
  }

  function FormatLine(e: Entry): string {
    var msg := if |e.message| > 100 then e.message[..97] + "\U{2026}" else e.message;
    Clock(e.ts) + " " + e.tag + ": " + msg
  }

  /** A line gives the time of day, the tag, and the message: whole up to 100 characters, else its first 97 and an ellipsis. */
  lemma LineTells(e: Entry)
    ensures var line, n := FormatLine(e), |e.tag|;
            && |line| >= 11 + n && line[..9] == Clock(e.ts) + " " && line[9..9 + n] == e.tag && line[9 + n..11 + n] == ": "
            && (|e.message| <= 100 ==> line[11 + n..] == e.message)
            && (|e.message| > 100 ==> line[11 + n..] == e.message[..97] + "\U{2026}")
    ensures forall ts: nat | ts < 86_400_000 :: ClockReads(Clock(ts), ts)
  {
    hide Clock;
    forall ts: nat | ts < 86_400_000 ensures ClockReads(Clock(ts), ts) {
      ClockIsRead(ts);
    }
  }

  /** The clock's digits read as hours, minutes and seconds give the time back, to the second. */
  predicate ClockReads(clock: string, ts: nat) {
    && |clock| == 8 && clock[2] == ':' && clock[5] == ':'
    && 3600 * Read(clock[0], clock[1]) + 60 * Read(clock[3], clock[4]) + Read(clock[6], clock[7]) == ts / 1000
  }

  function Read(a: char, b: char): int {
    10 * (a as int - '0' as int) + (b as int - '0' as int)
  }

  lemma DigitsRead(n: nat)
    requires n < 100
    ensures Read(TwoDigits(n)[0], TwoDigits(n)[1]) == n
  {
  }

  lemma ClockIsRead(ts: nat)
    requires ts < 86_400_000
    ensures ClockReads(Clock(ts), ts)
  {
    var seconds := ts % 86_400_000 / 1000;
    var h, m, s := TwoDigits(seconds / 3600), TwoDigits(seconds / 60 % 60), TwoDigits(seconds % 60);
    DigitsRead(seconds / 3600);
    DigitsRead(seconds / 60 % 60);
    DigitsRead(seconds % 60);
    assert seconds == ts / 1000;
    Sexagesimal(seconds);
    hide TwoDigits, Read;
    assert Clock(ts) == h + ":" + m + ":" + s;
  }

  lemma Sexagesimal(n: nat)
    ensures 3600 * (n / 3600) + 60 * (n / 60 % 60) + n % 60 == n
  {
    assert n / 3600 == n / 60 / 60;
  }

  function HeaderStart(day: string): string {
    "Summarize this phone log (" + day + ") in 2"
  }

  const HEADER_END :=
    "3 short bullet points. " + ("Focus on GAFAM, edge " + ("inference, SMS, and errors. " + "Be factual.\n\n---\n"))

  function Header(day: string): string {
    HeaderStart(day) + "\U{2013}" + HEADER_END
  }

  function Joined(picked: seq<Entry>): string {
    if picked == [] then ""
    else if |picked| == 1 then FormatLine(picked[0])
    else Joined(picked[..|picked| - 1]) + "\n" + FormatLine(picked[|picked| - 1])
  }

  function LineSum(picked: seq<Entry>): nat {
    if picked == [] then 0 else LineSum(picked[..|picked| - 1]) + |FormatLine(picked[|picked| - 1])|
  }

  /** The length the picked lines have once joined. */
  function Used(picked: seq<Entry>): nat {
    if picked == [] then 0 else LineSum(picked) + |picked| - 1
  }

  lemma {:induction false} JoinedLength(picked: seq<Entry>)
    ensures |Joined(picked)| == Used(picked)
  {
    hide FormatLine;
    if |picked| == 1 {
      assert picked[..0] == [];
    } else if picked != [] {
      JoinedLength(picked[..|picked| - 1]);
    }
  }

  // ----- Sorting -----

  /** Before everything it must come before, after everything else: a stable insertion. */
  function Insert<T>(s: seq<T>, e: T, inOrder: (T, T) -> bool): seq<T> {
    if s == [] || inOrder(s[|s| - 1], e) then s + [e]
    else Insert(s[..|s| - 1], e, inOrder) + [s[|s| - 1]]
  }

  function Sort<T>(s: seq<T>, inOrder: (T, T) -> bool): seq<T> {
    if s == [] then [] else Insert(Sort(s[..|s| - 1], inOrder), s[|s| - 1], inOrder)
  }

  lemma {:induction false} InsertAdds<T>(s: seq<T>, e: T, inOrder: (T, T) -> bool)
    ensures |Insert(s, e, inOrder)| == |s| + 1
    ensures multiset(Insert(s, e, inOrder)) == multiset(s) + multiset{e}
  {
    if s != [] && !inOrder(s[|s| - 1], e) {
      InsertAdds(s[..|s| - 1], e, inOrder);
      assert s == s[..|s| - 1] + [s[|s| - 1]];
    }
  }

  lemma {:induction false} SortPermutes<T>(s: seq<T>, inOrder: (T, T) -> bool)
    ensures |Sort(s, inOrder)| == |s| && multiset(Sort(s, inOrder)) == multiset(s)
  {
    if s != [] {
      SortPermutes(s[..|s| - 1], inOrder);
      InsertAdds(Sort(s[..|s| - 1], inOrder), s[|s| - 1], inOrder);
      assert s == s[..|s| - 1] + [s[|s| - 1]];
    }
  }

  predicate Newer(a: Entry, b: Entry) {
    a.ts >= b.ts
  }

  /** Higher score first, then newer first, then in the order given. */
  predicate Ranks(a: Scored, b: Scored) {
    a.score > b.score
    || (a.score == b.score && (a.entry.ts > b.entry.ts || (a.entry.ts == b.entry.ts && a.idx <= b.idx)))
  }

  ghost predicate Ordered<T>(s: seq<T>, inOrder: (T, T) -> bool) {
    forall i, j :: 0 <= i < j < |s| ==> inOrder(s[i], s[j])
  }

  ghost predicate TotalOrder<T(!new)>(inOrder: (T, T) -> bool) {
    && (forall a, b :: inOrder(a, b) || inOrder(b, a))
    && (forall a, b, c :: inOrder(a, b) && inOrder(b, c) ==> inOrder(a, c))
  }

  lemma {:induction false} InsertKeepsOrder<T(!new)>(s: seq<T>, e: T, inOrder: (T, T) -> bool)
    requires TotalOrder(inOrder) && Ordered(s, inOrder)
    ensures Ordered(Insert(s, e, inOrder), inOrder)
    ensures forall x | x in Insert(s, e, inOrder) :: x == e || x in s
  {
    if s != [] && !inOrder(s[|s| - 1], e) {
      var front, last := Insert(s[..|s| - 1], e, inOrder), s[|s| - 1];
      InsertKeepsOrder(s[..|s| - 1], e, inOrder);
      forall i | 0 <= i < |front| ensures inOrder(front[i], last) {
        assert front[i] in front;
      }
    }
  }

  lemma {:induction false} SortOrders<T(!new)>(s: seq<T>, inOrder: (T, T) -> bool)
    requires TotalOrder(inOrder)
    ensures Ordered(Sort(s, inOrder), inOrder)
  {
    if s != [] {
      SortOrders(s[..|s| - 1], inOrder);
      InsertKeepsOrder(Sort(s[..|s| - 1], inOrder), s[|s| - 1], inOrder);
    }
  }

  lemma {:induction false} InsertedLineSum(s: seq<Entry>, e: Entry)
    ensures LineSum(Insert(s, e, Newer)) == LineSum(s) + |FormatLine(e)|
  {
    hide FormatLine;
    if s == [] || Newer(s[|s| - 1], e) {
      assert (s + [e])[..|s|] == s;
    } else {
      var front := Insert(s[..|s| - 1], e, Newer);
      InsertedLineSum(s[..|s| - 1], e);
      assert (front + [s[|s| - 1]])[..|front|] == front;
    }
  }

  /** Sorting the picked lines again does not change their joined length. */
  lemma {:induction false} SortingKeepsUsed(s: seq<Entry>)
    ensures |Sort(s, Newer)| == |s| && LineSum(Sort(s, Newer)) == LineSum(s)
    ensures Used(Sort(s, Newer)) == Used(s)
  {
    hide FormatLine;
    if s != [] {
      var front := s[..|s| - 1];
      SortingKeepsUsed(front);
      InsertedLineSum(Sort(front, Newer), s[|s| - 1]);
      InsertAdds(Sort(front, Newer), s[|s| - 1], Newer);
    }
  }

  // ----- Ranking and picking -----

  function EntriesOf(s: seq<Scored>): (r: seq<Entry>)
    ensures |r| == |s|
  {
    seq(|s|, i requires 0 <= i < |s| => s[i].entry)
  }

  function Scoreds(entries: seq<Entry>): seq<Scored> {
    seq(|entries|, i requires 0 <= i < |entries| => Scored(entries[i], Score(entries[i]), i))
  }

  function Unscored(entries: seq<Entry>): seq<Scored> {
    seq(|entries|, i requires 0 <= i < |entries| => Scored(entries[i], 0, i))
  }

  function Above(s: seq<Scored>, bound: int): seq<Scored> {
    if s == [] then []
    else Above(s[..|s| - 1], bound) + if s[|s| - 1].score > bound then [s[|s| - 1]] else []
  }

  /** The relevant entries; all that are not noise if fewer than eight are relevant; all if there is only noise. */
  function Pool(entries: seq<Entry>): seq<Scored> {
    var scored := Above(Scoreds(entries), -1000);
    var relevant := Above(scored, 0);
    if |relevant| >= 8 then relevant else if scored != [] then scored else Unscored(entries)
  }

  function Candidates(entries: seq<Entry>): seq<Entry> {
    EntriesOf(Sort(Pool(entries), Ranks))
  }

  /** One more line, with a line break if it is not the first, stays within the budget. */
  predicate Fits(picked: seq<Entry>, e: Entry, budget: int) {
    Used(picked) + (if picked != [] then 1 else 0) + |FormatLine(e)| <= budget
  }

  function Greedy(pool: seq<Entry>, picked: seq<Entry>, budget: int): seq<Entry>
    decreases |pool|
  {
    if pool == [] || |picked| >= MOST_LINES then picked
    else Greedy(pool[1..], if Fits(picked, pool[0], budget) then picked + [pool[0]] else picked, budget)
  }

  function FirstFitting(entries: seq<Entry>, picked: seq<Entry>, budget: int): seq<Entry>
    decreases |entries|
  {
    if entries == [] || !Fits(picked, entries[0], budget) then picked
    else FirstFitting(entries[1..], picked + [entries[0]], budget)
  }

  function Picked(entries: seq<Entry>, budget: int): seq<Entry> {
    var picked := Greedy(Candidates(entries), [], budget);
    if picked != [] then picked
    else FirstFitting(if |entries| > FALLBACK_LINES then entries[..FALLBACK_LINES] else entries, [], budget)
  }

  function Packed(entries: seq<Entry>, day: string, totalLines: Option<int>): Option<Prompt> {
    var budget := PROMPT_MAX - |Header(day)|;
    if entries == [] || budget < 200 then None
    else
      var picked := Picked(entries, budget);
      if picked == [] then None
      else
        var text := Header(day) + Joined(Sort(picked, Newer));
        Some(Prompt(if |text| > PROMPT_MAX then text[..PROMPT_MAX] else text, |picked|,
                    match totalLines case Some(n) => n case None => |entries|))
  }

  // ----- The code, with its running length -----

  method Pick(pool: seq<Entry>, budget: int) returns (picked: seq<Entry>, used: nat)
    ensures picked == Greedy(pool, [], budget) && used == Used(picked)
  {
    hide FormatLine;
    picked, used := [], 0;
    var i := 0;
    while i < |pool|
      invariant i <= |pool| && used == Used(picked) && |picked| < MOST_LINES
      invariant Greedy(pool, [], budget) == Greedy(pool[i..], picked, budget)
    {
      var line := FormatLine(pool[i]);
      var extra := if |picked| > 0 then 1 else 0;
      assert pool[i..][1..] == pool[i + 1..];
      OneMore(picked, pool[i]);
      if used + extra + |line| <= budget {
        picked := picked + [pool[i]];
        used := used + extra + |line|;
        if |picked| >= MOST_LINES {
          break;
        }
      }
      i := i + 1;
    }
  }

  method PickFirst(entries: seq<Entry>, budget: int) returns (picked: seq<Entry>)
    ensures picked == FirstFitting(entries, [], budget)
  {
    picked := [];
    var used := 0;
    for i := 0 to |entries|
      invariant used == Used(picked)
      invariant FirstFitting(entries, [], budget) == FirstFitting(entries[i..], picked, budget)
    {
      var line := FormatLine(entries[i]);
      var extra := if |picked| > 0 then 1 else 0;
      if used + extra + |line| > budget {
        break;
      }
      assert entries[i..][1..] == entries[i + 1..];
      OneMore(picked, entries[i]);
      picked := picked + [entries[i]];
      used := used + extra + |line|;
    }
  }

  method BuildTodayLogsPrompt(entries: seq<Entry>, day: string, totalLines: Option<int>) returns (r: Option<Prompt>)
    ensures r == Packed(entries, day, totalLines)
  {
    hide FormatLine, Header, Candidates, Sort, Greedy, FirstFitting, Joined;
    if |entries| == 0 {
      return None;
    }
    var header := Header(day);
    var budget := PROMPT_MAX - |header|;
    if budget < 200 {
      return None;
    }
    var picked, used := Pick(Candidates(entries), budget);
    if |picked| == 0 {
      picked := PickFirst(if |entries| > FALLBACK_LINES then entries[..FALLBACK_LINES] else entries, budget);
    }
    if |picked| == 0 {
      return None;
    }
    var sorted := Sort(picked, Newer);
    var text := header + Joined(sorted);
    var total := match totalLines case Some(n) => n case None => |entries|;
    r := Some(Prompt(if |text| > PROMPT_MAX then text[..PROMPT_MAX] else text, |picked|, total));
  }

  // ----- What the packing guarantees -----

  lemma {:induction false} GreedyFits(pool: seq<Entry>, picked: seq<Entry>, budget: int)
    requires Used(picked) <= budget && |picked| <= MOST_LINES
    ensures var r := Greedy(pool, picked, budget);
            && Used(r) <= budget && picked <= r && |r| <= MOST_LINES
            && multiset(r) <= multiset(picked) + multiset(pool)
    decreases |pool|
  {
    hide FormatLine;
    if pool != [] && |picked| < MOST_LINES {
      OneMore(picked, pool[0]);
      assert pool == [pool[0]] + pool[1..];
      GreedyFits(pool[1..], if Fits(picked, pool[0], budget) then picked + [pool[0]] else picked, budget);
    }
  }

  lemma OneMore(picked: seq<Entry>, e: Entry)
    ensures Used(picked + [e]) == Used(picked) + (if picked != [] then 1 else 0) + |FormatLine(e)|
  {
    hide FormatLine;
    var more := picked + [e];
    assert more[..|more| - 1] == picked && more[|more| - 1] == e;
    assert LineSum(more) == LineSum(picked) + |FormatLine(e)|;
  }

  /** A candidate left out, although there were lines to spare, would not have fitted in at the end either. */
  lemma {:induction false} GreedyIsMaximal(pool: seq<Entry>, picked: seq<Entry>, budget: int, e: Entry)
    requires Used(picked) <= budget && |picked| <= MOST_LINES
    requires e in pool && e !in Greedy(pool, picked, budget) && |Greedy(pool, picked, budget)| < MOST_LINES
    ensures !Fits(Greedy(pool, picked, budget), e, budget)
    decreases |pool|
  {
    hide FormatLine;
    OneMore(picked, pool[0]);
    GreedyFits(pool, picked, budget);
    var next := if Fits(picked, pool[0], budget) then picked + [pool[0]] else picked;
    GreedyFits(pool[1..], next, budget);
    if e in pool[1..] {
      GreedyIsMaximal(pool[1..], next, budget, e);
    } else {
      assert e == pool[0];
      LongerUsesMore(picked, Greedy(pool, picked, budget));
    }
  }

  lemma {:induction false} LongerUsesMore(a: seq<Entry>, b: seq<Entry>)
    requires a <= b
    ensures Used(a) + (if a != [] then 1 else 0) <= Used(b) + (if b != [] then 1 else 0)
    decreases |b|
  {
    hide FormatLine;
    if |b| > |a| {
      var c := b[..|b| - 1];
      LongerUsesMore(a, c);
      assert b == c + [b[|b| - 1]];
      OneMore(c, b[|b| - 1]);
    } else {
      assert a == b;
    }
  }

  lemma {:induction false} FirstFittingFits(entries: seq<Entry>, picked: seq<Entry>, budget: int)
    requires Used(picked) <= budget
    ensures var r := FirstFitting(entries, picked, budget);
            && Used(r) <= budget && picked <= r && |r| <= |picked| + |entries|
            && multiset(r) <= multiset(picked) + multiset(entries)
    decreases |entries|
  {
    hide FormatLine;
    if entries != [] && Fits(picked, entries[0], budget) {
      OneMore(picked, entries[0]);
      assert entries == [entries[0]] + entries[1..];
      FirstFittingFits(entries[1..], picked + [entries[0]], budget);
    }
  }

  // ----- Candidates come from the entries -----

  lemma {:induction false} InsertedEntries(s: seq<Scored>, x: Scored)
    ensures multiset(EntriesOf(Insert(s, x, Ranks))) == multiset(EntriesOf(s)) + multiset{x.entry}
  {
    if s == [] || Ranks(s[|s| - 1], x) {
      assert EntriesOf(s + [x]) == EntriesOf(s) + [x.entry];
    } else {
      var n := |s| - 1;
      InsertedEntries(s[..n], x);
      assert EntriesOf(s) == EntriesOf(s[..n]) + [s[n].entry];
      assert EntriesOf(Insert(s[..n], x, Ranks) + [s[n]]) == EntriesOf(Insert(s[..n], x, Ranks)) + [s[n].entry];
    }
  }

  lemma {:induction false} SortedEntries(s: seq<Scored>)
    ensures multiset(EntriesOf(Sort(s, Ranks))) == multiset(EntriesOf(s))
  {
    if s == [] {
    } else {
      var n := |s| - 1;
      SortedEntries(s[..n]);
      InsertedEntries(Sort(s[..n], Ranks), s[n]);
      assert EntriesOf(s) == EntriesOf(s[..n]) + [s[n].entry];
    }
  }

  lemma {:induction false} AboveEntries(s: seq<Scored>, bound: int)
    ensures multiset(EntriesOf(Above(s, bound))) <= multiset(EntriesOf(s))
    ensures forall x :: x in Above(s, bound) <==> x in s && x.score > bound
  {
    if s != [] {
      var n := |s| - 1;
      AboveEntries(s[..n], bound);
      assert s == s[..n] + [s[n]];
      assert EntriesOf(s) == EntriesOf(s[..n]) + [s[n].entry];
      assert EntriesOf(Above(s[..n], bound) + [s[n]]) == EntriesOf(Above(s[..n], bound)) + [s[n].entry];
      assert Above(s[..n], bound) + [] == Above(s[..n], bound);
    }
  }

  lemma CandidatesAreEntries(entries: seq<Entry>)
    ensures multiset(Candidates(entries)) <= multiset(entries)
  {
    hide Score, Sort, Above;
    SortedEntries(Pool(entries));
    assert EntriesOf(Scoreds(entries)) == entries && EntriesOf(Unscored(entries)) == entries;
    AboveEntries(Scoreds(entries), -1000);
    AboveEntries(Above(Scoreds(entries), -1000), 0);
  }

  lemma PickedFits(entries: seq<Entry>, budget: nat)
    ensures var picked := Picked(entries, budget);
            Used(picked) <= budget && |picked| <= MOST_LINES && multiset(picked) <= multiset(entries)
  {
    hide FormatLine, Candidates;
    GreedyFits(Candidates(entries), [], budget);
    CandidatesAreEntries(entries);
    var some := if |entries| > FALLBACK_LINES then entries[..FALLBACK_LINES] else entries;
    FirstFittingFits(some, [], budget);
    assert entries == some + entries[|some|..];
  }

  /**
   The prompt is the header and whole lines of distinct entries, newest first, at most 28 of
   them and at most 2000 characters in all: the final cut never cuts.
   */
  lemma PromptIsWhole(entries: seq<Entry>, day: string, totalLines: Option<int>) returns (lines: seq<Entry>)
    requires Packed(entries, day, totalLines).Some?
    ensures var r := Packed(entries, day, totalLines).value;
            && r.text == Header(day) + Joined(lines)
            && |r.text| <= PROMPT_MAX
            && r.selected == |lines| && 1 <= |lines| <= MOST_LINES
            && multiset(lines) <= multiset(entries)
            && Ordered(lines, Newer)
  {
    var budget := PROMPT_MAX - |Header(day)|;
    var picked := Picked(entries, budget);
    lines := Sort(picked, Newer);
    hide FormatLine, Header, Picked, Sort;
    PickedFits(entries, budget);
    SortingKeepsUsed(picked);
    JoinedLength(lines);
    SortPermutes(picked, Newer);
    SortOrders(picked, Newer);
  }

  /**
   Candidates are tried from the highest score down, newer before older, and each is one of the
   pool: so by the greedy rule a better candidate is left out only if it does not fit.
   */
  lemma CandidatesAreRanked(entries: seq<Entry>)
    ensures var ranked := Sort(Pool(entries), Ranks);
            && Candidates(entries) == EntriesOf(ranked)
            && Ordered(ranked, Ranks)
            && multiset(ranked) == multiset(Pool(entries))
  {
    SortOrders(Pool(entries), Ranks);
    SortPermutes(Pool(entries), Ranks);
  }

  /** The pool has noise in it only if there is nothing else. */
  lemma NoiseOnlyIfNothingElse(entries: seq<Entry>)
    ensures forall x | x in Pool(entries) && IsNoise(x.entry) :: forall e | e in entries :: IsNoise(e)
    ensures forall x | x in Pool(entries) :: x.entry in entries
  {
    hide Score, Above, IsNoise;
    var all := Scoreds(entries);
    AboveEntries(all, -1000);
    AboveEntries(Above(all, -1000), 0);
    assert forall x | x in all :: x.score == Score(x.entry) && x.entry in entries;
    forall x | x in Above(all, -1000) ensures !IsNoise(x.entry) {
      NoiseScore(x.entry);
    }
    if Above(all, -1000) == [] {
      forall e | e in entries ensures IsNoise(e) {
        var i :| 0 <= i < |entries| && entries[i] == e;
        assert all[i] in all;
        NoiseScore(e);
      }
    }
  }

  lemma NoiseScore(e: Entry)
    ensures Score(e) > -1000 <==> !IsNoise(e)
  {
    hide IsNoise, Includes;
  }

  lemma {:induction false} GreedyIsEmptyIffNothingFits(pool: seq<Entry>, budget: nat)
    ensures Greedy(pool, [], budget) == [] <==> forall e | e in pool :: |FormatLine(e)| > budget
    decreases |pool|
  {
    hide FormatLine;
    if pool != [] {
      assert pool == [pool[0]] + pool[1..];
      if Fits([], pool[0], budget) {
        OneMore([], pool[0]);
        GreedyFits(pool[1..], [pool[0]], budget);
        assert [pool[0]] <= Greedy(pool[1..], [pool[0]], budget);
      } else {
        GreedyIsEmptyIffNothingFits(pool[1..], budget);
      }
    }
  }

  /** There is no prompt exactly if there are no entries, the day's name is too long, or neither a candidate nor the first entry fits. */
  lemma NoPromptIffNothingFits(entries: seq<Entry>, day: string, totalLines: Option<int>)
    ensures var budget := PROMPT_MAX - |Header(day)|;
            Packed(entries, day, totalLines) == None <==>
              || entries == [] || budget < 200
              || (|FormatLine(entries[0])| > budget && forall e | e in Candidates(entries) :: |FormatLine(e)| > budget)
  {
    hide FormatLine, Header, Candidates;
    var budget := PROMPT_MAX - |Header(day)|;
    if entries != [] && budget >= 200 {
      GreedyIsEmptyIffNothingFits(Candidates(entries), budget);
      var some := if |entries| > FALLBACK_LINES then entries[..FALLBACK_LINES] else entries;
      assert some[0] == entries[0];
      if Fits([], some[0], budget) {
        OneMore([], some[0]);
        FirstFittingFits(some[1..], [some[0]], budget);
        assert [some[0]] <= FirstFitting(some, [], budget);
      }
    }
  }

  // ----- The limit on the other side -----

  /** The bytes a character of the basic plane takes in UTF-8. */
  function Utf8(s: string): nat {
    if s == "" then 0
    else Utf8(s[..|s| - 1]) + if s[|s| - 1] < '\U{80}' then 1 else if s[|s| - 1] < '\U{800}' then 2 else 3
  }

  predicate Ascii(s: string) {
    forall i :: 0 <= i < |s| ==> s[i] < '\U{80}'
  }

  lemma {:induction false} Utf8Concat(a: string, b: string)
    ensures Utf8(a + b) == Utf8(a) + Utf8(b)
  {
    if b == "" {
      assert a + b == a;
    } else {
      assert (a + b)[..|a + b| - 1] == a + b[..|b| - 1];
      Utf8Concat(a, b[..|b| - 1]);
    }
  }

  lemma {:induction false} Utf8Length(s: string)
    ensures |s| <= Utf8(s) <= 3 * |s| && (Ascii(s) ==> Utf8(s) == |s|)
  {
    if s != "" {
      var front, last := s[..|s| - 1], s[|s| - 1];
      assert s == front + [last];
      Utf8Length(front);
      assert Ascii(s) ==> Ascii(front);
    }
  }

  /** The bytes of some lines, without the line breaks. */
  function LineBytes(picked: seq<Entry>): nat {
    if picked == [] then 0 else LineBytes(picked[..|picked| - 1]) + Utf8(FormatLine(picked[|picked| - 1]))
  }

  lemma {:induction false} JoinedBytes(picked: seq<Entry>)
    ensures Utf8(Joined(picked)) == LineBytes(picked) + if picked == [] then 0 else |picked| - 1
  {
    hide FormatLine, Utf8;
    if picked == [] {
      Utf8Length("");
    } else {
      var front, line := picked[..|picked| - 1], FormatLine(picked[|picked| - 1]);
      JoinedBytes(front);
      if |picked| > 1 {
        Utf8Length("\n");
        Utf8Concat(Joined(front), "\n");
        Utf8Concat(Joined(front) + "\n", line);
      }
    }
  }

  lemma {:induction false} InsertedLineBytes(s: seq<Entry>, e: Entry)
    ensures LineBytes(Insert(s, e, Newer)) == LineBytes(s) + Utf8(FormatLine(e))
  {
    hide FormatLine, Utf8;
    if s == [] || Newer(s[|s| - 1], e) {
      assert (s + [e])[..|s|] == s;
    } else {
      var front := Insert(s[..|s| - 1], e, Newer);
      InsertedLineBytes(s[..|s| - 1], e);
      assert (front + [s[|s| - 1]])[..|front|] == front;
    }
  }

  lemma {:induction false} SortingKeepsBytes(s: seq<Entry>)
    ensures LineBytes(Sort(s, Newer)) == LineBytes(s)
  {
    hide FormatLine, Utf8;
    if s != [] {
      SortingKeepsBytes(s[..|s| - 1]);
      InsertedLineBytes(Sort(s[..|s| - 1], Newer), s[|s| - 1]);
    }
  }

  /** The bytes a prompt takes: those of the header, of every picked line, and one for each line break. */
  function PromptBytes(day: string, picked: seq<Entry>): nat
    requires picked != []
  {
    Utf8(Header(day)) + LineBytes(picked) + |picked| - 1
  }

  /** The server trims the prompt and refuses more than 2000 bytes, where the packer counts characters. */
  predicate Refused(text: string) {
    Utf8(Trim(text)) > PROMPT_MAX
  }

  /** The white space at the end of a text. */
  function Blank(s: string): string {
    s[|TrimRight(s)|..]
  }

  /** The last line of the prompt is that of the oldest picked entry. */
  function LastLine(picked: seq<Entry>): string {
    var lines := Sort(picked, Newer);
    if lines == [] then "" else FormatLine(lines[|lines| - 1])
  }

  /**
   A prompt is refused exactly if header, picked lines and line breaks together, without the
   white space after the last line, take more than 2000 bytes.
   */
  lemma PromptIsRefusedIffTooManyBytes(entries: seq<Entry>, day: string, totalLines: Option<int>)
    requires Packed(entries, day, totalLines).Some?
    ensures var picked := Picked(entries, PROMPT_MAX - |Header(day)|);
            && picked != []
            && Utf8(Packed(entries, day, totalLines).value.text) == PromptBytes(day, picked)
            && (Refused(Packed(entries, day, totalLines).value.text) <==>
                  PromptBytes(day, picked) - Utf8(Blank(LastLine(picked))) > PROMPT_MAX)
  {
    var picked := Picked(entries, PROMPT_MAX - |Header(day)|);
    TextIs(entries, day, totalLines);
    PromptTrimmed(day, picked);
    hide *;
    SortingKeepsUsed(picked);
    SortingKeepsBytes(picked);
    JoinedBytes(Sort(picked, Newer));
    Utf8Concat(Header(day), Joined(Sort(picked, Newer)));
    BytesOfPicked(day, picked);
  }

  lemma {:induction false} TrimRightAppend(a: string, b: string)
    requires TrimRight(b) != ""
    ensures TrimRight(a + b) == a + TrimRight(b)
  {
    if IsSpace(b[|b| - 1]) {
      assert (a + b)[..|a + b| - 1] == a + b[..|b| - 1];
      TrimRightAppend(a, b[..|b| - 1]);
    }
  }

  lemma {:induction false} TrimRightKeeps(s: string, i: nat)
    requires i < |s| && !IsSpace(s[i])
    ensures |TrimRight(s)| > i
  {
    if IsSpace(s[|s| - 1]) {
      TrimRightKeeps(s[..|s| - 1], i);
    }
  }

  lemma LineHasText(e: Entry)
    ensures TrimRight(FormatLine(e)) != ""
  {
    var front := Clock(e.ts) + " " + e.tag;
    assert FormatLine(e)[|front|] == ':';
    hide FormatLine;
    TrimRightKeeps(FormatLine(e), |front|);
  }

  lemma HeaderStartsWithText(day: string, body: string)
    ensures TrimLeft(Header(day) + body) == Header(day) + body
  {
    assert (Header(day) + body)[0] == 'S';
  }

  lemma JoinedEnds(lines: seq<Entry>) returns (front: string)
    requires lines != []
    ensures Joined(lines) == front + FormatLine(lines[|lines| - 1])
  {
    hide FormatLine;
    front := if |lines| == 1 then "" else Joined(lines[..|lines| - 1]) + "\n";
  }

  /** Trimming takes away the white space after the last line. */
  lemma PromptTrimmed(day: string, picked: seq<Entry>)
    requires picked != []
    ensures var text := Header(day) + Joined(Sort(picked, Newer));
            && Header(day) <= Trim(text) <= text
            && text[|Trim(text)|..] == Blank(LastLine(picked))
            && Utf8(text) == Utf8(Trim(text)) + Utf8(Blank(LastLine(picked)))
  {
    hide Header, FormatLine, Joined, Utf8, Sort, IsSpace;
    SameEntries(picked);
    var lines := Sort(picked, Newer);
    var front := JoinedEnds(lines);
    var line := LastLine(picked);
    LineHasText(lines[|lines| - 1]);
    var text := Header(day) + Joined(lines);
    assert text == (Header(day) + front) + line;
    HeaderStartsWithText(day, Joined(lines));
    TrimRightAppend(Header(day) + front, line);
    assert text == Trim(text) + Blank(line);
    Utf8Concat(Trim(text), Blank(line));
  }

  lemma SameEntries(picked: seq<Entry>)
    ensures |Sort(picked, Newer)| == |picked| && forall e :: e in Sort(picked, Newer) <==> e in picked
  {
    SortPermutes(picked, Newer);
    hide Sort;
    forall e ensures e in Sort(picked, Newer) <==> e in picked {
      assert e in multiset(Sort(picked, Newer)) <==> e in multiset(picked);
    }
  }

  lemma TextIs(entries: seq<Entry>, day: string, totalLines: Option<int>)
    requires Packed(entries, day, totalLines).Some?
    ensures var picked := Picked(entries, PROMPT_MAX - |Header(day)|);
            && picked != []
            && Packed(entries, day, totalLines).value.text == Header(day) + Joined(Sort(picked, Newer))
            && |Packed(entries, day, totalLines).value.text| == |Header(day)| + Used(picked)
  {
    hide Header, FormatLine, Picked, Sort, Joined;
    var picked := Picked(entries, PROMPT_MAX - |Header(day)|);
    PickedFits(entries, PROMPT_MAX - |Header(day)|);
    SortingKeepsUsed(picked);
    JoinedLength(Sort(picked, Newer));
  }

  lemma BytesOfPicked(day: string, picked: seq<Entry>)
    requires picked != []
    ensures PromptBytes(day, picked) == Utf8(Header(day)) + LineBytes(picked) + |picked| - 1
  {
    hide Utf8, Header, LineBytes;
  }

  /** The header has a dash of three bytes, and nothing else that is not ASCII but the day. */
  lemma HeaderBytes(day: string)
    ensures Utf8(Header(day)) == |Header(day)| - |day| + Utf8(day) + 2
  {
    var start, dash := "Summarize this phone log (", "\U{2013}";
    Utf8Concat(start, day);
    Utf8Concat(start + day, ") in 2");
    Utf8Concat(HeaderStart(day), dash);
    Utf8Concat(HeaderStart(day) + dash, HEADER_END);
    assert Utf8(dash) == 3 by {
      assert dash[..0] == "";
    }
    AsciiHeader();
    Utf8Length(start);
    Utf8Length(") in 2");
    Utf8Length(HEADER_END);
    hide Utf8;
  }

  lemma AsciiHeader()
    ensures Ascii("Summarize this phone log (") && Ascii(") in 2") && Ascii(HEADER_END)
  {
    AsciiPieces();
    hide Ascii;
    AsciiConcat("inference, SMS, and errors. ", "Be factual.\n\n---\n");
    AsciiConcat("Focus on GAFAM, edge ", "inference, SMS, and errors. " + "Be factual.\n\n---\n");
    AsciiConcat("3 short bullet points. ", "Focus on GAFAM, edge " + ("inference, SMS, and errors. " + "Be factual.\n\n---\n"));
  }

  lemma AsciiPieces()
    ensures Ascii("Summarize this phone log (") && Ascii(") in 2")
    ensures Ascii("3 short bullet points. ") && Ascii("Focus on GAFAM, edge ")
    ensures Ascii("inference, SMS, and errors. ") && Ascii("Be factual.\n\n---\n")
  {
  }

  lemma AsciiConcat(a: string, b: string)
    requires Ascii(a) && Ascii(b)
    ensures Ascii(a + b)
  {
  }

  /** With nothing but ASCII in the day and the picked lines, only the last two characters the packer allows are too many. */
  lemma AsciiPromptIsRefusedIffNearlyFull(entries: seq<Entry>, day: string, totalLines: Option<int>)
    requires Packed(entries, day, totalLines).Some?
    requires Ascii(day) && forall e | e in Picked(entries, PROMPT_MAX - |Header(day)|) :: Ascii(FormatLine(e))
    ensures var text := Packed(entries, day, totalLines).value.text;
            Refused(text) <==> |Trim(text)| > PROMPT_MAX - 2
  {
    var picked := Picked(entries, PROMPT_MAX - |Header(day)|);
    var text := Packed(entries, day, totalLines).value.text;
    PromptIsRefusedIffTooManyBytes(entries, day, totalLines);
    TextIs(entries, day, totalLines);
    PromptTrimmed(day, picked);
    LastIsPicked(picked);
    hide *;
    AsciiLines(picked);
    AsciiBlank(LastLine(picked));
    HeaderBytes(day);
    Utf8Length(day);
    BytesOfPicked(day, picked);
    UsedIs(picked);
    RefusedMeans(text);
  }

  lemma RefusedMeans(text: string)
    ensures Refused(text) <==> Utf8(Trim(text)) > PROMPT_MAX
  {
  }

  lemma AsciiBlank(line: string)
    requires Ascii(line)
    ensures Utf8(Blank(line)) == |Blank(line)|
  {
    Utf8Length(Blank(line));
  }

  lemma LastIsPicked(picked: seq<Entry>)
    requires picked != []
    ensures exists e :: e in picked && LastLine(picked) == FormatLine(e)
  {
    hide FormatLine;
    SameEntries(picked);
    var lines := Sort(picked, Newer);
    assert lines[|lines| - 1] in picked;
  }

  lemma UsedIs(picked: seq<Entry>)
    requires picked != []
    ensures Used(picked) == LineSum(picked) + |picked| - 1
  {
  }

  lemma {:induction false} AsciiLines(picked: seq<Entry>)
    requires forall e | e in picked :: Ascii(FormatLine(e))
    ensures LineBytes(picked) == LineSum(picked)
  {
    hide FormatLine, Utf8;
    if picked != [] {
      var front, last := picked[..|picked| - 1], picked[|picked| - 1];
      assert picked == front + [last] && last in picked;
      AsciiLines(front);
      Utf8Length(FormatLine(last));
    }
  }

  /** Whatever the texts are, more than 1998 characters after trimming are too many bytes. */
  lemma LongPromptIsOverInBytes(entries: seq<Entry>, day: string, totalLines: Option<int>)
    requires Packed(entries, day, totalLines).Some?
    ensures var text := Packed(entries, day, totalLines).value.text;
            |Trim(text)| > PROMPT_MAX - 2 ==> Refused(text)
  {
    hide *;
    TextIs(entries, day, totalLines);
    PromptTrimmed(day, Picked(entries, PROMPT_MAX - |Header(day)|));
    var text := Packed(entries, day, totalLines).value.text;
    BehindHeader(day, Trim(text));
    RefusedMeans(text);
  }

  lemma BehindHeader(day: string, text: string)
    requires Header(day) <= text
    ensures Utf8(text) >= |text| + 2
  {
    HeaderBytes(day);
    hide *;
    var body := text[|Header(day)|..];
    assert text == Header(day) + body;
    Utf8Concat(Header(day), body);
    Utf8Length(body);
    Utf8Length(day);
  }

  // ----- Prompts that are refused -----

  /** A single entry is always the candidate, noise or not. */
  lemma OnlyCandidate(e: Entry)
    ensures Candidates([e]) == [e]
  {
    hide Pool, Score, IsNoise;
    OnlyInPool(e);
    SortOne(Pool([e])[0]);
    assert Pool([e]) == [Pool([e])[0]];
  }

  lemma SortOne(x: Scored)
    ensures Sort([x], Ranks) == [x]
  {
    assert [x][..0] == [];
  }

  lemma OnlyInPool(e: Entry)
    ensures |Pool([e])| == 1 && Pool([e])[0].entry == e
  {
    hide Score;
    assert Scoreds([e]) == [Scored(e, Score(e), 0)] && Unscored([e]) == [Scored(e, 0, 0)];
    AboveOne(Scored(e, Score(e), 0), -1000);
    AboveOne(Scored(e, Score(e), 0), 0);
    AboveNone(0);
    hide Above, Scoreds, Unscored;
  }

  lemma AboveNone(bound: int)
    ensures Above([], bound) == []
  {
  }

  lemma AboveOne(x: Scored, bound: int)
    ensures Above([x], bound) == if x.score > bound then [x] else []
  {
    assert [x][..0] == [];
  }

  lemma OnlyPicked(e: Entry, day: string)
    requires |Header(day)| <= PROMPT_MAX - 200 && |Header(day)| + |FormatLine(e)| <= PROMPT_MAX
    ensures Picked([e], PROMPT_MAX - |Header(day)|) == [e]
    ensures Packed([e], day, None).Some?
  {
    OnlyCandidate(e);
    hide FormatLine, Header, Candidates, Sort;
    assert Greedy([e], [], PROMPT_MAX - |Header(day)|) == [e];
  }

  /** On every day a log of one entry with a long plain tag makes a prompt the server refuses. */
  lemma AsciiLogThatIsRefused(day: string) returns (entries: seq<Entry>)
    requires Ascii(day) && |Header(day)| <= PROMPT_MAX - 200
    ensures |entries| == 1 && Ascii(entries[0].tag) && entries[0].message == "m"
    ensures Packed(entries, day, None).Some?
    ensures var text := Packed(entries, day, None).value.text; |text| == PROMPT_MAX && Refused(text)
  {
    var tag := seq(PROMPT_MAX - |Header(day)| - 12, _ => 'a');
    var e := Entry(0, "I", tag, "m");
    entries := [e];
    assert FormatLine(e) == "00:00:00" + " " + tag + ": " + "m" by {
      assert Clock(0) == "00:00:00";
    }
    OnlyPicked(e, day);
    UsedOne(e);
    TextIs(entries, day, None);
    EndsInText(e, day);
    hide *;
    LongPromptIsOverInBytes(entries, day, None);
  }

  lemma UsedOne(e: Entry)
    ensures Used([e]) == LineSum([e]) == |FormatLine(e)| && LineBytes([e]) == Utf8(FormatLine(e))
  {
    assert [e][..0] == [];
  }

  /** Nothing is trimmed off a line that ends in text. */
  lemma EndsInText(e: Entry, day: string)
    requires !IsSpace(FormatLine(e)[|FormatLine(e)| - 1])
    ensures LastLine([e]) == FormatLine(e) && Blank(FormatLine(e)) == ""
    ensures var text := Header(day) + Joined(Sort([e], Newer)); Trim(text) == text
  {
    assert [e][..0] == [];
    assert Sort([e], Newer) == [e];
    hide FormatLine, Header;
    PromptTrimmed(day, [e]);
    assert TrimRight(FormatLine(e)) == FormatLine(e);
  }

  /** So does one entry with a tag of 700 characters of three bytes each, although the prompt is short. */
  lemma ShortLogThatIsRefused(day: string) returns (entries: seq<Entry>)
    requires |Header(day)| <= PROMPT_MAX - 800
    ensures |entries| == 1 && Packed(entries, day, None).Some?
    ensures var text := Packed(entries, day, None).value.text; |text| == |Header(day)| + 712 && Refused(text)
  {
    var tag := seq(700, _ => '\U{20AC}');
    var e := Entry(0, "I", tag, "m");
    entries := [e];
    assert FormatLine(e) == Clock(0) + " " + tag + ": " + "m";
    assert |FormatLine(e)| == 712;
    OnlyPicked(e, day);
    UsedOne(e);
    TextIs(entries, day, None);
    PromptIsRefusedIffTooManyBytes(entries, day, None);
    BytesOfPicked(day, [e]);
    EndsInText(e, day);
    EuroBytes(700);
    hide *;
    Utf8Length("");
    Utf8Concat(Clock(0) + " " + tag + ": ", "m");
    Utf8Concat(Clock(0) + " " + tag, ": ");
    Utf8Concat(Clock(0) + " ", tag);
  }

  lemma {:induction false} EuroBytes(n: nat)
    ensures Utf8(seq(n, _ => '\U{20AC}')) == 3 * n
  {
    if n > 0 {
      EuroBytes(n - 1);
      assert seq(n, _ => '\U{20AC}')[..n - 1] == seq(n - 1, _ => '\U{20AC}');
    }
  }
}
