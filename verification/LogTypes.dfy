/** Day files, their index, sums over days, and what eviction is meant to keep. */
module LogTypes {
  import opened Selections

  /** A line of a day file without its line break. */
  datatype Entry = Entry(day: nat, line: string)

  datatype Row = Row(bytes: nat, lines: nat)

  const QUOTA := 1_073_741_824

  function Bytes(file: seq<string>): nat {
    if file == [] then 0 else Bytes(file[..|file| - 1]) + |file[|file| - 1]| + 1
  }

  lemma {:induction false} BytesConcat(a: seq<string>, b: seq<string>)
    ensures Bytes(a + b) == Bytes(a) + Bytes(b)
  {
    if b == [] {
      assert a + b == a;
    } else {
      assert (a + b)[..|a + b| - 1] == a + b[..|b| - 1];
      BytesConcat(a, b[..|b| - 1]);
    }
  }

  /** The index the files ought to have: a row for every day, saying how large its file is. */
  function IndexOf(files: map<nat, seq<string>>): map<nat, Row> {
    map d | d in files :: Row(Bytes(files[d]), |files[d]|)
  }

  /** The files of some of the days. */
  function Only(files: map<nat, seq<string>>, days: set<nat>): map<nat, seq<string>> {
    map d | d in files && d in days :: files[d]
  }

  // ----- Appending -----

  function ForDay(entries: seq<Entry>, day: nat): seq<string> {
    if entries == [] then []
    else
      var n := |entries| - 1;
      ForDay(entries[..n], day) + if entries[n].day == day then [entries[n].line] else []
  }

  function IsFor(day: nat): Entry -> bool {
    (e: Entry) => e.day == day
  }

  function Lines(entries: seq<Entry>): seq<string> {
    seq(|entries|, i requires 0 <= i < |entries| => entries[i].line)
  }

  /** The lines of every entry of the day, in the order of the batch. */
  ghost predicate LinesOfDay(entries: seq<Entry>, day: nat, lines: seq<string>) {
    exists own: seq<Entry> :: Selects(own, entries, IsFor(day)) && lines == Lines(own)
  }

  lemma {:induction false} ForDaySelects(entries: seq<Entry>, day: nat)
    ensures LinesOfDay(entries, day, ForDay(entries, day))
  {
    hide Selects;
    if entries == [] {
      SelectsNone(IsFor(day));
      assert Lines([]) == [];
    } else {
      var front, last := entries[..|entries| - 1], entries[|entries| - 1];
      ForDaySelects(front, day);
      var own: seq<Entry> :| Selects(own, front, IsFor(day)) && ForDay(front, day) == Lines(own);
      SelectsNext(own, front, last, IsFor(day));
      assert entries == front + [last];
      var more := own + if last.day == day then [last] else [];
      assert Lines(more) == Lines(own) + if last.day == day then [last.line] else [];
    }
  }

  /** The text of a file, each line with its line break. */
  function Text(file: seq<string>): string {
    if file == [] then "" else Text(file[..|file| - 1]) + file[|file| - 1] + "\n"
  }

  lemma {:induction false} BytesAreOfText(file: seq<string>)
    ensures Bytes(file) == |Text(file)|
  {
    if file != [] {
      BytesAreOfText(file[..|file| - 1]);
    }
  }

  function FileOf(files: map<nat, seq<string>>, day: nat): seq<string> {
    if day in files then files[day] else []
  }

  function DaysOf(entries: seq<Entry>): set<nat> {
    set e | e in entries :: e.day
  }

  /** Every entry at the end of its day's file, in the order of the batch. */
  function Appended(files: map<nat, seq<string>>, entries: seq<Entry>): map<nat, seq<string>> {
    map d | d in files.Keys + DaysOf(entries) :: FileOf(files, d) + ForDay(entries, d)
  }

  /** A batch appended at once or entry by entry gives the same files. */
  lemma AppendingBatches(files: map<nat, seq<string>>, a: seq<Entry>, b: seq<Entry>)
    ensures Appended(Appended(files, a), b) == Appended(files, a + b)
  {
    var once, half := Appended(files, a + b), Appended(files, a);
    var twice := Appended(half, b);
    AppendedDays(files, a);
    AppendedDays(half, b);
    AppendedDays(files, a + b);
    DaysConcat(a, b);
    hide Appended, DaysOf, ForDay;
    forall d | d in once ensures twice[d] == once[d] {
      AppendedAt(files, a, d);
      AppendedAt(half, b, d);
      AppendedAt(files, a + b, d);
      ForDayConcat(a, b, d);
    }
    assert once.Keys == twice.Keys;
  }

  lemma DaysConcat(a: seq<Entry>, b: seq<Entry>)
    ensures DaysOf(a + b) == DaysOf(a) + DaysOf(b)
  {
    forall e | e in a + b ensures e.day in DaysOf(a) + DaysOf(b) {
      assert e in a || e in b;
    }
    forall e | e in a || e in b ensures e.day in DaysOf(a + b) {
      assert e in a + b;
    }
  }

  /** The files after a batch, day by day: what was there, and then the batch's lines of that day. */
  ghost predicate BatchBehind(files: map<nat, seq<string>>, entries: seq<Entry>, after: map<nat, seq<string>>) {
    && (forall d :: d in after <==> d in files || exists e :: e in entries && e.day == d)
    && forall d | d in after :: exists lines: seq<string> ::
         LinesOfDay(entries, d, lines) && after[d] == (if d in files then files[d] else []) + lines
  }

  lemma AppendedIsBehind(files: map<nat, seq<string>>, entries: seq<Entry>)
    ensures BatchBehind(files, entries, Appended(files, entries))
  {
    hide LinesOfDay, ForDay;
    forall d | d in Appended(files, entries)
      ensures exists lines: seq<string> ::
        LinesOfDay(entries, d, lines) && Appended(files, entries)[d] == (if d in files then files[d] else []) + lines
    {
      ForDaySelects(entries, d);
    }
  }

  lemma AppendedDays(files: map<nat, seq<string>>, entries: seq<Entry>)
    ensures Appended(files, entries).Keys == files.Keys + DaysOf(entries)
  {
  }

  lemma AppendedAt(files: map<nat, seq<string>>, entries: seq<Entry>, d: nat)
    ensures FileOf(Appended(files, entries), d) == FileOf(files, d) + ForDay(entries, d)
  {
    if d !in files && d !in DaysOf(entries) {
      NotForDay(entries, d);
    }
    if d in Appended(files, entries) {
      assert Appended(files, entries)[d] == FileOf(files, d) + ForDay(entries, d);
    }
  }

  lemma {:induction false} ForDayConcat(a: seq<Entry>, b: seq<Entry>, day: nat)
    ensures ForDay(a + b, day) == ForDay(a, day) + ForDay(b, day)
  {
    if b == [] {
      assert a + b == a;
    } else {
      assert (a + b)[..|a + b| - 1] == a + b[..|b| - 1];
      ForDayConcat(a, b[..|b| - 1], day);
    }
  }

  lemma {:induction false} NotForDay(entries: seq<Entry>, day: nat)
    requires day !in DaysOf(entries)
    ensures ForDay(entries, day) == []
  {
    if entries != [] {
      var n := |entries| - 1;
      assert entries[n] in entries;
      assert forall e | e in entries[..n] :: e in entries;
      NotForDay(entries[..n], day);
    }
  }

  // ----- Sums over days -----

  ghost function Sum(index: map<nat, Row>): nat {
    if index == map[] then 0
    else
      var d :| d in index;
      Sum(index - {d}) + index[d].bytes
  }

  lemma {:induction false} SumWithout(index: map<nat, Row>, d: nat)
    requires d in index
    ensures Sum(index) == Sum(index - {d}) + index[d].bytes
    decreases |index|
  {
    var e :| e in index && Sum(index) == Sum(index - {e}) + index[e].bytes;
    if e != d {
      SumWithout(index - {e}, d);
      SumWithout(index - {d}, e);
      assert index - {e} - {d} == index - {d} - {e};
    }
  }

  lemma {:induction false} SumOfPart(part: map<nat, Row>, index: map<nat, Row>)
    requires part.Keys <= index.Keys && forall d | d in part :: part[d] == index[d]
    ensures Sum(part) <= Sum(index)
    decreases |index|
  {
    if d :| d in index && d !in part {
      SumWithout(index, d);
      SumOfPart(part, index - {d});
    } else {
      assert part == index;
    }
  }

  // ----- Evicting -----

  /** The days from `first` on. */
  function From<T>(days: map<nat, T>, first: nat): map<nat, T> {
    map d | d in days && first <= d :: days[d]
  }

  ghost predicate IsOldest(days: set<nat>, d: nat) {
    d in days && forall e | e in days :: d <= e
  }

  /** The days left when oldest days are erased as long as the total is over the quota. */
  ghost predicate Evicted(before: map<nat, Row>, after: map<nat, Row>, quota: nat) {
    && Sum(after) <= quota
    && (exists first: nat :: after == From(before, first))
    && forall first: nat :: Sum(From(before, first)) <= quota ==> From(before, first).Keys <= after.Keys
  }

  /** There is only one such outcome: the most recent days, as many as fit. */
  lemma EvictionIsDetermined(before: map<nat, Row>, a: map<nat, Row>, b: map<nat, Row>, quota: nat)
    requires Evicted(before, a, quota) && Evicted(before, b, quota)
    ensures a == b
  {
    var f: nat :| a == From(before, f);
    var g: nat :| b == From(before, g);
    assert a.Keys <= b.Keys <= a.Keys;
  }

  /** A batch that fits into the quota together with everything stored erases nothing. */
  lemma NothingIsErasedWithinQuota(before: map<nat, Row>, after: map<nat, Row>, quota: nat)
    requires Evicted(before, after, quota) && Sum(before) <= quota
    ensures after == before
  {
    assert From(before, 0) == before;
  }

  /** Erasing stops at the first day that need not go: with the youngest erased day back, the quota is exceeded. */
  lemma OneLessIsTooLittle(before: map<nat, Row>, after: map<nat, Row>, quota: nat, d: nat)
    requires Evicted(before, after, quota)
    requires d in before.Keys - after.Keys && forall e | e in before.Keys - after.Keys :: e <= d
    ensures Sum(after) + before[d].bytes > quota
  {
    var first: nat :| after == From(before, first);
    var more := From(before, d);
    assert more - {d} == after by {
      forall e | e in before ensures e in after <==> e > d {
        if e in after {
          assert first <= e && !(first <= d);
        } else {
          assert e in before.Keys - after.Keys;
        }
      }
    }
    SumWithout(more, d);
    assert d in more.Keys;
  }

  // ----- The walk over the days, oldest first -----

  ghost predicate Ascending(days: seq<nat>) {
    forall i, j :: 0 <= i < j < |days| ==> days[i] < days[j]
  }

  ghost predicate Lists(days: seq<nat>, all: set<nat>) {
    Ascending(days) && forall d :: d in all <==> d in days
  }

  lemma ListsOneMore(days: seq<nat>, all: set<nat>, d: nat)
    requires Lists(days, all) && forall e | e in days :: e < d
    ensures Lists(days + [d], all + {d})
  {
    forall i, j | 0 <= i < j < |days + [d]| ensures (days + [d])[i] < (days + [d])[j] {
      assert days[i] in days;
    }
  }

  lemma OnlyWithout(files: map<nat, seq<string>>, days: set<nat>, d: nat)
    ensures Only(files, days) - {d} == Only(files, days - {d})
  {
  }

  /** The day the first i days are all before, and the others not. */
  function Bound(days: seq<nat>, i: nat): nat
    requires i <= |days|
  {
    if i < |days| then days[i] else if days == [] then 0 else days[|days| - 1] + 1
  }

  lemma FromBound(before: map<nat, Row>, days: seq<nat>, i: nat)
    requires Lists(days, before.Keys) && i < |days|
    ensures From(before, Bound(days, i)) - {days[i]} == From(before, Bound(days, i + 1))
    ensures days[i] in From(before, Bound(days, i))
  {
    assert days[i] in days;
    forall d | d in before ensures d > days[i] <==> d >= Bound(days, i + 1) {
      var j :| 0 <= j < |days| && days[j] == d;
    }
  }

  /** Erasing from the oldest on, while the total is too large, is what eviction asks for. */
  lemma WalkEvicts(before: map<nat, Row>, days: seq<nat>, i: nat, quota: nat)
    requires Lists(days, before.Keys) && i <= |days|
    requires Sum(From(before, Bound(days, i))) <= quota
    requires forall j :: 0 <= j < i ==> Sum(From(before, days[j])) > quota
    ensures Evicted(before, From(before, Bound(days, i)), quota)
  {
    hide Sum, Lists, Bound;
    var after := From(before, Bound(days, i));
    forall first: nat | Sum(From(before, first)) <= quota ensures From(before, first).Keys <= after.Keys {
      forall d | d in From(before, first) ensures d in after {
        FitsOnlyLater(before, days, i, quota, first, d);
      }
    }
  }

  /** Where what is stored from a day on fits, that day is not among the first i. */
  lemma FitsOnlyLater(before: map<nat, Row>, days: seq<nat>, i: nat, quota: nat, first: nat, d: nat)
    requires Lists(days, before.Keys) && i <= |days|
    requires forall j :: 0 <= j < i ==> Sum(From(before, days[j])) > quota
    requires Sum(From(before, first)) <= quota && d in From(before, first)
    ensures d in From(before, Bound(days, i))
  {
    hide Sum;
    var j :| 0 <= j < |days| && days[j] == d;
    if j < i {
      SumOfPart(From(before, d), From(before, first));
      assert false;
    }
  }
}
