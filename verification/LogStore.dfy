/** The log store: day files with an index of their sizes, a quota, and pages of a day, newest first. */
module LogStore {
  import opened LogTypes

  class Logs {
    var files: map<nat, seq<string>>
    var index: map<nat, Row>

    ghost predicate Valid()
      reads this
    {
      index == IndexOf(files)
    }

    /** At the start the index is rebuilt from the files only if it is empty; a wrong one stays wrong. */
    constructor (files: map<nat, seq<string>>, index: map<nat, Row>)
      ensures this.files == files
      ensures Valid() <==> index == map[] || index == IndexOf(files)
    {
      IndexOfNothing(files);
      hide IndexOf, Only, Bytes;
      var rebuilt := index;
      if index == map[] {
        var todo := files.Keys;
        while todo != {}
          invariant todo <= files.Keys
          invariant rebuilt == IndexOf(Only(files, files.Keys - todo))
          decreases |todo|
        {
          var d :| d in todo;
          OneRowMore(files, files.Keys - todo, d);
          assert files.Keys - todo + {d} == files.Keys - (todo - {d});
          todo := todo - {d};
          rebuilt := rebuilt[d := Row(Bytes(files[d]), |files[d]|)];
        }
        AllRows(files);
        assert files.Keys - todo == files.Keys;
      }
      this.files, this.index := files, rebuilt;
    }

    method Append(entries: seq<Entry>)
      requires Valid()
      modifies this
      ensures Valid()
      ensures entries == [] ==> files == old(files)
      ensures entries != [] ==>
                var all := Appended(old(files), entries);
                && BatchBehind(old(files), entries, all)
                && Evicted(IndexOf(all), index, QUOTA) && files == Only(all, index.Keys)
    {
      AppendedIsBehind(files, entries);
      hide BatchBehind;
      if entries == [] {
        return;
      }
      var byDay := GroupByDay(entries);
      AppendDays(byDay);
      AllDays(old(files), files, entries, byDay);
      hide *;
      EnforceQuota();
    }

    /** The batch's days are walked in no particular order. */
    method AppendDays(byDay: map<nat, seq<string>>)
      requires Valid()
      modifies this
      ensures Valid() && files == WithDays(old(files), byDay, byDay.Keys)
    {
      ghost var before, done := files, {};
      NoDays(before, byDay);
      hide *;
      var todo := byDay.Keys;
      while todo != {}
        invariant Valid() && done + todo == byDay.Keys && done !! todo
        invariant files == WithDays(before, byDay, done)
        decreases |todo|
      {
        var day :| day in todo;
        WithOneMore(before, byDay, done, day);
        AppendToDay(day, byDay[day]);
        todo, done := todo - {day}, done + {day};
      }
      assert done == byDay.Keys;
    }

    method GroupByDay(entries: seq<Entry>) returns (byDay: map<nat, seq<string>>)
      ensures byDay.Keys == DaysOf(entries)
      ensures forall d | d in byDay :: byDay[d] == ForDay(entries, d)
    {
      byDay := map[];
      for i := 0 to |entries|
        invariant byDay.Keys == DaysOf(entries[..i])
        invariant forall d | d in byDay :: byDay[d] == ForDay(entries[..i], d)
      {
        var e := entries[i];
        GroupStep(entries, i);
        byDay := byDay[e.day := FileOf(byDay, e.day) + [e.line]];
      }
      assert entries[..|entries|] == entries;
    }

    method AppendToDay(day: nat, lines: seq<string>)
      requires Valid()
      modifies this
      ensures Valid() && files == old(files)[day := FileOf(old(files), day) + lines]
    {
      var written, count := 0, 0;
      for i := 0 to |lines|
        invariant written == Bytes(lines[..i]) && count == i
      {
        assert lines[..i + 1][..i] == lines[..i];
        written, count := written + |lines[i]| + 1, count + 1;
      }
      assert lines[..|lines|] == lines;
      RowOfLonger(files, day, lines);
      hide Bytes, FileOf;
      files := files[day := FileOf(files, day) + lines];
      if day in index {
        index := index[day := Row(index[day].bytes + written, index[day].lines + count)];
      } else {
        index := index[day := Row(written, count)];
      }
    }

    method EnforceQuota()
      requires Valid()
      modifies this
      ensures Valid() && Evicted(old(index), index, QUOTA) && files == Only(old(files), index.Keys)
    {
      var total := TotalBytes();
      if total <= QUOTA {
        NothingToErase(files, index);
        return;
      }
      var days := DaysOldestFirst();
      EraseOldest(days, total);
    }

    method EraseOldest(days: seq<nat>, sum: nat)
      requires Valid() && Lists(days, index.Keys) && sum == Sum(index)
      modifies this
      ensures Valid() && Evicted(old(index), index, QUOTA) && files == Only(old(files), index.Keys)
    {
      ghost var stored, before := files, index;
      var total := sum;
      hide *;
      ErasingStarts(this, days);
      var i := 0;
      while i < |days| && total > QUOTA
        invariant i <= |days| && Valid() && Erasing(stored, before, days, i, files, index, total)
      {
        ErasingGoesOn(stored, before, days, i, files, index, total);
        total := total - index[days[i]].bytes;
        DeleteDay(days[i]);
        i := i + 1;
      }
      ErasingEnds(stored, before, days, i, files, index, total);
    }

    method TotalBytes() returns (total: nat)
      ensures total == Sum(index)
    {
      total := 0;
      var rest := index;
      while rest != map[]
        invariant total + Sum(rest) == Sum(index)
        decreases |rest|
      {
        var d :| d in rest;
        SumWithout(rest, d);
        total := total + rest[d].bytes;
        rest := rest - {d};
      }
    }

    method DaysOldestFirst() returns (days: seq<nat>)
      ensures Lists(days, index.Keys)
    {
      days := [];
      var rest := index.Keys;
      while rest != {}
        invariant rest <= index.Keys && Lists(days, index.Keys - rest)
        invariant forall d, e | d in days && e in rest :: d < e
        decreases |rest|
      {
        var first := OldestOf(rest);
        ListsOneMore(days, index.Keys - rest, first);
        days := days + [first];
        assert index.Keys - (rest - {first}) == (index.Keys - rest) + {first};
        rest := rest - {first};
      }
    }

    method OldestOf(days: set<nat>) returns (first: nat)
      requires days != {}
      ensures IsOldest(days, first)
    {
      first :| first in days;
      var others := days - {first};
      while others != {}
        invariant first in days && others <= days
        invariant forall e | e in days && e !in others :: first <= e
        decreases |others|
      {
        var e :| e in others;
        others := others - {e};
        if e < first {
          first := e;
        }
      }
    }

    method DeleteDay(day: nat)
      requires Valid()
      modifies this
      ensures Valid() && files == old(files) - {day} && index == old(index) - {day}
    {
      files := files - {day};
      index := index - {day};
    }

    method DeleteAll()
      requires Valid()
      modifies this
      ensures Valid() && files == map[]
    {
      files := map[];
      index := map[];
    }

    method ReadDay(day: nat, offset: nat, limit: nat) returns (page: seq<string>, total: nat)
      ensures page == Page(FileOf(files, day), offset, limit) && total == |FileOf(files, day)|
      ensures |page| == if offset >= total then 0 else if offset + limit < total then limit else total - offset
      ensures forall k :: 0 <= k < |page| ==> page[k] == FileOf(files, day)[total - 1 - offset - k]
    {
      PageTells(FileOf(files, day), offset, limit);
      hide Reversed;
      if day !in files || |files[day]| == 0 {
        return [], 0;
      }
      var file := files[day];
      var all := new string[|file|](k requires 0 <= k < |file| => file[k]);
      assert all[..] == file;
      total := all.Length;
      Reverse(all);
      if offset >= all.Length {
        return [], total;
      }
      var end := offset + limit;
      if end > all.Length {
        end := all.Length;
      }
      page := all[offset..end];
    }
  }

  lemma IndexOfNothing(files: map<nat, seq<string>>)
    ensures IndexOf(Only(files, files.Keys - files.Keys)) == map[]
  {
  }

  lemma OneRowMore(files: map<nat, seq<string>>, days: set<nat>, d: nat)
    requires d in files
    ensures IndexOf(Only(files, days))[d := Row(Bytes(files[d]), |files[d]|)] == IndexOf(Only(files, days + {d}))
  {
    hide Bytes;
    assert d in Only(files, days + {d});
  }

  lemma AllRows(files: map<nat, seq<string>>)
    ensures Only(files, files.Keys) == files
  {
  }

  /** The first i days have been erased, each because the total was over the quota before. */
  ghost predicate Erasing(stored: map<nat, seq<string>>, before: map<nat, Row>, days: seq<nat>, i: nat,
                          files: map<nat, seq<string>>, index: map<nat, Row>, total: int) {
    && Lists(days, before.Keys) && i <= |days|
    && index == From(before, Bound(days, i)) && files == Only(stored, index.Keys)
    && total == Sum(index)
    && forall j :: 0 <= j < i ==> Sum(From(before, days[j])) > QUOTA
  }

  lemma ErasingStarts(logs: Logs, days: seq<nat>)
    requires logs.Valid() && Lists(days, logs.index.Keys)
    ensures Erasing(logs.files, logs.index, days, 0, logs.files, logs.index, Sum(logs.index))
  {
  }

  lemma ErasingGoesOn(stored: map<nat, seq<string>>, before: map<nat, Row>, days: seq<nat>, i: nat,
                      files: map<nat, seq<string>>, index: map<nat, Row>, total: int)
    requires Erasing(stored, before, days, i, files, index, total) && i < |days| && total > QUOTA
    ensures days[i] in index
    ensures Erasing(stored, before, days, i + 1, files - {days[i]}, index - {days[i]}, total - index[days[i]].bytes)
  {
    var d := days[i];
    FromBound(before, days, i);
    SumWithout(index, d);
    OnlyWithout(stored, index.Keys, d);
    assert (index - {d}).Keys == index.Keys - {d};
    hide From, Sum, Lists, Only;
  }

  lemma ErasingEnds(stored: map<nat, seq<string>>, before: map<nat, Row>, days: seq<nat>, i: nat,
                    files: map<nat, seq<string>>, index: map<nat, Row>, total: int)
    requires Erasing(stored, before, days, i, files, index, total) && (i == |days| || total <= QUOTA)
    ensures Evicted(before, index, QUOTA) && files == Only(stored, index.Keys)
  {
    WalkEvicts(before, days, i, QUOTA);
  }

  lemma NothingToErase(files: map<nat, seq<string>>, index: map<nat, Row>)
    requires index.Keys == files.Keys && Sum(index) <= QUOTA
    ensures Evicted(index, index, QUOTA) && Only(files, index.Keys) == files
  {
    assert From(index, 0) == index;
  }

  lemma RowOfLonger(files: map<nat, seq<string>>, day: nat, lines: seq<string>)
    ensures var index, longer := IndexOf(files), files[day := FileOf(files, day) + lines];
            var row := if day in index then index[day] else Row(0, 0);
            IndexOf(longer) == index[day := Row(row.bytes + Bytes(lines), row.lines + |lines|)]
  {
    var before := FileOf(files, day);
    RowOf(files, day);
    BytesConcat(before, lines);
    hide *;
    IndexOfUpdate(files, day, before + lines);
  }

  lemma RowOf(files: map<nat, seq<string>>, day: nat)
    ensures var index, file := IndexOf(files), FileOf(files, day);
            (if day in index then index[day] else Row(0, 0)) == Row(Bytes(file), |file|)
  {
  }

  lemma IndexOfUpdate(files: map<nat, seq<string>>, day: nat, file: seq<string>)
    ensures IndexOf(files[day := file]) == IndexOf(files)[day := Row(Bytes(file), |file|)]
  {
    hide Bytes;
  }

  lemma GroupStep(entries: seq<Entry>, i: nat)
    requires i < |entries|
    ensures DaysOf(entries[..i + 1]) == DaysOf(entries[..i]) + {entries[i].day}
    ensures forall d :: ForDay(entries[..i + 1], d)
                        == ForDay(entries[..i], d) + if d == entries[i].day then [entries[i].line] else []
    ensures entries[i].day !in DaysOf(entries[..i]) ==> ForDay(entries[..i], entries[i].day) == []
  {
    assert entries[..i + 1] == entries[..i] + [entries[i]] && entries[..i + 1][..i] == entries[..i];
    DaysConcat(entries[..i], [entries[i]]);
    if entries[i].day !in DaysOf(entries[..i]) {
      NotForDay(entries[..i], entries[i].day);
    }
  }

  /** The files once some of the batch's days have been appended. */
  function WithDays(files: map<nat, seq<string>>, byDay: map<nat, seq<string>>, done: set<nat>): map<nat, seq<string>>
    requires done <= byDay.Keys
  {
    map d | d in files.Keys + done :: if d in done then FileOf(files, d) + byDay[d] else files[d]
  }

  lemma NoDays(files: map<nat, seq<string>>, byDay: map<nat, seq<string>>)
    ensures WithDays(files, byDay, {}) == files
  {
  }

  lemma WithOneMore(files: map<nat, seq<string>>, byDay: map<nat, seq<string>>, done: set<nat>, day: nat)
    requires done <= byDay.Keys && day in byDay && day !in done
    ensures var now := WithDays(files, byDay, done);
            WithDays(files, byDay, done + {day}) == now[day := FileOf(now, day) + byDay[day]]
  {
    var now := WithDays(files, byDay, done);
    assert FileOf(now, day) == FileOf(files, day);
  }

  lemma AllDays(before: map<nat, seq<string>>, after: map<nat, seq<string>>, entries: seq<Entry>, byDay: map<nat, seq<string>>)
    requires byDay.Keys == DaysOf(entries) && forall d | d in byDay :: byDay[d] == ForDay(entries, d)
    requires after == WithDays(before, byDay, byDay.Keys)
    ensures after == Appended(before, entries)
  {
    forall d | d in after ensures after[d] == FileOf(before, d) + ForDay(entries, d) {
      if d !in byDay {
        NotForDay(entries, d);
      }
    }
  }

  // ----- Pages -----

  function Reversed(file: seq<string>): (r: seq<string>)
    ensures |r| == |file|
  {
    seq(|file|, i requires 0 <= i < |file| => file[|file| - 1 - i])
  }

  /** Swapping ends until the middle. */
  method Reverse(all: array<string>)
    modifies all
    ensures all[..] == Reversed(old(all[..]))
    ensures forall k :: 0 <= k < all.Length ==> all[k] == old(all[all.Length - 1 - k])
  {
    var i, j := 0, all.Length - 1;
    while i < j
      invariant 0 <= i <= all.Length && j == all.Length - 1 - i && i <= j + 1
      invariant forall k :: 0 <= k < i || j < k < all.Length ==> all[k] == old(all[all.Length - 1 - k])
      invariant forall k :: i <= k <= j ==> all[k] == old(all[k])
    {
      all[i], all[j] := all[j], all[i];
      i, j := i + 1, j - 1;
    }
  }

  function Min(a: int, b: int): int {
    if a < b then a else b
  }

  /** A page of the day's lines, newest first. */
  function Page(file: seq<string>, offset: nat, limit: nat): seq<string> {
    if offset >= |file| then [] else Reversed(file)[offset..Min(offset + limit, |file|)]
  }

  lemma PageTells(file: seq<string>, offset: nat, limit: nat)
    ensures var page, n := Page(file, offset, limit), |file|;
            && |page| == (if offset >= n then 0 else if offset + limit < n then limit else n - offset)
            && forall k :: 0 <= k < |page| ==> page[k] == file[n - 1 - offset - k]
  {
  }

  lemma TwoPages(file: seq<string>, offset: nat, a: nat, b: nat)
    ensures Page(file, offset, a) + Page(file, offset + a, b) == Page(file, offset, a + b)
  {
    var r := Reversed(file);
    hide Reversed;
    if offset + a < |file| {
      var end := Min(offset + a + b, |file|);
      assert r[offset..offset + a] + r[offset + a..end] == r[offset..end];
    }
  }

  lemma EmptyPage(file: seq<string>, offset: nat)
    ensures Page(file, offset, 0) == []
  {
  }

  function SumOf(limits: seq<nat>): nat {
    if limits == [] then 0 else limits[0] + SumOf(limits[1..])
  }

  function Pages(file: seq<string>, offset: nat, limits: seq<nat>): seq<string>
    decreases |limits|
  {
    if limits == [] then []
    else Page(file, offset, limits[0]) + Pages(file, offset + limits[0], limits[1..])
  }

  /** Consecutive pages, of whatever sizes, are one large page. */
  lemma {:induction false} PagesConcatenate(file: seq<string>, offset: nat, limits: seq<nat>)
    ensures Pages(file, offset, limits) == Page(file, offset, SumOf(limits))
    decreases |limits|
  {
    hide Page;
    if limits == [] {
      EmptyPage(file, offset);
    } else {
      PagesConcatenate(file, offset + limits[0], limits[1..]);
      TwoPages(file, offset, limits[0], SumOf(limits[1..]));
    }
  }

  lemma AllPagesAreTheReversedDay(file: seq<string>, limits: seq<nat>)
    requires SumOf(limits) >= |file|
    ensures Pages(file, 0, limits) == Reversed(file)
  {
    PagesConcatenate(file, 0, limits);
  }

  const DEFAULT_LIMIT := 500
  const MAX_LIMIT := 2000

  function Limit(asked: int): nat {
    if asked <= 0 then DEFAULT_LIMIT else if asked > MAX_LIMIT then MAX_LIMIT else asked
  }

  /** The pages of a caller who advances by the size it asked for, until past the end. */
  function AskAll(file: seq<string>, offset: nat, asked: nat): seq<string>
    requires asked > 0
    decreases |file| - offset
  {
    if offset >= |file| then [] else Page(file, offset, Limit(asked)) + AskAll(file, offset + asked, asked)
  }

  /** Such a caller sees the whole day exactly if it asks for no more than the largest page, or one page is enough. */
  lemma AskingSeesAllIffSmall(file: seq<string>, asked: nat)
    requires asked > 0
    ensures AskAll(file, 0, asked) == Reversed(file) <==> asked <= MAX_LIMIT || |file| <= MAX_LIMIT
  {
    if asked <= MAX_LIMIT {
      SmallPages(file, 0, asked);
    } else {
      AskedLength(file, 0, asked);
      if 0 < |file| <= MAX_LIMIT {
        assert AskAll(file, asked, asked) == [];
      }
    }
  }

  lemma {:induction false} SmallPages(file: seq<string>, offset: nat, asked: nat)
    requires 0 < asked <= MAX_LIMIT
    ensures AskAll(file, offset, asked) == Page(file, offset, |file|)
    decreases |file| - offset
  {
    if offset < |file| {
      SmallPages(file, offset + asked, asked);
      TwoPages(file, offset, asked, |file|);
      assert Page(file, offset, asked + |file|) == Page(file, offset, |file|);
    }
  }

  lemma {:induction false} AskedLength(file: seq<string>, offset: nat, asked: nat)
    requires asked > MAX_LIMIT && offset <= |file|
    ensures |AskAll(file, offset, asked)| <= |file| - offset
    ensures |file| - offset > MAX_LIMIT ==> |AskAll(file, offset, asked)| < |file| - offset
    decreases |file| - offset
  {
    if offset + asked < |file| {
      AskedLength(file, offset + asked, asked);
    }
  }
}
