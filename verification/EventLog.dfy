// The retention-limited event table of manager/state_store.py. Rows are kept in
// insertion order (the order of rowids among surviving rows); queries order them by
// timestamp and break ties by insertion order.
module EventLog {
  import opened Basics
  import opened Text

  datatype Event = Event(id: string, timestamp: string, payload: string)

  predicate Older(a: Event, b: Event) { Less(a.timestamp, b.timestamp) }

  function Filter(s: seq<Event>, p: Event -> bool): seq<Event> {
    if s == [] then []
    else if p(s[|s| - 1]) then Filter(s[..|s| - 1], p) + [s[|s| - 1]]
    else Filter(s[..|s| - 1], p)
  }

  function Within(t: seq<Event>): Event -> bool { (e: Event) => e in t }

  /** Insertion after every row that is not newer. */
  function Insert(s: seq<Event>, e: Event): seq<Event> {
    if s != [] && Older(e, s[|s| - 1]) then Insert(s[..|s| - 1], e) + [s[|s| - 1]] else s + [e]
  }

  /** ORDER BY timestamp, rowid. */
  function Sort(s: seq<Event>): seq<Event> {
    if s == [] then [] else Insert(Sort(s[..|s| - 1]), s[|s| - 1])
  }

  /** DELETE ... WHERE rowid NOT IN (SELECT ... ORDER BY timestamp DESC, rowid DESC LIMIT n). */
  function Kept(rows: seq<Event>, n: nat): seq<Event> { Filter(rows, Within(Tail(Sort(rows), n))) }

  predicate HasId(rows: seq<Event>, id: string) { exists i | 0 <= i < |rows| :: rows[i].id == id }

  /** append_event for an event with an id and a timestamp: INSERT OR IGNORE, then trim. */
  function Append(rows: seq<Event>, e: Event, retention: nat): seq<Event> {
    Kept(if HasId(rows, e.id) then rows else rows + [e], retention)
  }

  function AppendAll(rows: seq<Event>, es: seq<Event>, retention: nat): seq<Event> {
    if es == [] then rows else Append(AppendAll(rows, es[..|es| - 1], retention), es[|es| - 1], retention)
  }

  function RecentLimit(limit: int, retention: nat): nat
    requires retention >= 1
  {
    Max(1, Min(limit, retention))
  }

  function Recent(rows: seq<Event>, limit: int, retention: nat): seq<Event>
    requires retention >= 1
  {
    Tail(Sort(rows), RecentLimit(limit, retention))
  }

  ghost predicate DistinctIds(s: seq<Event>) { forall i, j | 0 <= i < j < |s| :: s[i].id != s[j].id }

  ghost predicate Distinct(s: seq<Event>) { forall i, j | 0 <= i < j < |s| :: s[i] != s[j] }

  ghost predicate Ordered(s: seq<Event>) { forall i, j | 0 <= i < j < |s| :: !Older(s[j], s[i]) }

  // ----- sorting -----

  lemma {:induction false} InsertElements(s: seq<Event>, e: Event)
    ensures forall x :: x in Insert(s, e) <==> x in s || x == e
    ensures |Insert(s, e)| == |s| + 1
    decreases |s|
  {
    if s != [] && Older(e, s[|s| - 1]) {
      InsertElements(s[..|s| - 1], e);
      assert s == s[..|s| - 1] + [s[|s| - 1]];
    }
  }

  lemma {:induction false} InsertDistinct(s: seq<Event>, e: Event)
    requires Distinct(s) && e !in s
    ensures Distinct(Insert(s, e))
    decreases |s|
  {
    if s != [] && Older(e, s[|s| - 1]) {
      var init := s[..|s| - 1];
      InsertDistinct(init, e);
      InsertElements(init, e);
      assert s[|s| - 1] !in Insert(init, e);
    }
  }

  lemma NotOlderTransitive(a: Event, b: Event, c: Event)
    requires !Older(b, a) && !Older(c, b)
    ensures !Older(c, a)
  {
    LessTotal(a.timestamp, b.timestamp);
    if Older(c, a) {
      if Older(a, b) {
        LessTransitive(c.timestamp, a.timestamp, b.timestamp);
      }
    }
  }

  lemma {:induction false} InsertOrdered(s: seq<Event>, e: Event)
    requires Ordered(s)
    ensures Ordered(Insert(s, e))
    decreases |s|
  {
    if s != [] {
      var init, last := s[..|s| - 1], s[|s| - 1];
      if Older(e, last) {
        InsertOrdered(init, e);
        InsertElements(init, e);
        LessAsymmetric(e.timestamp, last.timestamp);
        forall i | 0 <= i < |s| ensures !Older(last, Insert(init, e)[i]) {
          assert Insert(init, e)[i] in Insert(init, e);
        }
      } else {
        forall i | 0 <= i < |s| ensures !Older(e, s[i]) {
          if i < |s| - 1 {
            NotOlderTransitive(s[i], last, e);
          }
        }
      }
    }
  }

  lemma {:induction false} SortOrdered(s: seq<Event>)
    ensures Ordered(Sort(s)) && |Sort(s)| == |s|
    decreases |s|
  {
    if s != [] {
      SortOrdered(s[..|s| - 1]);
      InsertOrdered(Sort(s[..|s| - 1]), s[|s| - 1]);
      InsertElements(Sort(s[..|s| - 1]), s[|s| - 1]);
    }
  }

  lemma {:induction false} SortElements(s: seq<Event>)
    ensures forall x :: x in Sort(s) <==> x in s
    decreases |s|
  {
    if s != [] {
      var init, last := s[..|s| - 1], s[|s| - 1];
      SortElements(init);
      InsertElements(Sort(init), last);
      assert s == init + [last];
    }
  }

  lemma {:induction false} SortDistinct(s: seq<Event>)
    requires Distinct(s)
    ensures Distinct(Sort(s))
    decreases |s|
  {
    if s != [] {
      var init, last := s[..|s| - 1], s[|s| - 1];
      SortDistinct(init);
      SortElements(init);
      assert last !in init;
      InsertDistinct(Sort(init), last);
    }
  }

  /** Sorting permutes the rows into timestamp order. */
  lemma Sorts(s: seq<Event>)
    ensures Ordered(Sort(s)) && |Sort(s)| == |s|
    ensures forall x :: x in Sort(s) <==> x in s
    ensures Distinct(s) ==> Distinct(Sort(s))
  {
    SortOrdered(s);
    SortElements(s);
    if Distinct(s) {
      SortDistinct(s);
    }
  }

  // ----- filtering -----

  lemma {:induction false} FilterElements(s: seq<Event>, p: Event -> bool)
    ensures forall x :: x in Filter(s, p) <==> x in s && p(x)
    decreases |s|
  {
    if s != [] {
      FilterElements(s[..|s| - 1], p);
      assert s == s[..|s| - 1] + [s[|s| - 1]];
    }
  }

  lemma FilterPush(s: seq<Event>, e: Event, p: Event -> bool)
    ensures Filter(s + [e], p) == if p(e) then Filter(s, p) + [e] else Filter(s, p)
  {
    assert (s + [e])[..|s|] == s;
  }

  lemma {:induction false} FilterJoin(a: seq<Event>, b: seq<Event>, p: Event -> bool)
    ensures Filter(a + b, p) == Filter(a, p) + Filter(b, p)
    decreases |b|
  {
    if b == [] {
      assert a + b == a;
    } else {
      var init, last := b[..|b| - 1], b[|b| - 1];
      FilterJoin(a, init, p);
      assert a + b == (a + init) + [last];
      FilterPush(a + init, last, p);
    }
  }

  lemma {:induction false} FilterAll(s: seq<Event>, p: Event -> bool)
    requires forall x | x in s :: p(x)
    ensures Filter(s, p) == s
    decreases |s|
  {
    if s != [] {
      FilterAll(s[..|s| - 1], p);
      assert s == s[..|s| - 1] + [s[|s| - 1]];
    }
  }

  lemma {:induction false} FilterNone(s: seq<Event>, p: Event -> bool)
    requires forall x | x in s :: !p(x)
    ensures Filter(s, p) == []
    decreases |s|
  {
    if s != [] {
      FilterNone(s[..|s| - 1], p);
    }
  }

  lemma {:induction false} FilterTwice(s: seq<Event>, p: Event -> bool, q: Event -> bool)
    requires forall x | x in s && q(x) :: p(x)
    ensures Filter(Filter(s, p), q) == Filter(s, q)
    decreases |s|
  {
    if s != [] {
      var init, last := s[..|s| - 1], s[|s| - 1];
      assert s == init + [last];
      FilterTwice(init, p, q);
      if p(last) {
        FilterPush(Filter(init, p), last, q);
      }
    }
  }

  lemma {:induction false} FilterOrdered(s: seq<Event>, p: Event -> bool)
    requires Ordered(s)
    ensures Ordered(Filter(s, p))
    decreases |s|
  {
    if s != [] {
      var init, last := s[..|s| - 1], s[|s| - 1];
      FilterOrdered(init, p);
      FilterElements(init, p);
      forall i | 0 <= i < |Filter(init, p)| ensures !Older(last, Filter(init, p)[i]) {
        assert Filter(init, p)[i] in init;
      }
    }
  }

  lemma {:induction false} FilterInsert(s: seq<Event>, e: Event, p: Event -> bool)
    requires Ordered(s)
    ensures Filter(Insert(s, e), p) == if p(e) then Insert(Filter(s, p), e) else Filter(s, p)
    decreases |s|
  {
    if s != [] && Older(e, s[|s| - 1]) {
      var init, last := s[..|s| - 1], s[|s| - 1];
      FilterInsert(init, e, p);
      FilterPush(Insert(init, e), last, p);
      if p(last) {
        InsertBeforeLast(Filter(init, p), last, e);
      }
    } else {
      FilterPush(s, e, p);
      FilterLast(s, e, p);
    }
  }

  lemma InsertBeforeLast(s: seq<Event>, last: Event, e: Event)
    requires Older(e, last)
    ensures Insert(s + [last], e) == Insert(s, e) + [last]
  {
    assert (s + [last])[..|s|] == s;
  }

  lemma FilterLast(s: seq<Event>, e: Event, p: Event -> bool)
    requires Ordered(s) && (s != [] ==> !Older(e, s[|s| - 1]))
    ensures Insert(Filter(s, p), e) == Filter(s, p) + [e]
  {
    FilterElements(s, p);
    var f := Filter(s, p);
    if f != [] {
      assert f[|f| - 1] in f;
      var i :| 0 <= i < |s| && s[i] == f[|f| - 1];
      if i < |s| - 1 {
        NotOlderTransitive(s[i], s[|s| - 1], e);
      }
    }
  }

  lemma SortPush(s: seq<Event>, e: Event)
    ensures Sort(s + [e]) == Insert(Sort(s), e)
  {
    assert (s + [e])[..|s|] == s;
  }

  /** Filtering commutes with sorting; for rows of one timestamp this says that sorting is stable. */
  lemma {:induction false} FilterSort(s: seq<Event>, p: Event -> bool)
    ensures Sort(Filter(s, p)) == Filter(Sort(s), p)
    decreases |s|
  {
    if s != [] {
      var init, last := s[..|s| - 1], s[|s| - 1];
      FilterSort(init, p);
      Sorts(init);
      FilterInsert(Sort(init), last, p);
      if p(last) {
        SortPush(Filter(init, p), last);
      }
    }
  }

  lemma {:induction false} SortIsStable(s: seq<Event>, timestamp: string)
    ensures var p := (e: Event) => e.timestamp == timestamp; Filter(Sort(s), p) == Filter(s, p)
  {
    var p := (e: Event) => e.timestamp == timestamp;
    FilterSort(s, p);
    FilterElements(s, p);
    SortEqual(Filter(s, p), timestamp);
  }

  lemma {:induction false} SortEqual(s: seq<Event>, timestamp: string)
    requires forall e | e in s :: e.timestamp == timestamp
    ensures Sort(s) == s
    decreases |s|
  {
    if s != [] {
      var init, last := s[..|s| - 1], s[|s| - 1];
      SortEqual(init, timestamp);
      if init != [] && Older(last, init[|init| - 1]) {
        LessAsymmetric(timestamp, timestamp);
      }
      assert s == init + [last];
    }
  }

  // ----- tails -----

  lemma TailPush(s: seq<Event>, x: Event, n: nat)
    requires n > 0
    ensures Tail(s + [x], n) == Tail(s, n - 1) + [x]
  {
  }

  lemma TailTail(s: seq<Event>, a: nat, b: nat)
    requires b <= a
    ensures Tail(Tail(s, a), b) == Tail(s, b)
  {
  }

  lemma TailInsertOlder(init: seq<Event>, last: Event, e: Event, n: nat)
    requires n > 0 && Older(e, last)
    requires Tail(Insert(Tail(init, n - 1), e), n - 1) == Tail(Insert(init, e), n - 1)
    ensures Tail(Insert(Tail(init + [last], n), e), n) == Tail(Insert(init + [last], e), n)
  {
    var t := Tail(init, n - 1);
    TailPush(init, last, n);
    InsertBeforeLast(init, last, e);
    InsertBeforeLast(t, last, e);
    TailPush(Insert(init, e), last, n);
    TailPush(Insert(t, e), last, n);
  }

  lemma TailInsertNewest(init: seq<Event>, last: Event, e: Event, n: nat)
    requires n > 0 && !Older(e, last)
    ensures Tail(Insert(Tail(init + [last], n), e), n) == Tail(Insert(init + [last], e), n)
  {
    TailPush(init, last, n);
    TailPush(init + [last], e, n);
    TailPush(Tail(init + [last], n), e, n);
    TailTail(init + [last], n, n - 1);
  }

  /** Rows outside the last n never come back: inserting into the tail gives the same tail. */
  lemma {:induction false} TailInsert(s: seq<Event>, e: Event, n: nat)
    ensures Tail(Insert(Tail(s, n), e), n) == Tail(Insert(s, e), n)
    decreases |s|
  {
    if n > 0 && s != [] {
      var init, last := s[..|s| - 1], s[|s| - 1];
      assert s == init + [last];
      if Older(e, last) {
        TailInsert(init, e, n - 1);
        TailInsertOlder(init, last, e, n);
      } else {
        TailInsertNewest(init, last, e, n);
      }
    }
  }

  lemma FilterTail(s: seq<Event>, n: nat)
    requires Distinct(s)
    ensures Filter(s, Within(Tail(s, n))) == Tail(s, n)
  {
    var t := Tail(s, n);
    var a := s[..|s| - |t|];
    assert s == a + t;
    FilterSecondHalf(a, t);
  }

  lemma FilterSecondHalf(a: seq<Event>, t: seq<Event>)
    requires Distinct(a + t)
    ensures Filter(a + t, Within(t)) == t
  {
    forall x | x in a ensures x !in t {
      var i :| 0 <= i < |a| && a[i] == x;
      forall j | 0 <= j < |t| ensures t[j] != x {
        assert (a + t)[i] == x && (a + t)[|a| + j] == t[j];
      }
    }
    FilterJoin(a, t, Within(t));
    FilterNone(a, Within(t));
    FilterAll(t, Within(t));
  }

  // ----- the retained rows -----

  lemma DistinctIdsDistinct(s: seq<Event>)
    requires DistinctIds(s)
    ensures Distinct(s)
  {
  }

  /** Trimming keeps exactly the tail of the sorted rows. */
  lemma KeptSorts(h: seq<Event>, n: nat)
    requires Distinct(h)
    ensures Sort(Kept(h, n)) == Tail(Sort(h), n)
  {
    Sorts(h);
    FilterSort(h, Within(Tail(Sort(h), n)));
    FilterTail(Sort(h), n);
  }

  /**
   * The table forgets nothing that matters: trimming before and after an append is the same as
   * trimming the whole history once. An earlier, larger retention does no harm.
   */
  lemma AppendToKept(h: seq<Event>, e: Event, was: nat, retention: nat)
    requires DistinctIds(h + [e]) && retention <= was
    ensures Append(Kept(h, was), e, retention) == Kept(h + [e], retention)
  {
    FreshId(h, e);
    DistinctIdsDistinct(h);
    var rows, before, after := Kept(h, was), Tail(Sort(h), was), Tail(Sort(h + [e]), retention);
    FilterElements(h, Within(before));
    assert !HasId(rows, e.id);
    KeptSorts(h, was);
    SameTails(h, rows, e, was, retention);
    TailMembers(h, e, was, retention);
    FilterTwice(h, Within(before), Within(after));
    FilterPush(rows, e, Within(after));
    FilterPush(h, e, Within(after));
  }

  lemma FreshId(h: seq<Event>, e: Event)
    requires DistinctIds(h + [e])
    ensures DistinctIds(h) && forall x | x in h :: x.id != e.id
  {
    var all := h + [e];
    assert all[|h|] == e && forall i | 0 <= i < |h| :: all[i] == h[i];
  }

  lemma SameTails(h: seq<Event>, rows: seq<Event>, e: Event, was: nat, retention: nat)
    requires Sort(rows) == Tail(Sort(h), was) && retention <= was
    ensures Tail(Sort(rows + [e]), retention) == Tail(Sort(h + [e]), retention)
  {
    SortPush(rows, e);
    SortPush(h, e);
    TailInsert(Sort(h), e, was);
    TailTail(Insert(Tail(Sort(h), was), e), was, retention);
    TailTail(Insert(Sort(h), e), was, retention);
  }

  /** What is kept with the new event was kept before. */
  lemma TailMembers(h: seq<Event>, e: Event, was: nat, retention: nat)
    requires retention <= was && forall x | x in h :: x.id != e.id
    ensures forall x | x in h && x in Tail(Sort(h + [e]), retention) :: x in Tail(Sort(h), was)
  {
    var before := Tail(Sort(h), was);
    SortPush(h, e);
    TailInsert(Sort(h), e, was);
    TailTail(Insert(before, e), was, retention);
    TailTail(Insert(Sort(h), e), was, retention);
    InsertElements(before, e);
  }

  /**
   * Main result: after any appends with distinct ids the table holds exactly what one trim of the
   * whole history would leave, in insertion order.
   */
  lemma {:induction false} RetainedRows(h: seq<Event>, was: nat, es: seq<Event>, retention: nat)
    requires DistinctIds(h + es) && retention <= was && es != []
    ensures AppendAll(Kept(h, was), es, retention) == Kept(h + es, retention)
    decreases |es|
  {
    var init, last := es[..|es| - 1], es[|es| - 1];
    assert (h + init) + [last] == h + es;
    assert DistinctIds(h + init) by {
      assert forall i | 0 <= i < |h + init| :: (h + init)[i] == (h + es)[i];
    }
    if init == [] {
      assert h + init == h;
      AppendToKept(h, last, was, retention);
    } else {
      RetainedRows(h, was, init, retention);
      AppendToKept(h + init, last, retention, retention);
    }
  }

  lemma RetainedFromEmpty(es: seq<Event>, retention: nat)
    requires DistinctIds(es)
    ensures AppendAll([], es, retention) == Kept(es, retention)
  {
    if es != [] {
      assert [] + es == es && Kept([], retention) == [];
      RetainedRows([], retention, es, retention);
    }
  }

  /** recent_events answers from the full history, although the table is trimmed. */
  lemma {:induction false} RecentFromHistory(es: seq<Event>, limit: int, retention: nat)
    requires DistinctIds(es) && retention >= 1
    ensures Recent(AppendAll([], es, retention), limit, retention) == Tail(Sort(es), RecentLimit(limit, retention))
  {
    RetainedFromEmpty(es, retention);
    DistinctIdsDistinct(es);
    KeptSorts(es, retention);
    TailTail(Sort(es), retention, RecentLimit(limit, retention));
  }

  // ----- which rows these are -----

  /** The row at j outranks the row at i: newer, or as new and inserted later. */
  predicate Outranks(h: seq<Event>, j: nat, i: nat)
    requires i < |h| && j < |h|
  {
    Less(h[i].timestamp, h[j].timestamp) || (h[i].timestamp == h[j].timestamp && i < j)
  }

  function Rank(h: seq<Event>, i: nat, n: nat): nat
    requires i < |h| && n <= |h|
  {
    if n == 0 then 0 else Rank(h, i, n - 1) + if Outranks(h, n - 1, i) then 1 else 0
  }

  /** How many elements follow x. */
  function Above(s: seq<Event>, x: Event): nat
    requires x in s
    decreases |s|
  {
    if s[|s| - 1] == x then 0
    else
      assert s == s[..|s| - 1] + [s[|s| - 1]];
      1 + Above(s[..|s| - 1], x)
  }

  lemma {:induction false} AboveTail(s: seq<Event>, x: Event, n: nat)
    requires x in s && Distinct(s)
    ensures x in Tail(s, n) <==> Above(s, x) < n
    decreases |s|
  {
    var init, last := s[..|s| - 1], s[|s| - 1];
    assert s == init + [last];
    if n > 0 {
      TailPush(init, last, n);
      if x != last {
        AboveTail(init, x, n - 1);
      }
    }
  }

  lemma {:induction false} AboveInsert(s: seq<Event>, e: Event, x: Event)
    requires x in s && Ordered(s) && Distinct(s) && e !in s
    ensures x in Insert(s, e) && Above(Insert(s, e), x) == Above(s, x) + if Older(e, x) then 0 else 1
    decreases |s|
  {
    InsertElements(s, e);
    var init, last := s[..|s| - 1], s[|s| - 1];
    assert s == init + [last];
    if Older(e, last) {
      assert Insert(s, e)[..|s|] == Insert(init, e);
      if x != last {
        AboveInsert(init, e, x);
      }
    } else {
      assert Insert(s, e)[..|s|] == s;
      var i :| 0 <= i < |s| && s[i] == x;
      if i < |s| - 1 {
        NotOlderTransitive(x, last, e);
      }
    }
  }

  function Newer(s: seq<Event>, e: Event): nat {
    if s == [] then 0 else Newer(s[..|s| - 1], e) + if Older(e, s[|s| - 1]) then 1 else 0
  }

  lemma {:induction false} AboveNew(s: seq<Event>, e: Event)
    requires Ordered(s) && e !in s
    ensures e in Insert(s, e) && Above(Insert(s, e), e) == Newer(s, e)
    decreases |s|
  {
    InsertElements(s, e);
    if s != [] {
      var init, last := s[..|s| - 1], s[|s| - 1];
      assert s == init + [last];
      if Older(e, last) {
        assert Insert(s, e)[..|s|] == Insert(init, e);
        AboveNew(init, e);
      } else {
        NoneNewer(s, e);
      }
    }
  }

  lemma {:induction false} NoneNewer(s: seq<Event>, e: Event)
    requires Ordered(s) && (s != [] ==> !Older(e, s[|s| - 1]))
    ensures Newer(s, e) == 0
    decreases |s|
  {
    if |s| > 1 {
      NotOlderTransitive(s[|s| - 2], s[|s| - 1], e);
    }
    if s != [] {
      NoneNewer(s[..|s| - 1], e);
    }
  }

  lemma {:induction false} NewerInsert(s: seq<Event>, x: Event, e: Event)
    ensures Newer(Insert(s, x), e) == Newer(s, e) + if Older(e, x) then 1 else 0
    decreases |s|
  {
    if s != [] && Older(x, s[|s| - 1]) {
      NewerInsert(s[..|s| - 1], x, e);
      InsertElements(s[..|s| - 1], x);
      assert Insert(s, x)[..|s|] == Insert(s[..|s| - 1], x);
    } else {
      assert (s + [x])[..|s|] == s;
    }
  }

  lemma {:induction false} NewerSort(s: seq<Event>, e: Event)
    ensures Newer(Sort(s), e) == Newer(s, e)
    decreases |s|
  {
    if s != [] {
      NewerSort(s[..|s| - 1], e);
      NewerInsert(Sort(s[..|s| - 1]), s[|s| - 1], e);
    }
  }

  lemma {:induction false} RankPrefix(h: seq<Event>, init: seq<Event>, i: nat, n: nat)
    requires |h| == |init| + 1 && h[..|init|] == init && i < |init| && n <= |init|
    ensures Rank(h, i, n) == Rank(init, i, n)
    decreases n
  {
    if n > 0 {
      RankPrefix(h, init, i, n - 1);
      assert h[i] == init[i] && h[n - 1] == init[n - 1];
    }
  }

  lemma {:induction false} RankOfLast(h: seq<Event>, n: nat)
    requires h != [] && n < |h|
    ensures Rank(h, |h| - 1, n) == Newer(h[..n], h[|h| - 1])
    decreases n
  {
    if n > 0 {
      RankOfLast(h, n - 1);
      assert h[..n][..n - 1] == h[..n - 1];
    }
  }

  lemma SortHas(s: seq<Event>, x: Event)
    ensures x in Sort(s) <==> x in s
  {
    SortElements(s);
  }

  lemma PlaceOfNew(init: seq<Event>, last: Event)
    requires last !in init
    ensures var h := init + [last];
            last in Sort(h) && Above(Sort(h), last) == Rank(h, |init|, |h|)
  {
    var h := init + [last];
    SortPush(init, last);
    SortOrdered(init);
    SortHas(init, last);
    AboveNew(Sort(init), last);
    NewerSort(init, last);
    assert h[..|init|] == init;
    RankOfLast(h, |init|);
    NotOlder(last, last);
  }

  lemma PlaceOfOld(init: seq<Event>, last: Event, i: nat)
    requires Distinct(init) && last !in init && i < |init|
    requires init[i] in Sort(init) && Above(Sort(init), init[i]) == Rank(init, i, |init|)
    ensures var h := init + [last];
            init[i] in Sort(h) && Above(Sort(h), init[i]) == Rank(h, i, |h|)
  {
    SortPush(init, last);
    SortOrdered(init);
    SortHas(init, last);
    SortDistinct(init);
    AboveInsert(Sort(init), last, init[i]);
    RankOfOld(init, last, i);
  }

  lemma RankOfOld(init: seq<Event>, last: Event, i: nat)
    requires i < |init|
    ensures var h := init + [last];
            Rank(h, i, |h|) == Rank(init, i, |init|) + if Older(last, init[i]) then 0 else 1
  {
    var h := init + [last];
    assert h[..|init|] == init && h[i] == init[i] && h[|init|] == last;
    RankPrefix(h, init, i, |init|);
    NotOlder(init[i], last);
  }

  lemma NotOlder(a: Event, b: Event)
    ensures !Older(b, a) <==> Older(a, b) || a.timestamp == b.timestamp
  {
    LessTotal(a.timestamp, b.timestamp);
    if Older(b, a) {
      LessAsymmetric(b.timestamp, a.timestamp);
    }
  }

  /** The place of a row in the sorted history is given by how many rows outrank it. */
  lemma {:induction false} RankIsPlace(h: seq<Event>, i: nat)
    requires Distinct(h) && i < |h|
    ensures h[i] in Sort(h) && Above(Sort(h), h[i]) == Rank(h, i, |h|)
    decreases |h|
  {
    var init, last := h[..|h| - 1], h[|h| - 1];
    assert h == init + [last] && last !in init;
    if i < |init| {
      RankIsPlace(init, i);
      PlaceOfOld(init, last, i);
    } else {
      PlaceOfNew(init, last);
    }
  }

  /**
   * The retained rows are exactly the `retention` greatest of all events ever appended: those
   * outranked by fewer than `retention` others.
   */
  lemma RetainedAreTheGreatest(es: seq<Event>, retention: nat, i: nat)
    requires DistinctIds(es) && i < |es|
    ensures es[i] in AppendAll([], es, retention) <==> Rank(es, i, |es|) < retention
  {
    DistinctIdsDistinct(es);
    RetainedFromEmpty(es, retention);
    Sorts(es);
    RankIsPlace(es, i);
    AboveTail(Sort(es), es[i], retention);
    FilterElements(es, Within(Tail(Sort(es), retention)));
  }

  // ----- appending an id again -----

  lemma {:induction false} InsertFirst(s: seq<Event>, e: Event)
    requires e !in s
    ensures Insert(s, e)[0] == e <==> forall x | x in s :: Older(e, x)
    ensures (forall x | x in s :: Older(e, x)) ==> Insert(s, e) == [e] + s
    decreases |s|
  {
    if s != [] {
      var init, last := s[..|s| - 1], s[|s| - 1];
      assert s == init + [last];
      if Older(e, last) {
        InsertFirst(init, e);
        assert [e] + init + [last] == [e] + s;
      } else {
        assert Insert(s, e)[0] == s[0] && last in s;
      }
    }
  }

  /**
   * An append leaves the table as it is exactly when the id is stored, or the table is full and
   * the event is older than every row: an id that was trimmed away is not recognised any more.
   */
  lemma AppendIgnored(rows: seq<Event>, e: Event, retention: nat)
    requires DistinctIds(rows) && |rows| <= retention && retention >= 1
    ensures Append(rows, e, retention) == rows <==>
            HasId(rows, e.id) || (|rows| == retention && forall x | x in rows :: Older(e, x))
  {
    DistinctIdsDistinct(rows);
    if HasId(rows, e.id) {
      TrimmedAlready(rows, retention);
    } else {
      assert e !in rows;
      if |rows| == retention && forall x | x in rows :: Older(e, x) {
        OldestFallsOut(rows, e, retention);
      } else {
        NewcomerStays(rows, e, retention);
      }
    }
  }

  lemma TrimmedAlready(rows: seq<Event>, n: nat)
    requires |rows| <= n
    ensures Kept(rows, n) == rows
  {
    Sorts(rows);
    FilterAll(rows, Within(Sort(rows)));
  }

  lemma OldestFallsOut(rows: seq<Event>, e: Event, n: nat)
    requires e !in rows && |rows| == n && forall x | x in rows :: Older(e, x)
    ensures Kept(rows + [e], n) == rows
  {
    SortOrdered(rows);
    SortElements(rows);
    InsertFirst(Sort(rows), e);
    SortPush(rows, e);
    assert Tail([e] + Sort(rows), n) == Sort(rows);
    FilterPush(rows, e, Within(Sort(rows)));
    FilterAll(rows, Within(Sort(rows)));
  }

  lemma NewcomerStays(rows: seq<Event>, e: Event, n: nat)
    requires e !in rows && n >= 1 && |rows| <= n && !(|rows| == n && forall x | x in rows :: Older(e, x))
    ensures Kept(rows + [e], n) != rows
  {
    var all := Insert(Sort(rows), e);
    SortOrdered(rows);
    SortElements(rows);
    InsertElements(Sort(rows), e);
    SortPush(rows, e);
    var i :| 0 <= i < |all| && all[i] == e;
    if |rows| == n {
      InsertFirst(Sort(rows), e);
      assert Tail(all, n)[i - 1] == e;
    } else {
      assert Tail(all, n) == all;
    }
    FilterPush(rows, e, Within(Tail(all, n)));
    assert e in Kept(rows + [e], n);
  }

  // ----- the table as an object -----

  predicate Appendable(e: Event) { e.id != "" && e.timestamp != "" }

  /** Events before the first one that append_event rejects. */
  function Accepted(es: seq<Event>): (n: nat)
    ensures n <= |es|
  {
    if es == [] then 0
    else if Accepted(es[..|es| - 1]) == |es| - 1 && Appendable(es[|es| - 1]) then |es|
    else Accepted(es[..|es| - 1])
  }

  lemma {:induction false} AcceptedStops(es: seq<Event>, k: nat)
    requires k <= |es| && Accepted(es[..k]) < k
    ensures Accepted(es) == Accepted(es[..k])
    decreases |es| - k
  {
    if k < |es| {
      assert es[..k + 1][..k] == es[..k];
      AcceptedStops(es, k + 1);
    } else {
      assert es[..k] == es;
    }
  }

  /** The accepted part is the longest prefix without a rejected event. */
  lemma {:induction false} AcceptedPrefix(es: seq<Event>)
    ensures forall i | 0 <= i < Accepted(es) :: Appendable(es[i])
    ensures Accepted(es) < |es| ==> !Appendable(es[Accepted(es)])
    decreases |es|
  {
    if es != [] {
      AcceptedPrefix(es[..|es| - 1]);
    }
  }

  /** One more event: accepted and appended, or the one at which append_events stops. */
  lemma AppendStep(rows: seq<Event>, es: seq<Event>, i: nat, retention: nat)
    requires i < |es| && Accepted(es[..i]) == i
    ensures Appendable(es[i]) ==>
              && Accepted(es[..i + 1]) == i + 1
              && AppendAll(rows, es[..i + 1], retention) == Append(AppendAll(rows, es[..i], retention), es[i], retention)
    ensures !Appendable(es[i]) ==> Accepted(es) == i
  {
    var next := es[..i + 1];
    assert next[..i] == es[..i] && next[i] == es[i];
    if !Appendable(es[i]) {
      AcceptedStops(es, i + 1);
    }
  }

  lemma TailOrdered(s: seq<Event>, n: nat)
    requires Ordered(s)
    ensures Ordered(Tail(s, n))
  {
    var t, d := Tail(s, n), if |s| <= n then 0 else |s| - n;
    forall i, j | 0 <= i < j < |t| ensures !Older(t[j], t[i]) {
      assert t[i] == s[d + i] && t[j] == s[d + j];
    }
  }

  /** Whatever the tail leaves out stands before all of it. */
  lemma LeftOut(s: seq<Event>, n: nat, x: Event, y: Event)
    requires Ordered(s) && x in s && x !in Tail(s, n) && y in Tail(s, n)
    ensures !Older(y, x)
  {
    var t, d := Tail(s, n), if |s| <= n then 0 else |s| - n;
    var i :| 0 <= i < |s| && s[i] == x;
    var j :| 0 <= j < |t| && t[j] == y;
    forall k | d <= k < |s| ensures s[k] in t {
      assert t[k - d] == s[k];
    }
    assert s[d + j] == y;
  }

  lemma TailWithin(s: seq<Event>, n: nat)
    ensures |Tail(s, n)| == Min(|s|, n) && forall x | x in Tail(s, n) :: x in s
  {
  }

  /** These are n of the newest rows (all if there are fewer), in timestamp order. */
  ghost predicate Newest(rows: seq<Event>, n: nat, t: seq<Event>) {
    && |t| == Min(|rows|, n) && (forall x | x in t :: x in rows)
    && (forall i, j | 0 <= i < j < |t| :: !Less(t[j].timestamp, t[i].timestamp))
    && forall x, y | x in rows && x !in t && y in t :: !Less(y.timestamp, x.timestamp)
  }

  lemma NewestInOrder(rows: seq<Event>, n: nat)
    ensures Newest(rows, n, Tail(Sort(rows), n))
  {
    var s, t := Sort(rows), Tail(Sort(rows), n);
    SortOrdered(rows);
    TailOrdered(s, n);
    TailWithin(s, n);
    forall x | x in t ensures x in rows {
      SortHas(rows, x);
    }
    forall x, y | x in rows && x !in t && y in t ensures !Less(y.timestamp, x.timestamp) {
      SortHas(rows, x);
      LeftOut(s, n, x, y);
    }
    forall i, j | 0 <= i < j < |t| ensures !Less(t[j].timestamp, t[i].timestamp) {
      assert !Older(t[j], t[i]);
    }
  }

  class EventTable {
    const retention: nat
    var rows: seq<Event>

    constructor (retention: nat)
      requires retention >= 100
      ensures this.retention == retention && rows == []
    {
      this.retention, rows := retention, [];
    }

    /** False when the source raises: an event needs an id and a timestamp. */
    method AppendEvent(e: Event) returns (accepted: bool)
      modifies this
      ensures accepted == (e.id != "" && e.timestamp != "")
      ensures rows == if accepted then Append(old(rows), e, retention) else old(rows)
    {
      if e.id == "" || e.timestamp == "" {
        return false;
      }
      if !HasId(rows, e.id) {
        rows := rows + [e];
      }
      rows := Kept(rows, retention);
      return true;
    }

    method AppendEvents(es: seq<Event>) returns (all: bool)
      modifies this
      ensures all == (Accepted(es) == |es|)
      ensures rows == AppendAll(old(rows), es[..Accepted(es)], retention)
    {
      for i := 0 to |es|
        invariant Accepted(es[..i]) == i && rows == AppendAll(old(rows), es[..i], retention)
      {
        AppendStep(old(rows), es, i, retention);
        var accepted := AppendEvent(es[i]);
        if !accepted {
          return false;
        }
      }
      assert es[..|es|] == es;
      return true;
    }

    /** The newest rows in order: at most the limit, and never more than the retention. */
    method RecentEvents(limit: int) returns (recent: seq<Event>)
      requires retention >= 1
      ensures recent == Recent(rows, limit, retention)
      ensures Newest(rows, Max(1, Min(limit, retention)), recent)
    {
      var n := Max(1, Min(limit, retention));
      recent := Tail(Sort(rows), n);
      NewestInOrder(rows, n);
    }
  }
}
