// The public event window of manager/run.py: a published list and the current local
// list are merged without duplicates, keeping first positions and freshest records.
module Merge {
  import opened Basics

  /** A list entry; anything that is not a mapping is junk. The id is already stripped. */
  datatype Entry = Junk | Event(id: string, body: string)

  predicate Named(e: Entry) { e.Event? && e.id != "" }

  predicate Seen(c: seq<Entry>, id: string) { exists i | 0 <= i < |c| :: c[i].Event? && c[i].id == id }

  /** The last record of an id. */
  function Freshest(c: seq<Entry>, id: string): Entry {
    if c == [] then Junk
    else if c[|c| - 1].Event? && c[|c| - 1].id == id then c[|c| - 1]
    else Freshest(c[..|c| - 1], id)
  }

  /** What the entry at i contributes: itself when nameless, the freshest record at the first place of its id. */
  function Share(c: seq<Entry>, i: nat): seq<Entry>
    requires i < |c|
  {
    if !c[i].Event? then []
    else if c[i].id == "" then [c[i]]
    else if Seen(c[..i], c[i].id) then []
    else [Freshest(c, c[i].id)]
  }

  function Shares(c: seq<Entry>, n: nat): seq<Entry>
    requires n <= |c|
  {
    if n == 0 then [] else Shares(c, n - 1) + Share(c, n - 1)
  }

  /** The merged list before truncation. */
  function Merged(c: seq<Entry>): seq<Entry> { Shares(c, |c|) }

  // ----- one more entry -----

  /** Put a fresher record in the place of its id. */
  function Refresh(s: seq<Entry>, e: Entry): seq<Entry> {
    seq(|s|, i requires 0 <= i < |s| => if Named(e) && s[i].Event? && s[i].id == e.id then e else s[i])
  }

  lemma RefreshJoin(a: seq<Entry>, b: seq<Entry>, e: Entry)
    ensures Refresh(a + b, e) == Refresh(a, e) + Refresh(b, e)
  {
  }

  lemma {:induction false} FreshestHasId(c: seq<Entry>, id: string)
    requires Seen(c, id)
    ensures Freshest(c, id).Event? && Freshest(c, id).id == id
    decreases |c|
  {
    var init, last := c[..|c| - 1], c[|c| - 1];
    if !(last.Event? && last.id == id) {
      var i :| 0 <= i < |c| && c[i].Event? && c[i].id == id;
      assert init[i] == c[i];
      FreshestHasId(init, id);
    }
  }

  lemma RefreshOne(x: Entry, e: Entry)
    ensures Refresh([x], e) == [if Named(e) && x.Event? && x.id == e.id then e else x]
  {
  }

  lemma FreshestPush(c: seq<Entry>, e: Entry, id: string)
    ensures Freshest(c + [e], id) == if e.Event? && e.id == id then e else Freshest(c, id)
  {
    assert (c + [e])[..|c|] == c;
  }

  lemma ShareRefreshed(c: seq<Entry>, e: Entry, i: nat)
    requires i < |c|
    ensures Share(c + [e], i) == Refresh(Share(c, i), e)
  {
    assert (c + [e])[..i] == c[..i] && (c + [e])[i] == c[i];
    if c[i].Event? && c[i].id != "" && !Seen(c[..i], c[i].id) {
      assert Seen(c, c[i].id);
      FreshestHasId(c, c[i].id);
      FreshestPush(c, e, c[i].id);
      RefreshOne(Freshest(c, c[i].id), e);
    } else {
      RefreshOne(c[i], e);
      assert Refresh([], e) == [];
    }
  }

  lemma {:induction false} SharesRefreshed(c: seq<Entry>, e: Entry, n: nat)
    requires n <= |c|
    ensures Shares(c + [e], n) == Refresh(Shares(c, n), e)
    decreases n
  {
    if n > 0 {
      var m: nat := n - 1;
      SharesRefreshed(c, e, m);
      ShareRefreshed(c, e, m);
      RefreshJoin(Shares(c, m), Share(c, m), e);
    }
  }

  lemma MergedNext(c: seq<Entry>, e: Entry)
    ensures Merged(c + [e]) == Refresh(Merged(c), e) + (if e.Event? && (e.id == "" || !Seen(c, e.id)) then [e] else [])
  {
    var all := c + [e];
    SharesRefreshed(c, e, |c|);
    assert all[..|c|] == c && all[|c|] == e;
  }

  // ----- what the merged list is -----

  ghost predicate UniqueNames(s: seq<Entry>) {
    forall i, j | 0 <= i < j < |s| && Named(s[i]) && Named(s[j]) :: s[i].id != s[j].id
  }

  lemma ShareShape(c: seq<Entry>, m: nat)
    requires m < |c|
    ensures |Share(c, m)| <= 1
    ensures forall e | e in Share(c, m) ::
              e.Event? && e.id == c[m].id && (e.id != "" ==> !Seen(c[..m], e.id) && e == Freshest(c, e.id))
  {
    if c[m].Event? && c[m].id != "" && !Seen(c[..m], c[m].id) {
      assert Seen(c, c[m].id);
      FreshestHasId(c, c[m].id);
    }
  }

  lemma {:induction false} SharesNames(c: seq<Entry>, n: nat)
    requires n <= |c|
    ensures UniqueNames(Shares(c, n))
    ensures forall id | id != "" :: Seen(Shares(c, n), id) <==> Seen(c[..n], id)
    decreases n
  {
    if n > 0 {
      var m: nat := n - 1;
      SharesNames(c, m);
      ShareShape(c, m);
      var s, x := Shares(c, m), Share(c, m);
      assert c[..n] == c[..m] + [c[m]];
      forall id | id != "" ensures Seen(s + x, id) <==> Seen(c[..n], id) {
        SharesSee(c, m, id);
      }
      if x == [] {
        assert s + x == s;
      } else {
        assert x == [x[0]] && x[0] in x;
        UniqueNext(s, x[0]);
      }
    }
  }

  lemma SharesSee(c: seq<Entry>, m: nat, id: string)
    requires m < |c| && id != "" && (Seen(Shares(c, m), id) <==> Seen(c[..m], id))
    ensures Seen(Shares(c, m) + Share(c, m), id) <==> Seen(c[..m] + [c[m]], id)
  {
    var s, x := Shares(c, m), Share(c, m);
    ShareShape(c, m);
    SeenJoin(s, x, id);
    SeenJoin(c[..m], [c[m]], id);
    SeenOne(c[m], id);
    if x != [] {
      assert x == [x[0]] && x[0] in x;
      SeenOne(x[0], id);
    }
  }

  lemma UniqueNext(s: seq<Entry>, e: Entry)
    requires UniqueNames(s) && (Named(e) ==> !Seen(s, e.id))
    ensures UniqueNames(s + [e])
  {
    forall i, j | 0 <= i < j < |s + [e]| && Named((s + [e])[i]) && Named((s + [e])[j])
      ensures (s + [e])[i].id != (s + [e])[j].id
    {
      if j == |s| {
        assert s[i].Event?;
      }
    }
  }

  lemma {:induction false} SharesFresh(c: seq<Entry>, n: nat)
    requires n <= |c|
    ensures forall e | e in Shares(c, n) :: e.Event? && (e.id != "" ==> e == Freshest(c, e.id))
    decreases n
  {
    if n > 0 {
      SharesFresh(c, n - 1);
      ShareShape(c, n - 1);
    }
  }

  lemma SeenJoin(a: seq<Entry>, b: seq<Entry>, id: string)
    ensures Seen(a + b, id) <==> Seen(a, id) || Seen(b, id)
  {
    if Seen(a, id) {
      var i :| 0 <= i < |a| && a[i].Event? && a[i].id == id;
      assert (a + b)[i] == a[i];
    }
    if Seen(b, id) {
      var i :| 0 <= i < |b| && b[i].Event? && b[i].id == id;
      assert (a + b)[|a| + i] == b[i];
    }
  }

  lemma SeenOne(e: Entry, id: string)
    ensures Seen([e], id) <==> e.Event? && e.id == id
  {
    assert [e][0] == e;
  }

  function Nameless(s: seq<Entry>): seq<Entry> {
    if s == [] then []
    else if s[|s| - 1].Event? && s[|s| - 1].id == "" then Nameless(s[..|s| - 1]) + [s[|s| - 1]]
    else Nameless(s[..|s| - 1])
  }

  lemma NamelessPush(s: seq<Entry>, e: Entry)
    ensures Nameless(s + [e]) == if e.Event? && e.id == "" then Nameless(s) + [e] else Nameless(s)
  {
    assert (s + [e])[..|s|] == s;
  }

  lemma NamelessShare(c: seq<Entry>, s: seq<Entry>, m: nat)
    requires m < |c|
    ensures Nameless(s + Share(c, m)) == if c[m].Event? && c[m].id == "" then Nameless(s) + [c[m]] else Nameless(s)
  {
    var x := Share(c, m);
    ShareShape(c, m);
    if x != [] {
      assert x == [x[0]] && x[0] in x;
      NamelessPush(s, x[0]);
    } else {
      assert s + x == s;
    }
  }

  lemma {:induction false} SharesNameless(c: seq<Entry>, n: nat)
    requires n <= |c|
    ensures Nameless(Shares(c, n)) == Nameless(c[..n])
    decreases n
  {
    if n > 0 {
      var m: nat := n - 1;
      SharesNameless(c, m);
      NamelessShare(c, Shares(c, m), m);
      NamelessSlice(c, m, n);
      assert Shares(c, n) == Shares(c, m) + Share(c, m);
    } else {
      assert c[..n] == [];
    }
  }

  lemma NamelessSlice(c: seq<Entry>, m: nat, n: nat)
    requires m < |c| && n == m + 1
    ensures Nameless(c[..n]) == if c[m].Event? && c[m].id == "" then Nameless(c[..m]) + [c[m]] else Nameless(c[..m])
  {
    assert c[..n] == c[..m] + [c[m]];
    NamelessPush(c[..m], c[m]);
  }

  /** The record at i is the last one of its id. */
  ghost predicate LastOf(c: seq<Entry>, i: nat, e: Entry) {
    i < |c| && c[i] == e && e.Event? && forall j | i < j < |c| :: !(c[j].Event? && c[j].id == e.id)
  }

  lemma {:induction false} FreshestIsLast(c: seq<Entry>, id: string) returns (i: nat)
    requires Seen(c, id)
    ensures LastOf(c, i, Freshest(c, id)) && Freshest(c, id).id == id
    decreases |c|
  {
    i := |c| - 1;
    if !(c[i].Event? && c[i].id == id) {
      var init := c[..|c| - 1];
      assert forall j | 0 <= j < |init| :: init[j] == c[j];
      i := FreshestIsLast(init, id);
    }
  }

  /**
   * Every name occurs exactly once, with its last record; every nameless event is kept, in
   * order; nothing else gets in.
   */
  lemma MergeMeaning(c: seq<Entry>)
    ensures UniqueNames(Merged(c)) && Nameless(Merged(c)) == Nameless(c)
    ensures forall id | id != "" :: Seen(Merged(c), id) <==> Seen(c, id)
    ensures forall e | e in Merged(c) :: e.Event? && (e.id != "" ==> exists i: nat :: LastOf(c, i, e))
  {
    SharesNames(c, |c|);
    SharesFresh(c, |c|);
    SharesNameless(c, |c|);
    assert c[..|c|] == c;
    forall e | e in Merged(c) && e.id != "" ensures exists i: nat :: LastOf(c, i, e) {
      HasName(Merged(c), e);
      var i := FreshestIsLast(c, e.id);
    }
  }

  lemma HasName(s: seq<Entry>, e: Entry)
    requires e in s && e.Event?
    ensures Seen(s, e.id)
  {
  }

  /** Place of the first record of an id. */
  function FirstPlace(c: seq<Entry>, id: string): nat
    requires Seen(c, id)
    ensures FirstPlace(c, id) < |c| && c[FirstPlace(c, id)].Event? && c[FirstPlace(c, id)].id == id
    ensures !Seen(c[..FirstPlace(c, id)], id)
  {
    if Seen(c[..|c| - 1], id) then
      var i := FirstPlace(c[..|c| - 1], id);
      assert c[..|c| - 1][..i] == c[..i];
      i
    else
      assert forall i | 0 <= i < |c| - 1 :: c[..|c| - 1][i] == c[i];
      |c| - 1
  }

  /** A named event stands where its first record stood: after exactly what the earlier entries contribute. */
  lemma {:induction false} FirstPlaceKept(c: seq<Entry>, id: string)
    requires id != "" && Seen(c, id)
    ensures var n := |Shares(c, FirstPlace(c, id))|;
            n < |Merged(c)| && Merged(c)[n] == Freshest(c, id) && Merged(c)[..n] == Shares(c, FirstPlace(c, id))
  {
    var i := FirstPlace(c, id);
    var next: nat := i + 1;
    assert Share(c, i) == [Freshest(c, id)];
    assert Shares(c, next) == Shares(c, i) + [Freshest(c, id)];
    SharesMonotone(c, next, |c|);
    PrefixPlace(Shares(c, i), Freshest(c, id), Merged(c));
  }

  lemma PrefixPlace(s: seq<Entry>, e: Entry, all: seq<Entry>)
    requires s + [e] <= all
    ensures |s| < |all| && all[|s|] == e && all[..|s|] == s
  {
    assert all[|s|] == (s + [e])[|s|];
  }

  lemma {:induction false} SharesMonotone(c: seq<Entry>, m: nat, n: nat)
    requires m <= n <= |c|
    ensures Shares(c, m) <= Shares(c, n)
    decreases n
  {
    if m < n {
      SharesMonotone(c, m, n - 1);
    }
  }

  // ----- the loop -----

  /** The index map points at the place of every name. */
  ghost predicate Indexed(c: seq<Entry>, merged: seq<Entry>, positions: map<string, nat>) {
    && (forall id :: id in positions <==> id != "" && Seen(c, id))
    && (forall id | id in positions :: positions[id] < |merged| && merged[positions[id]].Event? && merged[positions[id]].id == id)
  }

  lemma RefreshAt(s: seq<Entry>, e: Entry, p: nat)
    requires UniqueNames(s) && Named(e) && p < |s| && s[p].Event? && s[p].id == e.id
    ensures Refresh(s, e) == s[p := e]
  {
  }

  lemma RefreshNone(s: seq<Entry>, e: Entry)
    requires Named(e) ==> !Seen(s, e.id)
    ensures Refresh(s, e) == s
  {
  }

  lemma SeenNext(c: seq<Entry>, e: Entry, id: string)
    ensures Seen(c + [e], id) <==> Seen(c, id) || (e.Event? && e.id == id)
  {
    SeenJoin(c, [e], id);
    SeenOne(e, id);
  }

  lemma SeenNextAll(c: seq<Entry>, e: Entry)
    ensures forall id :: Seen(c + [e], id) <==> Seen(c, id) || (e.Event? && e.id == id)
  {
    forall id ensures Seen(c + [e], id) <==> Seen(c, id) || (e.Event? && e.id == id) {
      SeenNext(c, e, id);
    }
  }

  lemma TakeJunk(c: seq<Entry>, e: Entry, merged: seq<Entry>, positions: map<string, nat>)
    requires merged == Merged(c) && Indexed(c, merged, positions) && e.Junk?
    ensures merged == Merged(c + [e]) && Indexed(c + [e], merged, positions)
  {
    MergedNext(c, e);
    SeenNextAll(c, e);
    RefreshNone(merged, e);
  }

  lemma TakeKnown(c: seq<Entry>, e: Entry, merged: seq<Entry>, positions: map<string, nat>)
    requires merged == Merged(c) && Indexed(c, merged, positions) && Named(e) && e.id in positions
    ensures merged[positions[e.id] := e] == Merged(c + [e])
    ensures Indexed(c + [e], merged[positions[e.id] := e], positions)
  {
    MergedNext(c, e);
    MergeMeaning(c);
    SeenNextAll(c, e);
    RefreshAt(merged, e, positions[e.id]);
  }

  lemma TakeNew(c: seq<Entry>, e: Entry, merged: seq<Entry>, positions: map<string, nat>)
    requires merged == Merged(c) && Indexed(c, merged, positions) && e.Event? && e.id !in positions
    ensures merged + [e] == Merged(c + [e])
    ensures Indexed(c + [e], merged + [e], if e.id != "" then positions[e.id := |merged|] else positions)
  {
    MergedNext(c, e);
    MergeMeaning(c);
    RefreshNone(merged, e);
    IndexNew(c, e, merged, positions);
  }

  lemma IndexNew(c: seq<Entry>, e: Entry, merged: seq<Entry>, positions: map<string, nat>)
    requires Indexed(c, merged, positions) && e.Event? && e.id !in positions
    ensures Indexed(c + [e], merged + [e], if e.id != "" then positions[e.id := |merged|] else positions)
  {
    var positions' := if e.id != "" then positions[e.id := |merged|] else positions;
    SeenNextAll(c, e);
    forall id | id in positions'
      ensures positions'[id] < |merged + [e]| && (merged + [e])[positions'[id]].Event? && (merged + [e])[positions'[id]].id == id
    {
      if id in positions {
        assert (merged + [e])[positions[id]] == merged[positions[id]];
      }
    }
  }

  /** One turn of the loop. */
  method Take(ghost c: seq<Entry>, e: Entry, was: seq<Entry>, places: map<string, nat>)
    returns (merged: seq<Entry>, positions: map<string, nat>)
    requires was == Merged(c) && Indexed(c, was, places)
    ensures merged == Merged(c + [e]) && Indexed(c + [e], merged, positions)
  {
    merged, positions := was, places;
    if e.Junk? {
      TakeJunk(c, e, was, places);
      return;
    }
    if e.id != "" {
      if e.id in positions {
        TakeKnown(c, e, was, places);
        merged := merged[positions[e.id] := e];
        return;
      }
      positions := positions[e.id := |merged|];
    }
    TakeNew(c, e, was, places);
    merged := merged + [e];
  }

  lemma NothingMerged()
    ensures Merged([]) == [] && Indexed([], [], map[])
  {
  }

  method MergePublicEvents(existing: seq<Entry>, current: seq<Entry>, limit: int) returns (window: seq<Entry>)
    ensures window == Tail(Merged(existing + current), Max(1, limit))
  {
    var merged: seq<Entry>, positions: map<string, nat> := [], map[];
    var candidates := existing + current;
    NothingMerged();
    for i := 0 to |candidates|
      invariant merged == Merged(candidates[..i]) && Indexed(candidates[..i], merged, positions)
    {
      assert candidates[..i + 1] == candidates[..i] + [candidates[i]];
      merged, positions := Take(candidates[..i], candidates[i], merged, positions);
    }
    assert candidates[..|candidates|] == candidates;
    window := Tail(merged, Max(1, limit));
  }
}
