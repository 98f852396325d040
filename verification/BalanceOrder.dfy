// The order of a balanced selection, told in places: which row of which kind stands
// where, how buckets follow the rows, and how kinds are ordered.
module BalanceOrder {
  import opened Basics
  import opened Text
  import opened Balance

  /** A row by its place in the bucket and the place of its kind. */
  datatype Spot = Spot(place: nat, kind: nat)

  predicate Later(a: Spot, b: Spot) { a.place > b.place || (a.place == b.place && a.kind > b.kind) }

  predicate IsSpot(b: Buckets, kinds: seq<string>, s: Spot) {
    s.kind < |kinds| && kinds[s.kind] in b && s.place < |b[kinds[s.kind]]|
  }

  function RowAt(b: Buckets, kinds: seq<string>, s: Spot): Row
    requires IsSpot(b, kinds, s)
  {
    b[kinds[s.kind]][s.place]
  }

  /** The rows stand at these places, in order. */
  ghost predicate Stand(b: Buckets, kinds: seq<string>, spots: seq<Spot>, rows: seq<Row>) {
    && |spots| == |rows|
    && (forall p | 0 <= p < |spots| :: IsSpot(b, kinds, spots[p]) && rows[p] == RowAt(b, kinds, spots[p]))
    && (forall p, q | 0 <= p < q < |spots| :: Later(spots[q], spots[p]))
  }

  /** Nothing up to the c-th kind of round r is missing. */
  ghost predicate CoversRound(b: Buckets, kinds: seq<string>, spots: seq<Spot>, r: nat, c: nat) {
    forall j: nat | j < c && IsSpot(b, kinds, Spot(r, j)) :: Spot(r, j) in spots
  }

  ghost predicate Covers(b: Buckets, kinds: seq<string>, spots: seq<Spot>, n: nat) {
    forall s | IsSpot(b, kinds, s) && s.place < n :: s in spots
  }

  lemma StandNext(b: Buckets, kinds: seq<string>, spots: seq<Spot>, rows: seq<Row>, s: Spot)
    requires Stand(b, kinds, spots, rows) && IsSpot(b, kinds, s)
    requires forall p | 0 <= p < |spots| :: Later(s, spots[p])
    ensures Stand(b, kinds, spots + [s], rows + [RowAt(b, kinds, s)])
  {
  }

  lemma CoversNext(b: Buckets, kinds: seq<string>, spots: seq<Spot>, r: nat, c: nat)
    requires CoversRound(b, kinds, spots, r, c)
    ensures CoversRound(b, kinds, if IsSpot(b, kinds, Spot(r, c)) then spots + [Spot(r, c)] else spots, r, c + 1)
  {
  }

  lemma {:induction false} RoundStands(b: Buckets, kinds: seq<string>, r: nat, c: nat) returns (spots: seq<Spot>)
    requires c <= |kinds|
    ensures Stand(b, kinds, spots, Round(b, kinds[..c], r)) && CoversRound(b, kinds, spots, r, c)
    ensures forall p | 0 <= p < |spots| :: spots[p].place == r && spots[p].kind < c
    decreases c
  {
    spots := [];
    if c > 0 {
      var m: nat := c - 1;
      var before := RoundStands(b, kinds, r, m);
      var rows := Round(b, kinds[..m], r);
      assert kinds[..c][..m] == kinds[..m] && kinds[..c][m] == kinds[m];
      assert Round(b, kinds[..c], r) == rows + Turn(b, kinds[m], r);
      CoversNext(b, kinds, before, r, m);
      if IsSpot(b, kinds, Spot(r, m)) {
        StandNext(b, kinds, before, rows, Spot(r, m));
        spots := before + [Spot(r, m)];
      } else {
        assert rows + [] == rows;
        spots := before;
      }
    }
  }

  lemma StandJoins(b: Buckets, kinds: seq<string>, s: seq<Spot>, rows: seq<Row>, t: seq<Spot>, more: seq<Row>, n: nat)
    requires Stand(b, kinds, s, rows) && Stand(b, kinds, t, more)
    requires (forall p | 0 <= p < |s| :: s[p].place < n) && (forall p | 0 <= p < |t| :: t[p].place == n)
    ensures Stand(b, kinds, s + t, rows + more)
  {
  }

  lemma {:induction false} RoundsStand(b: Buckets, kinds: seq<string>, n: nat) returns (spots: seq<Spot>)
    ensures Stand(b, kinds, spots, Rounds(b, kinds, n)) && Covers(b, kinds, spots, n)
    ensures forall p | 0 <= p < |spots| :: spots[p].place < n
    decreases n
  {
    spots := [];
    if n > 0 {
      var m: nat := n - 1;
      var before := RoundsStand(b, kinds, m);
      var last := RoundStands(b, kinds, m, |kinds|);
      assert kinds[..|kinds|] == kinds;
      StandJoins(b, kinds, before, Rounds(b, kinds, m), last, Round(b, kinds, m), m);
      spots := before + last;
      forall s | IsSpot(b, kinds, s) && s.place < n ensures s in spots {
        if s.place == m {
          assert s == Spot(m, s.kind) && s in last;
        } else {
          assert s in before;
        }
      }
    }
  }

  lemma InterleavingStands(b: Buckets, kinds: seq<string>) returns (spots: seq<Spot>)
    ensures Stand(b, kinds, spots, Interleaved(b, kinds))
    ensures forall s | IsSpot(b, kinds, s) :: s in spots
  {
    var n := Longest(b, kinds);
    spots := RoundsStand(b, kinds, n);
    forall s | IsSpot(b, kinds, s) ensures s in spots {
      LongestBounds(b, kinds, s.kind);
      assert s.place < n;
    }
  }

  /**
   * The selection takes rows by their place in the bucket first and the order of the kinds second, and
   * leaves a row only when the limit is reached with rows before it.
   */
  lemma {:induction false} SelectionExactly(b: Buckets, kinds: seq<string>, limit: nat) returns (spots: seq<Spot>)
    ensures Stand(b, kinds, spots, RoundRobin(b, kinds, limit)) && |spots| <= limit
    ensures forall s | IsSpot(b, kinds, s) ::
              s in spots || (|spots| == limit && forall p | 0 <= p < |spots| :: Later(s, spots[p]))
  {
    var all := InterleavingStands(b, kinds);
    spots := all[..Min(limit, |all|)];
    forall s | IsSpot(b, kinds, s)
      ensures s in spots || (|spots| == limit && forall p | 0 <= p < |spots| :: Later(s, spots[p]))
    {
      var i :| 0 <= i < |all| && all[i] == s;
      if i < |spots| {
        assert spots[i] == s;
      }
    }
  }

  // ----- buckets -----

  /** These places of the list are all those of the kind, in order, and these are their rows. */
  ghost predicate PlacesOf(rows: seq<Row>, kind: string, at: seq<nat>, bucket: seq<Row>) {
    && |at| == |bucket| && Rising(at, |rows|)
    && (forall p | 0 <= p < |at| :: rows[at[p]].kind == kind && bucket[p] == rows[at[p]])
    && (forall i | 0 <= i < |rows| && rows[i].kind == kind :: i in at)
  }

  predicate Rising(at: seq<nat>, n: nat) {
    && (forall p, q | 0 <= p < q < |at| :: at[p] < at[q])
    && (forall p | 0 <= p < |at| :: at[p] < n)
  }

  lemma RisingNext(at: seq<nat>, n: nat)
    requires Rising(at, n)
    ensures Rising(at, n + 1) && Rising(at + [n], n + 1)
  {
  }

  lemma PlacesNext(init: seq<Row>, last: Row, kind: string, at: seq<nat>, bucket: seq<Row>)
    requires PlacesOf(init, kind, at, bucket)
    ensures if last.kind == kind then PlacesOf(init + [last], kind, at + [|init|], bucket + [last])
            else PlacesOf(init + [last], kind, at, bucket)
  {
    var rows := init + [last];
    assert rows[|init|] == last && forall i | 0 <= i < |init| :: rows[i] == init[i];
    RisingNext(at, |init|);
  }

  /** The bucket of a kind holds its rows in the order of the list. */
  lemma {:induction false} BucketExactly(rows: seq<Row>, kind: string) returns (at: seq<nat>)
    ensures PlacesOf(rows, kind, at, Of(rows, kind))
    decreases |rows|
  {
    at := [];
    if rows != [] {
      var init, last := rows[..|rows| - 1], rows[|rows| - 1];
      assert rows == init + [last];
      at := BucketExactly(init, kind);
      PlacesNext(init, last, kind, at, Of(init, kind));
      if last.kind == kind {
        at := at + [|init|];
      }
    }
  }

  /** The first row of a kind. */
  ghost predicate Heads(rows: seq<Row>, i: nat, kind: string) {
    i < |rows| && rows[i].kind == kind && forall j | 0 <= j < i :: rows[j].kind != kind
  }

  /** These are the first rows of the kinds. */
  ghost predicate FirstRows(rows: seq<Row>, heads: seq<nat>, kinds: seq<string>) {
    |heads| == |kinds| && forall p | 0 <= p < |heads| :: Heads(rows, heads[p], kinds[p])
  }

  lemma FirstRowsMore(rows: seq<Row>, last: Row, heads: seq<nat>, kinds: seq<string>)
    requires FirstRows(rows, heads, kinds)
    ensures FirstRows(rows + [last], heads, kinds)
    ensures last.kind !in kinds && (forall i | 0 <= i < |rows| :: rows[i].kind in kinds) ==>
              FirstRows(rows + [last], heads + [|rows|], kinds + [last.kind])
  {
    var all := rows + [last];
    assert all[|rows|] == last && forall i | 0 <= i < |rows| :: all[i] == rows[i];
    forall p | 0 <= p < |heads| ensures Heads(all, heads[p], kinds[p]) {
      assert Heads(rows, heads[p], kinds[p]);
    }
  }

  /** Kinds in order of first appearance: by the place of their first rows. */
  lemma {:induction false} SeenExactly(rows: seq<Row>) returns (heads: seq<nat>)
    ensures FirstRows(rows, heads, FirstSeen(rows)) && Rising(heads, |rows|)
    ensures forall i | 0 <= i < |rows| :: rows[i].kind in FirstSeen(rows)
    decreases |rows|
  {
    heads := [];
    if rows != [] {
      var init, last := rows[..|rows| - 1], rows[|rows| - 1];
      assert rows == init + [last];
      heads := SeenExactly(init);
      FirstRowsMore(init, last, heads, FirstSeen(init));
      SeenNext(init, last);
      if last.kind !in FirstSeen(init) {
        RisingNext(heads, |init|);
        heads := heads + [|init|];
      }
    }
  }

  lemma SeenNext(init: seq<Row>, last: Row)
    requires forall i | 0 <= i < |init| :: init[i].kind in FirstSeen(init)
    ensures var rows := init + [last]; forall i | 0 <= i < |rows| :: rows[i].kind in FirstSeen(rows)
    ensures FirstSeen(init + [last]) == if last.kind in FirstSeen(init) then FirstSeen(init) else FirstSeen(init) + [last.kind]
  {
    var rows := init + [last];
    assert rows[..|rows| - 1] == init && rows[|rows| - 1] == last;
    forall i | 0 <= i < |rows| ensures rows[i].kind in FirstSeen(rows) {
      if i < |init| {
        assert rows[i] == init[i];
      }
    }
  }

  /** The activity list orders kinds by the update time of their first row, the latest first, and by name among equals. */
  lemma {:induction false} KindsExactly(rows: seq<Row>, kinds: seq<string>) returns (heads: seq<nat>)
    requires KindOrder(Grouped(rows), kinds)
    ensures FirstRows(rows, heads, kinds)
    ensures forall p, q | 0 <= p < q < |heads| :: NewerFirst(rows, heads[p], heads[q])
    ensures forall i | 0 <= i < |rows| :: rows[i].kind in kinds
  {
    heads := HeadsOf(rows, kinds);
    forall p, q | 0 <= p < q < |heads| ensures NewerFirst(rows, heads[p], heads[q]) {
      assert Precedes(Grouped(rows), kinds[p], kinds[q]);
    }
    forall i | 0 <= i < |rows| ensures rows[i].kind in kinds {
      assert rows[i].kind in Grouped(rows);
    }
  }

  predicate NewerFirst(rows: seq<Row>, i: nat, j: nat) {
    && i < |rows| && j < |rows|
    && (rows[i].updated > rows[j].updated || (rows[i].updated == rows[j].updated && Less(rows[i].kind, rows[j].kind)))
  }

  lemma {:induction false} HeadsOf(rows: seq<Row>, kinds: seq<string>) returns (heads: seq<nat>)
    requires forall k | k in kinds :: k in Grouped(rows)
    ensures |heads| == |kinds|
    ensures forall p | 0 <= p < |heads| ::
              Heads(rows, heads[p], kinds[p]) && Grouped(rows)[kinds[p]] != [] && Grouped(rows)[kinds[p]][0] == rows[heads[p]]
    decreases |kinds|
  {
    heads := [];
    if kinds != [] {
      var init, k := kinds[..|kinds| - 1], kinds[|kinds| - 1];
      heads := HeadsOf(rows, init);
      var i := HeadOf(rows, k);
      heads := heads + [i];
    }
  }

  lemma HeadOf(rows: seq<Row>, kind: string) returns (i: nat)
    requires kind in Grouped(rows)
    ensures Heads(rows, i, kind) && Grouped(rows)[kind] != [] && Grouped(rows)[kind][0] == rows[i]
  {
    var at := BucketExactly(rows, kind);
    var some :| 0 <= some < |rows| && rows[some].kind == kind;
    assert some in at;
    i := at[0];
    forall j: nat | j < |rows| && rows[j].kind == kind ensures i <= j {
      var p :| 0 <= p < |at| && at[p] == j;
    }
  }
}
