// The kind-balanced selections of manager/state_store.py (task activity) and
// manager/telemetry.py (public queue snapshot): rows are taken from one bucket per
// kind in turn until the limit is reached.
module Balance {
  import opened Basics
  import opened Text

  datatype Row = Row(id: string, kind: string, updated: real)

  type Buckets = map<string, seq<Row>>

  // ----- the selection as rounds over the kinds -----

  function Turn(b: Buckets, kind: string, r: nat): seq<Row> {
    if kind in b && r < |b[kind]| then [b[kind][r]] else []
  }

  function Round(b: Buckets, kinds: seq<string>, r: nat): seq<Row> {
    if kinds == [] then [] else Round(b, kinds[..|kinds| - 1], r) + Turn(b, kinds[|kinds| - 1], r)
  }

  function Rounds(b: Buckets, kinds: seq<string>, n: nat): seq<Row> {
    if n == 0 then [] else Rounds(b, kinds, n - 1) + Round(b, kinds, n - 1)
  }

  function Size(b: Buckets, kind: string): nat { if kind in b then |b[kind]| else 0 }

  function Longest(b: Buckets, kinds: seq<string>): nat {
    if kinds == [] then 0 else Max(Longest(b, kinds[..|kinds| - 1]), Size(b, kinds[|kinds| - 1]))
  }

  function Total(b: Buckets, kinds: seq<string>): nat {
    if kinds == [] then 0 else Total(b, kinds[..|kinds| - 1]) + Size(b, kinds[|kinds| - 1])
  }

  /** All rows, ordered by (place in the bucket, place of the kind). */
  function Interleaved(b: Buckets, kinds: seq<string>): seq<Row> { Rounds(b, kinds, Longest(b, kinds)) }

  function First(s: seq<Row>, n: nat): seq<Row> { s[..Min(n, |s|)] }

  function RoundRobin(b: Buckets, kinds: seq<string>, limit: nat): seq<Row> { First(Interleaved(b, kinds), limit) }

  ghost predicate DistinctKinds(kinds: seq<string>) { forall i, j | 0 <= i < j < |kinds| :: kinds[i] != kinds[j] }

  // ----- rounds are prefixes of later rounds -----

  lemma {:induction false} RoundPrefix(b: Buckets, kinds: seq<string>, c: nat, r: nat)
    requires c <= |kinds|
    ensures Round(b, kinds[..c], r) <= Round(b, kinds, r)
    decreases |kinds|
  {
    if c < |kinds| {
      RoundPrefix(b, kinds[..|kinds| - 1], c, r);
      assert kinds[..|kinds| - 1][..c] == kinds[..c];
    } else {
      assert kinds[..c] == kinds;
    }
  }

  lemma {:induction false} RoundsPrefix(b: Buckets, kinds: seq<string>, m: nat, n: nat)
    requires m <= n
    ensures Rounds(b, kinds, m) <= Rounds(b, kinds, n)
    decreases n
  {
    if m < n {
      RoundsPrefix(b, kinds, m, n - 1);
    }
  }

  lemma {:induction false} LongestBounds(b: Buckets, kinds: seq<string>, i: nat)
    requires i < |kinds|
    ensures Size(b, kinds[i]) <= Longest(b, kinds)
    decreases |kinds|
  {
    if i < |kinds| - 1 {
      LongestBounds(b, kinds[..|kinds| - 1], i);
    }
  }

  /** A round is empty exactly when no bucket reaches it. */
  lemma {:induction false} RoundEmpty(b: Buckets, kinds: seq<string>, r: nat)
    ensures Round(b, kinds, r) == [] <==> Longest(b, kinds) <= r
    decreases |kinds|
  {
    if kinds != [] {
      RoundEmpty(b, kinds[..|kinds| - 1], r);
    }
  }

  lemma {:induction false} RoundsEnough(b: Buckets, kinds: seq<string>, n: nat)
    requires Longest(b, kinds) <= n
    ensures Rounds(b, kinds, n) == Interleaved(b, kinds)
    decreases n
  {
    if Longest(b, kinds) < n {
      RoundsEnough(b, kinds, n - 1);
      RoundEmpty(b, kinds, n - 1);
    }
  }

  /** What has been selected after some full rounds and part of the next one. */
  function Level(b: Buckets, kinds: seq<string>, level: nat, cut: nat): seq<Row>
    requires cut <= |kinds|
  {
    Rounds(b, kinds, level) + Round(b, kinds[..cut], level)
  }

  lemma LevelPrefix(b: Buckets, kinds: seq<string>, level: nat, cut: nat)
    requires cut <= |kinds|
    ensures Level(b, kinds, level, cut) <= Interleaved(b, kinds)
  {
    var n := Max(level + 1, Longest(b, kinds));
    RoundPrefix(b, kinds, cut, level);
    assert Level(b, kinds, level, cut) <= Rounds(b, kinds, level + 1);
    RoundsPrefix(b, kinds, level + 1, n);
    RoundsEnough(b, kinds, n);
  }

  lemma LevelEnds(b: Buckets, kinds: seq<string>, level: nat)
    ensures Level(b, kinds, level, 0) == Rounds(b, kinds, level)
    ensures Level(b, kinds, level, |kinds|) == Rounds(b, kinds, level + 1)
  {
    assert kinds[..0] == [] && kinds[..|kinds|] == kinds;
  }

  lemma PrefixIsFirst(s: seq<Row>, full: seq<Row>, limit: nat)
    requires s <= full && |s| == Min(limit, |full|)
    ensures s == First(full, limit)
  {
  }

  // ----- water-filling -----

  function Of(rows: seq<Row>, kind: string): seq<Row> {
    if rows == [] then []
    else if rows[|rows| - 1].kind == kind then Of(rows[..|rows| - 1], kind) + [rows[|rows| - 1]]
    else Of(rows[..|rows| - 1], kind)
  }

  /** Every row sits in the bucket of its kind. */
  ghost predicate Bucketed(b: Buckets) {
    forall k, i | k in b && 0 <= i < |b[k]| :: b[k][i].kind == k
  }

  lemma {:induction false} OfJoin(a: seq<Row>, b: seq<Row>, kind: string)
    ensures Of(a + b, kind) == Of(a, kind) + Of(b, kind)
    decreases |b|
  {
    if b == [] {
      assert a + b == a;
    } else {
      OfJoin(a, b[..|b| - 1], kind);
      assert (a + b)[..|a + b| - 1] == a + b[..|b| - 1];
    }
  }

  lemma OfTurn(b: Buckets, kind: string, r: nat, k: string)
    requires Bucketed(b)
    ensures Of(Turn(b, kind, r), k) == if k == kind then Turn(b, kind, r) else []
  {
    if kind in b && r < |b[kind]| {
      assert Turn(b, kind, r)[..0] == [];
    }
  }

  lemma OfLongerRound(b: Buckets, init: seq<string>, last: string, r: nat, k: string)
    requires Bucketed(b) && last !in init
    requires Of(Round(b, init, r), k) == if k in init then Turn(b, k, r) else []
    ensures Of(Round(b, init + [last], r), k) == if k in init + [last] then Turn(b, k, r) else []
  {
    assert (init + [last])[..|init|] == init;
    OfJoin(Round(b, init, r), Turn(b, last, r), k);
    OfTurn(b, last, r, k);
  }

  lemma {:induction false} OfRound(b: Buckets, kinds: seq<string>, r: nat, k: string)
    requires Bucketed(b) && DistinctKinds(kinds)
    ensures Of(Round(b, kinds, r), k) == if k in kinds then Turn(b, k, r) else []
    decreases |kinds|
  {
    if kinds != [] {
      var init, last := kinds[..|kinds| - 1], kinds[|kinds| - 1];
      assert kinds == init + [last];
      OfRound(b, init, r, k);
      OfLongerRound(b, init, last, r, k);
    }
  }

  lemma FirstNext(s: seq<Row>, n: nat)
    ensures First(s, n) + (if n < |s| then [s[n]] else []) == First(s, n + 1)
  {
  }

  lemma OfPush(a: seq<Row>, r: seq<Row>, kind: string, bucket: seq<Row>, n: nat)
    requires Of(a, kind) == First(bucket, n) && Of(r, kind) == if n < |bucket| then [bucket[n]] else []
    ensures Of(a + r, kind) == First(bucket, n + 1)
  {
    OfJoin(a, r, kind);
    FirstNext(bucket, n);
  }

  lemma OfNextRound(b: Buckets, kinds: seq<string>, n: nat, k: string)
    requires k in b && Of(Rounds(b, kinds, n), k) == First(b[k], n)
    requires Of(Round(b, kinds, n), k) == Turn(b, k, n)
    ensures Of(Rounds(b, kinds, n + 1), k) == First(b[k], n + 1)
  {
    OfPush(Rounds(b, kinds, n), Round(b, kinds, n), k, b[k], n);
  }

  lemma {:induction false} OfRounds(b: Buckets, kinds: seq<string>, n: nat, k: string)
    requires Bucketed(b) && DistinctKinds(kinds) && k in kinds && k in b
    ensures Of(Rounds(b, kinds, n), k) == First(b[k], n)
    decreases n
  {
    if n > 0 {
      var m: nat := n - 1;
      OfRounds(b, kinds, m, k);
      OfRound(b, kinds, m, k);
      OfNextRound(b, kinds, m, k);
      assert n == m + 1;
    }
  }

  /** Each kind contributes a prefix of its bucket: `level` rows, one more before the cut. */
  lemma LevelIsWaterFilling(b: Buckets, kinds: seq<string>, level: nat, cut: nat, j: nat)
    requires Bucketed(b) && DistinctKinds(kinds) && cut <= |kinds| && j < |kinds| && kinds[j] in b
    ensures Of(Level(b, kinds, level, cut), kinds[j]) == First(b[kinds[j]], if j < cut then level + 1 else level)
  {
    var k := kinds[j];
    OfRounds(b, kinds, level, k);
    OfRound(b, kinds[..cut], level, k);
    OfJoin(Rounds(b, kinds, level), Round(b, kinds[..cut], level), k);
    FirstNext(b[k], level);
    if j < cut {
      assert kinds[..cut][j] == k;
    } else {
      assert k !in kinds[..cut];
      assert First(b[k], level) + [] == First(b[k], level);
    }
  }

  // ----- how much is selected -----

  function Filled(b: Buckets, kinds: seq<string>, n: nat): nat {
    if kinds == [] then 0 else Filled(b, kinds[..|kinds| - 1], n) + Min(n, Size(b, kinds[|kinds| - 1]))
  }

  lemma {:induction false} RoundFills(b: Buckets, kinds: seq<string>, r: nat)
    ensures Filled(b, kinds, r) + |Round(b, kinds, r)| == Filled(b, kinds, r + 1)
    decreases |kinds|
  {
    if kinds != [] {
      RoundFills(b, kinds[..|kinds| - 1], r);
    }
  }

  lemma {:induction false} RoundsFill(b: Buckets, kinds: seq<string>, n: nat)
    ensures |Rounds(b, kinds, n)| == Filled(b, kinds, n)
    decreases n
  {
    if n > 0 {
      RoundsFill(b, kinds, n - 1);
      RoundFills(b, kinds, n - 1);
    } else {
      NothingFilled(b, kinds);
    }
  }

  lemma {:induction false} NothingFilled(b: Buckets, kinds: seq<string>)
    ensures Filled(b, kinds, 0) == 0
    decreases |kinds|
  {
    if kinds != [] {
      NothingFilled(b, kinds[..|kinds| - 1]);
    }
  }

  lemma {:induction false} AllFilled(b: Buckets, kinds: seq<string>, n: nat)
    requires Longest(b, kinds) <= n
    ensures Filled(b, kinds, n) == Total(b, kinds)
    decreases |kinds|
  {
    if kinds != [] {
      AllFilled(b, kinds[..|kinds| - 1], n);
    }
  }

  /** No row is lost or duplicated: the selection has min(limit, number of rows) rows. */
  lemma RoundRobinLength(b: Buckets, kinds: seq<string>, limit: nat)
    ensures |RoundRobin(b, kinds, limit)| == Min(limit, Total(b, kinds))
  {
    RoundsFill(b, kinds, Longest(b, kinds));
    AllFilled(b, kinds, Longest(b, kinds));
  }

  // ----- cutting the buckets first -----

  function CutTo(b: Buckets, limit: nat): Buckets { map k | k in b :: First(b[k], limit) }

  lemma {:induction false} CutRound(b: Buckets, kinds: seq<string>, limit: nat, r: nat)
    requires r < limit
    ensures Round(CutTo(b, limit), kinds, r) == Round(b, kinds, r)
    decreases |kinds|
  {
    if kinds != [] {
      CutRound(b, kinds[..|kinds| - 1], limit, r);
    }
  }

  lemma {:induction false} CutRounds(b: Buckets, kinds: seq<string>, limit: nat, n: nat)
    requires n <= limit
    ensures Rounds(CutTo(b, limit), kinds, n) == Rounds(b, kinds, n)
    decreases n
  {
    if n > 0 {
      CutRounds(b, kinds, limit, n - 1);
      CutRound(b, kinds, limit, n - 1);
    }
  }

  lemma {:induction false} CutLongest(b: Buckets, kinds: seq<string>, limit: nat)
    ensures Longest(CutTo(b, limit), kinds) == Min(limit, Longest(b, kinds))
    decreases |kinds|
  {
    if kinds != [] {
      CutLongest(b, kinds[..|kinds| - 1], limit);
    }
  }

  lemma {:induction false} RoundsGrow(b: Buckets, kinds: seq<string>, n: nat)
    requires n <= Longest(b, kinds)
    ensures |Rounds(b, kinds, n)| >= n
    decreases n
  {
    if n > 0 {
      var m: nat := n - 1;
      RoundsGrow(b, kinds, m);
      RoundEmpty(b, kinds, m);
      assert |Rounds(b, kinds, n)| == |Rounds(b, kinds, m)| + |Round(b, kinds, m)|;
    }
  }

  /** The per-kind limit of the SQL query loses nothing: cutting every bucket first selects the same rows. */
  lemma CutFirstIsHarmless(b: Buckets, kinds: seq<string>, limit: nat)
    ensures RoundRobin(CutTo(b, limit), kinds, limit) == RoundRobin(b, kinds, limit)
  {
    var n := Longest(b, kinds);
    CutLongest(b, kinds, limit);
    CutRounds(b, kinds, limit, Min(limit, n));
    RoundsPrefix(b, kinds, Min(limit, n), n);
    RoundsGrow(b, kinds, Min(limit, n));
  }

  // ----- the loops -----

  method Select(b: Buckets, kinds: seq<string>, limit: nat)
    returns (balanced: seq<Row>, ghost level: nat, ghost cut: nat)
    requires DistinctKinds(kinds) && forall k | k in kinds :: k in b
    ensures balanced == RoundRobin(b, kinds, limit)
    ensures cut <= |kinds| && balanced == Level(b, kinds, level, cut)
    ensures Bucketed(b) ==>
              forall j | 0 <= j < |kinds| ::
                Of(balanced, kinds[j]) == First(b[kinds[j]], if j < cut then level + 1 else level)
  {
    balanced, level, cut := SelectLoop(b, kinds, limit);
    if Bucketed(b) {
      forall j | 0 <= j < |kinds|
        ensures Of(balanced, kinds[j]) == First(b[kinds[j]], if j < cut then level + 1 else level)
      {
        assert kinds[j] in kinds;
        LevelIsWaterFilling(b, kinds, level, cut, j);
      }
    }
  }

  /** How far the selection has come in each bucket. */
  ghost predicate At(b: Buckets, kinds: seq<string>, positions: map<string, nat>, level: nat, cut: nat) {
    && (forall k | k in kinds :: k in b && k in positions)
    && forall j | 0 <= j < |kinds| :: positions[kinds[j]] == Min(if j < cut then level + 1 else level, |b[kinds[j]]|)
  }

  lemma AtNext(b: Buckets, kinds: seq<string>, positions: map<string, nat>, level: nat, cut: nat, next: map<string, nat>)
    requires DistinctKinds(kinds) && cut < |kinds| && At(b, kinds, positions, level, cut)
    requires var k := kinds[cut];
             next == if positions[k] < |b[k]| then positions[k := positions[k] + 1] else positions
    ensures At(b, kinds, next, level, cut + 1)
  {
  }

  lemma AtEnd(b: Buckets, kinds: seq<string>, positions: map<string, nat>, level: nat)
    requires At(b, kinds, positions, level, |kinds|)
    ensures At(b, kinds, positions, level + 1, 0)
  {
  }

  lemma AtHere(b: Buckets, kinds: seq<string>, positions: map<string, nat>, level: nat, cut: nat)
    requires cut < |kinds| && At(b, kinds, positions, level, cut)
    ensures var k := kinds[cut];
            && k in b && k in positions
            && Turn(b, k, level) == if positions[k] < |b[k]| then [b[k][positions[k]]] else []
  {
    assert kinds[cut] in kinds;
  }

  lemma RoundNext(b: Buckets, kinds: seq<string>, cut: nat, level: nat)
    requires cut < |kinds|
    ensures Round(b, kinds[..cut + 1], level) == Round(b, kinds[..cut], level) + Turn(b, kinds[cut], level)
  {
    assert kinds[..cut + 1][..cut] == kinds[..cut];
  }

  lemma RoundGrows(b: Buckets, kinds: seq<string>, i: nat, level: nat, before: seq<Row>, balanced: seq<Row>, taken: seq<Row>)
    requires i < |kinds| && balanced == before + Round(b, kinds[..i], level) && taken == Turn(b, kinds[i], level)
    ensures balanced + taken == before + Round(b, kinds[..i + 1], level)
    ensures taken == [] ==> balanced == before + Round(b, kinds[..i + 1], level)
    ensures |taken| <= 1
  {
    RoundNext(b, kinds, i, level);
    assert before + (Round(b, kinds[..i], level) + taken) == balanced + taken;
    assert taken == [] ==> balanced + taken == balanced;
  }

  /** One kind's turn: its next row, if it has one. */
  method TakeTurn(b: Buckets, kinds: seq<string>, i: nat, places: map<string, nat>, ghost level: nat)
    returns (taken: seq<Row>, positions: map<string, nat>)
    requires DistinctKinds(kinds) && i < |kinds| && At(b, kinds, places, level, i)
    ensures taken == Turn(b, kinds[i], level) && At(b, kinds, positions, level, i + 1)
  {
    var kind := kinds[i];
    AtHere(b, kinds, places, level, i);
    var position := places[kind];
    taken, positions := [], places;
    if position < |b[kind]| {
      taken := [b[kind][position]];
      positions := places[kind := position + 1];
    }
    AtNext(b, kinds, places, level, i, positions);
  }

  /** One pass over the kinds; it stops early when the limit is reached. */
  method SelectRound(b: Buckets, kinds: seq<string>, limit: nat, before: seq<Row>, places: map<string, nat>, ghost level: nat)
    returns (balanced: seq<Row>, positions: map<string, nat>, added: bool, ghost cut: nat)
    requires DistinctKinds(kinds) && At(b, kinds, places, level, 0) && |before| < limit
    ensures cut <= |kinds| && balanced == before + Round(b, kinds[..cut], level) && |balanced| <= limit
    ensures |balanced| < limit ==> cut == |kinds| && At(b, kinds, positions, level + 1, 0)
    ensures added == (|balanced| > |before|)
  {
    balanced, positions, added, cut := before, places, false, 0;
    for i := 0 to |kinds|
      invariant cut == i && |balanced| < limit && balanced == before + Round(b, kinds[..i], level)
      invariant added == (|balanced| > |before|) && At(b, kinds, positions, level, i)
    {
      var taken: seq<Row>;
      taken, positions := TakeTurn(b, kinds, i, positions, level);
      RoundGrows(b, kinds, i, level, before, balanced, taken);
      cut := i + 1;
      if taken != [] {
        balanced := balanced + taken;
        added := true;
        if |balanced| >= limit {
          return;
        }
      }
    }
    AtEnd(b, kinds, positions, level);
  }

  lemma NothingAdded(b: Buckets, kinds: seq<string>, level: nat, before: seq<Row>, balanced: seq<Row>)
    requires before == Rounds(b, kinds, level) && balanced == before + Round(b, kinds[..|kinds|], level)
    requires |balanced| <= |before|
    ensures balanced == Interleaved(b, kinds)
  {
    assert kinds[..|kinds|] == kinds;
    RoundEmpty(b, kinds, level);
    RoundsEnough(b, kinds, level);
  }

  lemma AtStart(b: Buckets, kinds: seq<string>, positions: map<string, nat>)
    requires forall k | k in kinds :: k in b && k in positions && positions[k] == 0
    ensures At(b, kinds, positions, 0, 0)
  {
  }

  lemma SelectionEnds(b: Buckets, kinds: seq<string>, limit: nat, level: nat, cut: nat, balanced: seq<Row>)
    requires cut <= |kinds| && balanced == Level(b, kinds, level, cut) && |balanced| <= limit
    requires |balanced| == limit || balanced == Interleaved(b, kinds)
    ensures balanced == RoundRobin(b, kinds, limit)
  {
    LevelPrefix(b, kinds, level, cut);
    PrefixIsFirst(balanced, Interleaved(b, kinds), limit);
  }

  method SelectLoop(b: Buckets, kinds: seq<string>, limit: nat)
    returns (balanced: seq<Row>, ghost level: nat, ghost cut: nat)
    requires DistinctKinds(kinds) && forall k | k in kinds :: k in b
    ensures balanced == RoundRobin(b, kinds, limit)
    ensures cut <= |kinds| && balanced == Level(b, kinds, level, cut)
  {
    var positions: map<string, nat> := map k | k in kinds :: 0;
    balanced, level, cut := [], 0, 0;
    var added := true;
    LevelEnds(b, kinds, 0);
    AtStart(b, kinds, positions);
    while |balanced| < limit && added
      invariant |balanced| <= limit && cut <= |kinds| && balanced == Level(b, kinds, level, cut)
      invariant |balanced| < limit && added ==> cut == 0 && At(b, kinds, positions, level, 0)
      invariant !added ==> balanced == Interleaved(b, kinds)
      decreases limit - |balanced|, added
    {
      ghost var before := balanced;
      LevelEnds(b, kinds, level);
      balanced, positions, added, cut := SelectRound(b, kinds, limit, balanced, positions, level);
      if !added {
        NothingAdded(b, kinds, level, before, balanced);
      } else if |balanced| < limit {
        level, cut := level + 1, 0;
        LevelEnds(b, kinds, level);
      }
    }
    SelectionEnds(b, kinds, limit, level, cut, balanced);
  }

  // ----- grouping rows by kind -----

  function KindsOf(rows: seq<Row>): set<string> { set i | 0 <= i < |rows| :: rows[i].kind }

  function Grouped(rows: seq<Row>): Buckets { map k | k in KindsOf(rows) :: Of(rows, k) }

  /** The kinds in the order in which they first appear. */
  function FirstSeen(rows: seq<Row>): seq<string> {
    if rows == [] then []
    else
      var before := FirstSeen(rows[..|rows| - 1]);
      if rows[|rows| - 1].kind in before then before else before + [rows[|rows| - 1].kind]
  }

  lemma {:induction false} FirstSeenKinds(rows: seq<Row>)
    ensures forall k :: k in FirstSeen(rows) <==> k in KindsOf(rows)
    ensures DistinctKinds(FirstSeen(rows))
    decreases |rows|
  {
    if rows != [] {
      var init, last := rows[..|rows| - 1], rows[|rows| - 1];
      FirstSeenKinds(init);
      KindsOfNext(init, last);
      assert rows == init + [last];
    }
  }

  lemma KindsOfNext(rows: seq<Row>, row: Row)
    ensures KindsOf(rows + [row]) == KindsOf(rows) + {row.kind}
  {
    assert (rows + [row])[|rows|] == row;
    assert forall i | 0 <= i < |rows| :: (rows + [row])[i] == rows[i];
  }

  lemma {:induction false} OfNone(rows: seq<Row>, kind: string)
    requires kind !in KindsOf(rows)
    ensures Of(rows, kind) == []
    decreases |rows|
  {
    if rows != [] {
      KindsOfNext(rows[..|rows| - 1], rows[|rows| - 1]);
      assert rows == rows[..|rows| - 1] + [rows[|rows| - 1]];
      OfNone(rows[..|rows| - 1], kind);
    }
  }

  lemma {:induction false} OfKind(rows: seq<Row>, kind: string)
    ensures forall i | 0 <= i < |Of(rows, kind)| :: Of(rows, kind)[i].kind == kind
    ensures kind in KindsOf(rows) ==> Of(rows, kind) != []
    decreases |rows|
  {
    if rows != [] {
      var init, last := rows[..|rows| - 1], rows[|rows| - 1];
      assert rows == init + [last];
      KindsOfNext(init, last);
      OfKind(init, kind);
    }
  }

  lemma GroupedBucketed(rows: seq<Row>)
    ensures Bucketed(Grouped(rows))
    ensures forall k | k in Grouped(rows) :: Grouped(rows)[k] != []
  {
    forall k | k in Grouped(rows)
      ensures Grouped(rows)[k] != [] && forall i | 0 <= i < |Grouped(rows)[k]| :: Grouped(rows)[k][i].kind == k
    {
      OfKind(rows, k);
    }
  }

  lemma GroupedNext(rows: seq<Row>, row: Row)
    ensures Grouped(rows + [row]) == Grouped(rows)[row.kind := Of(rows, row.kind) + [row]]
  {
    KindsOfNext(rows, row);
    assert (rows + [row])[..|rows|] == rows;
  }

  lemma FirstSeenNext(rows: seq<Row>, row: Row)
    ensures FirstSeen(rows + [row]) == if row.kind in KindsOf(rows) then FirstSeen(rows) else FirstSeen(rows) + [row.kind]
  {
    assert (rows + [row])[..|rows|] == rows;
    FirstSeenKinds(rows);
  }

  method Group(rows: seq<Row>) returns (buckets: Buckets, order: seq<string>)
    ensures buckets == Grouped(rows) && order == FirstSeen(rows)
  {
    buckets, order := map[], [];
    for i := 0 to |rows|
      invariant buckets == Grouped(rows[..i]) && order == FirstSeen(rows[..i])
    {
      buckets, order := Place(rows[..i], rows[i], buckets, order);
      assert rows[..i + 1] == rows[..i] + [rows[i]];
    }
    assert rows[..|rows|] == rows;
  }

  /** Put one row into its bucket, opening the bucket when it is the first of its kind. */
  method Place(ghost rows: seq<Row>, row: Row, was: Buckets, seen: seq<string>) returns (buckets: Buckets, order: seq<string>)
    requires was == Grouped(rows) && seen == FirstSeen(rows)
    ensures buckets == Grouped(rows + [row]) && order == FirstSeen(rows + [row])
  {
    order := seen;
    var bucket := [];
    GroupedNext(rows, row);
    FirstSeenNext(rows, row);
    if row.kind in was {
      bucket := was[row.kind];
    } else {
      OfNone(rows, row.kind);
      order := order + [row.kind];
    }
    buckets := was[row.kind := bucket + [row]];
  }

  // ----- the two callers -----

  const SNAPSHOT_LIMIT: nat := 32

  /** The public queue snapshot: a short list is left as it is. */
  method Snapshot(safe: seq<Row>) returns (shown: seq<Row>)
    ensures |safe| <= SNAPSHOT_LIMIT ==> shown == safe
    ensures |safe| > SNAPSHOT_LIMIT ==> shown == RoundRobin(Grouped(safe), FirstSeen(safe), SNAPSHOT_LIMIT)
  {
    if |safe| <= SNAPSHOT_LIMIT {
      return safe;
    }
    var buckets, kindOrder := Group(safe);
    FirstSeenKinds(safe);
    ghost var level, cut;
    shown, level, cut := Select(buckets, kindOrder, SNAPSHOT_LIMIT);
  }

  /** WHERE kind_rank <= limit: the first rows of each kind, in query order. */
  function Ranked(rows: seq<Row>, limit: nat): seq<Row> {
    if rows == [] then []
    else if |Of(rows[..|rows| - 1], rows[|rows| - 1].kind)| < limit
    then Ranked(rows[..|rows| - 1], limit) + [rows[|rows| - 1]]
    else Ranked(rows[..|rows| - 1], limit)
  }

  lemma {:induction false} RankedCuts(rows: seq<Row>, limit: nat, kind: string)
    ensures Of(Ranked(rows, limit), kind) == First(Of(rows, kind), limit)
    decreases |rows|
  {
    if rows != [] {
      var init, last := rows[..|rows| - 1], rows[|rows| - 1];
      RankedCuts(init, limit, kind);
      assert (Ranked(init, limit) + [last])[..|Ranked(init, limit)|] == Ranked(init, limit);
    }
  }

  lemma {:induction false} RankedKinds(rows: seq<Row>, limit: nat)
    requires limit >= 1
    ensures KindsOf(Ranked(rows, limit)) == KindsOf(rows)
    decreases |rows|
  {
    if rows != [] {
      var init, last := rows[..|rows| - 1], rows[|rows| - 1];
      assert rows == init + [last];
      RankedKinds(init, limit);
      KindsOfNext(init, last);
      KindsOfNext(Ranked(init, limit), last);
      if |Of(init, last.kind)| >= limit && last.kind !in KindsOf(init) {
        OfNone(init, last.kind);
      }
    }
  }

  lemma RankedGroups(rows: seq<Row>, limit: nat)
    requires limit >= 1
    ensures Grouped(Ranked(rows, limit)) == CutTo(Grouped(rows), limit)
  {
    RankedKinds(rows, limit);
    forall k | k in KindsOf(rows) ensures Grouped(Ranked(rows, limit))[k] == CutTo(Grouped(rows), limit)[k] {
      RankedCuts(rows, limit, k);
    }
  }

  /** Most recently updated kind first, then by name. */
  predicate Precedes(b: Buckets, x: string, y: string)
    requires x in b && y in b && b[x] != [] && b[y] != []
  {
    b[x][0].updated > b[y][0].updated || (b[x][0].updated == b[y][0].updated && Less(x, y))
  }

  ghost predicate KindOrder(b: Buckets, kinds: seq<string>) {
    && (forall k | k in b :: b[k] != [])
    && (forall k :: k in kinds <==> k in b)
    && (forall i, j | 0 <= i < j < |kinds| :: kinds[i] in b && kinds[j] in b && Precedes(b, kinds[i], kinds[j]))
  }

  lemma KindOrderDistinct(b: Buckets, kinds: seq<string>)
    requires KindOrder(b, kinds)
    ensures DistinctKinds(kinds)
  {
    forall i, j | 0 <= i < j < |kinds| ensures kinds[i] != kinds[j] {
      if kinds[i] == kinds[j] {
        LessAsymmetric(kinds[i], kinds[j]);
      }
    }
  }

  /** There is only one such order, so the selection is determined by the rows. */
  lemma {:induction false} OneKindOrder(b: Buckets, x: seq<string>, y: seq<string>)
    requires KindOrder(b, x) && KindOrder(b, y)
    ensures x == y
  {
    assert InOrder(b, x) && InOrder(b, y);
    SameOrder(b, x, y, b.Keys);
  }

  lemma {:induction false} SameOrder(b: Buckets, x: seq<string>, y: seq<string>, keys: set<string>)
    requires forall k | k in keys :: k in b && b[k] != []
    requires (forall k :: k in x <==> k in keys) && (forall k :: k in y <==> k in keys)
    requires InOrder(b, x)
    requires InOrder(b, y)
    ensures x == y
    decreases |x|
  {
    if x == [] {
      HasMember(y);
    } else {
      assert x[0] in x && x[0] in y;
      assert y[0] in y && y[0] in x;
      SameHead(b, x, y);
      forall k ensures k in x[1..] <==> k in keys - {x[0]} {
        TailKeys(b, x, k);
      }
      forall k ensures k in y[1..] <==> k in keys - {y[0]} {
        TailKeys(b, y, k);
      }
      SameOrder(b, x[1..], y[1..], keys - {x[0]});
      assert x == [x[0]] + x[1..] && y == [y[0]] + y[1..];
    }
  }

  lemma HasMember(s: seq<string>)
    ensures s != [] ==> exists k :: k in s
  {
    if s != [] {
      assert s[0] in s;
    }
  }

  ghost predicate InOrder(b: Buckets, x: seq<string>) {
    && (forall i | 0 <= i < |x| :: x[i] in b && b[x[i]] != [])
    && forall i, j | 0 <= i < j < |x| :: Precedes(b, x[i], x[j])
  }

  lemma NotBeforeItself(b: Buckets, k: string, l: string)
    requires k in b && l in b && b[k] != [] && b[l] != [] && Precedes(b, k, l)
    ensures k != l && !Precedes(b, l, k)
  {
    if k == l {
      LessAsymmetric(k, l);
    }
    if Less(k, l) {
      LessAsymmetric(k, l);
    }
  }

  lemma SameHead(b: Buckets, x: seq<string>, y: seq<string>)
    requires x != [] && y != [] && y[0] in x && x[0] in y
    requires forall k | k in x || k in y :: k in b && b[k] != []
    requires InOrder(b, x)
    requires InOrder(b, y)
    ensures x[0] == y[0]
  {
    var i :| 0 <= i < |x| && x[i] == y[0];
    var j :| 0 <= j < |y| && y[j] == x[0];
    if i > 0 && j > 0 {
      assert Precedes(b, x[0], y[0]) && Precedes(b, y[0], x[0]);
      NotBeforeItself(b, x[0], y[0]);
    }
  }

  lemma TailKeys(b: Buckets, x: seq<string>, k: string)
    requires x != [] && forall k | k in x :: k in b && b[k] != []
    requires InOrder(b, x)
    ensures k in x[1..] <==> k in x && k != x[0]
  {
    if k in x[1..] {
      var i :| 0 <= i < |x[1..]| && x[1..][i] == k;
      assert x[i + 1] == k;
      NotBeforeItself(b, x[0], x[i + 1]);
    }
    if k in x && k != x[0] {
      var i :| 0 <= i < |x| && x[i] == k;
      assert x[1..][i - 1] == k;
    }
  }

  lemma PrecedesTotal(b: Buckets, x: string, y: string)
    requires x in b && y in b && b[x] != [] && b[y] != [] && x != y
    ensures Precedes(b, x, y) || Precedes(b, y, x)
  {
    LessTotal(x, y);
  }

  lemma PrecedesTransitive(b: Buckets, x: string, y: string, z: string)
    requires x in b && y in b && z in b && b[x] != [] && b[y] != [] && b[z] != []
    requires Precedes(b, x, y) && Precedes(b, y, z)
    ensures Precedes(b, x, z)
  {
    if Less(x, y) && Less(y, z) {
      LessTransitive(x, y, z);
    }
  }

  /** The kind that precedes all others. */
  method Foremost(b: Buckets, kinds: set<string>) returns (first: string)
    requires kinds != {} && kinds <= b.Keys && forall k | k in b :: b[k] != []
    ensures first in kinds && forall k | k in kinds && k != first :: Precedes(b, first, k)
  {
    first :| first in kinds;
    var rest := kinds - {first};
    while rest != {}
      invariant rest <= kinds && first in kinds && first !in rest
      invariant forall k | k in kinds && k !in rest && k != first :: Precedes(b, first, k)
      decreases rest
    {
      var k :| k in rest;
      rest := rest - {k};
      if Precedes(b, k, first) {
        forall o | o in kinds && o !in rest && o != k ensures Precedes(b, k, o) {
          if o != first {
            PrecedesTransitive(b, k, first, o);
          }
        }
        first := k;
      } else {
        PrecedesTotal(b, first, k);
      }
    }
  }

  method SortKinds(b: Buckets) returns (kinds: seq<string>)
    requires forall k | k in b :: b[k] != []
    ensures KindOrder(b, kinds)
  {
    kinds := [];
    var rest := b.Keys;
    while rest != {}
      invariant rest <= b.Keys
      invariant forall k :: k in b <==> k in rest || k in kinds
      invariant forall i, j | 0 <= i < j < |kinds| :: kinds[i] in b && kinds[j] in b && Precedes(b, kinds[i], kinds[j])
      invariant forall i, k | 0 <= i < |kinds| && k in rest :: kinds[i] in b && Precedes(b, kinds[i], k)
      decreases rest
    {
      var first := Foremost(b, rest);
      kinds := kinds + [first];
      rest := rest - {first};
    }
  }

  /** The order of the kinds is the same for cut and uncut buckets. */
  lemma CutKeepsKindOrder(b: Buckets, kinds: seq<string>, limit: nat)
    requires limit >= 1 && KindOrder(CutTo(b, limit), kinds)
    ensures KindOrder(b, kinds)
  {
    assert forall k | k in b :: CutTo(b, limit)[k] != [] && CutTo(b, limit)[k][0] == b[k][0];
    forall i, j | 0 <= i < j < |kinds| ensures kinds[i] in b && kinds[j] in b && Precedes(b, kinds[i], kinds[j]) {
      assert Precedes(CutTo(b, limit), kinds[i], kinds[j]);
    }
  }

  /**
   * task_activity up to the choice of rows. `rows` is the tasks table in query order. The result is
   * the round-robin selection over all rows of each kind, although the query cuts every kind first.
   */
  method TaskActivity(rows: seq<Row>, limit: int) returns (balanced: seq<Row>)
    ensures exists kinds ::
              KindOrder(Grouped(rows), kinds) && balanced == RoundRobin(Grouped(rows), kinds, Max(1, Min(limit, 100)))
  {
    var n := Max(1, Min(limit, 100));
    var buckets, _ := Group(Ranked(rows, n));
    RankedGroups(rows, n);
    GroupedBucketed(Ranked(rows, n));
    var kindOrder := SortKinds(buckets);
    CutKeepsKindOrder(Grouped(rows), kindOrder, n);
    KindOrderDistinct(buckets, kindOrder);
    ghost var level, cut;
    balanced, level, cut := Select(buckets, kindOrder, n);
    CutFirstIsHarmless(Grouped(rows), kindOrder, n);
  }
}
