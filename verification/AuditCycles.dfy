// Coverage of the resumable audit: chained passes over a changing tree give every
// file that stays its turn exactly once per cycle.
module AuditCycles {
  import opened Basics
  import opened Text
  import opened Audit

  /** A recorded pass: the listing it saw, where it was told to start, and how it ended. */
  datatype Pass = Pass(files: seq<File>, startAfter: string, turns: nat, nextCursor: string)

  function Start(cfg: Setup, p: Pass): nat { StartIndex(cfg, p.files, p.startAfter) }

  function Stop(cfg: Setup, p: Pass): nat { Start(cfg, p) + p.turns }

  predicate Plain(path: string) { path != "" && '\\' !in path }

  ghost predicate Ascending(cfg: Setup, files: seq<File>) {
    forall i, j | 0 <= i < j < |files| :: Less(Key(cfg, files[i].path), Key(cfg, files[j].path))
  }

  /** Listings in case-folded order, with distinct keys and no backslash in a name. */
  ghost predicate Listed(cfg: Setup, files: seq<File>) {
    Ascending(cfg, files) && forall i | 0 <= i < |files| :: Plain(files[i].path)
  }

  /** What every pass of the auditor guarantees about its cursor. */
  ghost predicate Sound(cfg: Setup, p: Pass) {
    && Stop(cfg, p) <= |p.files|
    && (p.turns == 0 ==> p.files == [])
    && (if p.nextCursor == "" then Stop(cfg, p) == |p.files|
        else p.turns > 0 && p.nextCursor == p.files[Stop(cfg, p) - 1].path)
  }

  lemma ReportIsSound(cfg: Setup, files: seq<File>, startAfter: string, turns: nat, r: Report)
    requires cfg.Valid() && Listed(cfg, files) && Reports(cfg, files, startAfter, turns, r)
    ensures Sound(cfg, Pass(files, startAfter, turns, r.nextCursor))
  {
    var start := StartIndex(cfg, files, startAfter);
    var window := Window(cfg, files, start);
    assert files != [] ==> start < |files|;
    if turns > 0 {
      var last := start + turns - 1;
      assert window[turns - 1] == files[last] && Plain(files[last].path);
    }
  }

  // ----- cursors and places -----

  lemma {:induction false} LeadingSplits(cfg: Setup, files: seq<File>, cursor: string, j: nat)
    requires Ascending(cfg, files) && j < |files|
    ensures j < Leading(cfg, files, cursor) <==> Reached(cfg, files[j].path, cursor)
    decreases |files|
  {
    if j > 0 {
      LeadingSplits(cfg, files[1..], cursor, j - 1);
      if !Reached(cfg, files[0].path, cursor) {
        LessTransitive(Key(cfg, cursor), Key(cfg, files[0].path), Key(cfg, files[j].path));
      }
    }
  }

  lemma ReachedByPlace(cfg: Setup, files: seq<File>, i: nat, j: nat)
    requires Ascending(cfg, files) && i < |files| && j < |files|
    ensures Reached(cfg, files[j].path, files[i].path) <==> j <= i
  {
    if j <= i {
      if Less(Key(cfg, files[i].path), Key(cfg, files[j].path)) {
        LessAsymmetric(Key(cfg, files[i].path), Key(cfg, files[j].path));
      }
    }
  }

  lemma PlainSlash(path: string)
    requires '\\' !in path
    ensures Slash(path) == path
  {
  }

  ghost predicate At(files: seq<File>, path: string, j: nat) { j < |files| && files[j].path == path }

  ghost predicate Holds(files: seq<File>, path: string) { exists j: nat :: At(files, path, j) }

  lemma OnePlace(cfg: Setup, files: seq<File>, path: string, i: nat, j: nat)
    requires Ascending(cfg, files) && At(files, path, i) && At(files, path, j)
    ensures i == j
  {
    if i < j {
      LessAsymmetric(Key(cfg, files[i].path), Key(cfg, files[j].path));
    } else if j < i {
      LessAsymmetric(Key(cfg, files[j].path), Key(cfg, files[i].path));
    }
  }

  /** The file had its turn in this pass. */
  ghost predicate Turned(cfg: Setup, p: Pass, path: string) {
    exists j: nat :: At(p.files, path, j) && Start(cfg, p) <= j < Stop(cfg, p)
  }

  ghost predicate Behind(cfg: Setup, path: string, cursor: string) { cursor == "" || Reached(cfg, path, cursor) }

  /** After a pass a listed file is behind the new cursor exactly when the pass got past its place. */
  lemma PassedBy(cfg: Setup, p: Pass, path: string, j: nat)
    requires Listed(cfg, p.files) && Sound(cfg, p) && At(p.files, path, j)
    ensures Behind(cfg, path, p.nextCursor) <==> j < Stop(cfg, p)
    ensures Turned(cfg, p, path) <==> Start(cfg, p) <= j < Stop(cfg, p)
  {
    if p.nextCursor != "" {
      ReachedByPlace(cfg, p.files, Stop(cfg, p) - 1, j);
    }
    if Turned(cfg, p, path) {
      var i: nat :| At(p.files, path, i) && Start(cfg, p) <= i < Stop(cfg, p);
      OnePlace(cfg, p.files, path, i, j);
    }
  }

  /** A pass that resumes starts right after the files behind its cursor. */
  lemma ResumesBehind(cfg: Setup, p: Pass, path: string, j: nat)
    requires Listed(cfg, p.files) && At(p.files, path, j) && '\\' !in p.startAfter
    requires !Anew(cfg, p.files, p.startAfter)
    ensures Reached(cfg, path, p.startAfter) <==> j < Start(cfg, p)
  {
    PlainSlash(p.startAfter);
    LeadingSplits(cfg, p.files, p.startAfter, j);
  }

  // ----- cycles -----

  /** Passes recorded one after the other: each starts at the cursor the one before left. */
  ghost predicate Chained(passes: seq<Pass>) {
    forall i | 0 < i < |passes| :: passes[i].startAfter == passes[i - 1].nextCursor
  }

  /** Chained passes of which exactly the first begins anew. */
  ghost predicate Cycle(cfg: Setup, passes: seq<Pass>) {
    && passes != [] && Chained(passes)
    && (forall i | 0 <= i < |passes| :: Listed(cfg, passes[i].files) && Sound(cfg, passes[i]))
    && (forall i | 0 <= i < |passes| :: Anew(cfg, passes[i].files, passes[i].startAfter) <==> i == 0)
  }

  ghost function Turns(cfg: Setup, passes: seq<Pass>, path: string): nat {
    if passes == [] then 0
    else Turns(cfg, passes[..|passes| - 1], path) + if Turned(cfg, passes[|passes| - 1], path) then 1 else 0
  }

  lemma FirstPass(cfg: Setup, p: Pass, path: string)
    requires Listed(cfg, p.files) && Sound(cfg, p) && Anew(cfg, p.files, p.startAfter) && Holds(p.files, path)
    ensures Turned(cfg, p, path) <==> Behind(cfg, path, p.nextCursor)
  {
    var j: nat :| At(p.files, path, j);
    PassedBy(cfg, p, path, j);
  }

  lemma LaterPass(cfg: Setup, p: Pass, path: string)
    requires Listed(cfg, p.files) && Sound(cfg, p) && !Anew(cfg, p.files, p.startAfter) && Holds(p.files, path)
    requires '\\' !in p.startAfter
    ensures Reached(cfg, path, p.startAfter) ==> !Turned(cfg, p, path) && Behind(cfg, path, p.nextCursor)
    ensures !Reached(cfg, path, p.startAfter) ==> (Turned(cfg, p, path) <==> Behind(cfg, path, p.nextCursor))
  {
    var j: nat :| At(p.files, path, j);
    PassedBy(cfg, p, path, j);
    ResumesBehind(cfg, p, path, j);
  }

  /** Within a cycle a file has had one turn exactly when it is behind the cursor, and none before. */
  lemma {:induction false} TurnsSoFar(cfg: Setup, passes: seq<Pass>, path: string)
    requires Cycle(cfg, passes) && forall i | 0 <= i < |passes| :: Holds(passes[i].files, path)
    ensures Turns(cfg, passes, path) == if Behind(cfg, path, passes[|passes| - 1].nextCursor) then 1 else 0
    decreases |passes|
  {
    var init, last := passes[..|passes| - 1], passes[|passes| - 1];
    assert Holds(last.files, path);
    if init == [] {
      FirstPass(cfg, last, path);
      assert Turns(cfg, init, path) == 0;
    } else {
      var before := init[|init| - 1];
      assert last.startAfter == before.nextCursor && Sound(cfg, before) && Listed(cfg, before.files);
      TurnsSoFar(cfg, init, path);
      LaterPass(cfg, last, path);
    }
  }

  /**
   * Main result: a file present in every listing of a cycle, and in the listing with which the next
   * cycle begins, has its turn exactly once, whatever files come and go and wherever a pass stops.
   */
  lemma {:induction false} OneTurnPerCycle(cfg: Setup, passes: seq<Pass>, after: seq<File>, path: string)
    requires Cycle(cfg, passes) && forall i | 0 <= i < |passes| :: Holds(passes[i].files, path)
    requires Listed(cfg, after) && Holds(after, path) && Anew(cfg, after, passes[|passes| - 1].nextCursor)
    ensures Turns(cfg, passes, path) == 1
  {
    var last := passes[|passes| - 1];
    assert Sound(cfg, last) && Listed(cfg, last.files);
    TurnsSoFar(cfg, passes, path);
    if last.nextCursor != "" {
      PlainSlash(last.nextCursor);
      var j: nat :| At(after, path, j);
      LeadingSplits(cfg, after, last.nextCursor, j);
    }
  }

  // ----- how long a cycle takes -----

  lemma ResumesAtStop(cfg: Setup, before: Pass, p: Pass)
    requires Listed(cfg, before.files) && Sound(cfg, before) && p.files == before.files
    requires p.startAfter == before.nextCursor && !Anew(cfg, p.files, p.startAfter)
    ensures Start(cfg, p) == Stop(cfg, before) < |p.files|
  {
    var c, n := before.nextCursor, Stop(cfg, before);
    assert Slash("") == "";
    assert c != "" && Plain(p.files[n - 1].path);
    PlainSlash(c);
    LeadingSplits(cfg, p.files, c, n - 1);
    ReachedByPlace(cfg, p.files, n - 1, n - 1);
    if n < |p.files| {
      LeadingSplits(cfg, p.files, c, n);
      ReachedByPlace(cfg, p.files, n - 1, n);
    }
  }

  lemma {:induction false} Progress(cfg: Setup, passes: seq<Pass>, files: seq<File>)
    requires Cycle(cfg, passes) && forall i | 0 <= i < |passes| :: passes[i].files == files
    ensures |passes| > 1 ==> Start(cfg, passes[|passes| - 1]) < |files|
    ensures Start(cfg, passes[|passes| - 1]) >= |passes| - 1
    decreases |passes|
  {
    if |passes| > 1 {
      var init, last := passes[..|passes| - 1], passes[|passes| - 1];
      var before := init[|init| - 1];
      assert before == passes[|passes| - 2];
      Progress(cfg, init, files);
      ResumesAtStop(cfg, before, last);
    }
  }

  /** A cycle over a fixed tree of N files takes at most max(1, N) passes, even if every pass is truncated at once. */
  lemma CycleLength(cfg: Setup, passes: seq<Pass>, files: seq<File>)
    requires Cycle(cfg, passes) && forall i | 0 <= i < |passes| :: passes[i].files == files
    ensures |passes| <= Max(1, |files|)
  {
    Progress(cfg, passes, files);
  }

  // ----- the hypotheses on names are needed -----

  ghost predicate Ordered(cfg: Setup, files: seq<File>) {
    forall i, j | 0 <= i < j < |files| :: !Less(Key(cfg, files[j].path), Key(cfg, files[i].path))
  }

  lemma {:induction false} LessAfter(a: string, x: string, y: string)
    ensures Less(a + x, a + y) <==> Less(x, y)
    decreases |a|
  {
    if a == [] {
      assert a + x == x && a + y == y;
    } else {
      assert (a + x)[1..] == a[1..] + x && (a + y)[1..] == a[1..] + y;
      LessAfter(a[1..], x, y);
    }
  }

  /** Replacing backslashes moves a cursor in front of the name it came from. */
  lemma {:induction false} SlashMovesBack(cfg: Setup, path: string)
    requires cfg.fold('\\') == "\\" && cfg.fold('/') == "/"
    ensures Less(Key(cfg, Slash(path)), Key(cfg, path)) <==> '\\' in path
    ensures '\\' !in path ==> Slash(path) == path
    decreases |path|
  {
    if path == "" {
    } else {
      var rest := path[1..];
      assert path == [path[0]] + rest;
      assert Slash(path)[1..] == Slash(rest);
      SlashMovesBack(cfg, rest);
      if path[0] != '\\' {
        LessAfter(cfg.fold(path[0]), Key(cfg, Slash(rest)), Key(cfg, rest));
      }
    }
  }

  lemma {:induction false} LeadingExactly(cfg: Setup, files: seq<File>, cursor: string, n: nat)
    requires Ordered(cfg, files) && n <= |files|
    ensures Leading(cfg, files, cursor) == n <==>
            (n > 0 ==> Reached(cfg, files[n - 1].path, cursor)) && (n < |files| ==> !Reached(cfg, files[n].path, cursor))
    decreases |files|
  {
    if files != [] {
      var rest := files[1..];
      if n > 0 {
        LeadingExactly(cfg, rest, cursor, n - 1);
        KeyOrder(cfg, files, 0, n - 1, cursor);
      } else if |files| > 1 {
        KeyOrder(cfg, files, 0, 1, cursor);
      }
    }
  }

  lemma KeyOrder(cfg: Setup, files: seq<File>, i: nat, j: nat, cursor: string)
    requires Ordered(cfg, files) && i <= j < |files|
    ensures Reached(cfg, files[j].path, cursor) ==> Reached(cfg, files[i].path, cursor)
  {
    var a, b, c := Key(cfg, files[i].path), Key(cfg, files[j].path), Key(cfg, cursor);
    if Less(c, a) {
      LessTotal(a, b);
      if Less(a, b) {
        LessTransitive(c, a, b);
      }
    }
  }

  /**
   * The pass after one that stopped at file i resumes exactly behind it if and only if its name has
   * no backslash and the next name differs from it after case folding.
   */
  lemma {:induction false} NextPassResumes(cfg: Setup, files: seq<File>, i: nat)
    requires Ordered(cfg, files) && i < |files| && cfg.fold('\\') == "\\" && cfg.fold('/') == "/"
    ensures Leading(cfg, files, Slash(files[i].path)) == i + 1 <==>
            '\\' !in files[i].path && (i + 1 < |files| ==> Key(cfg, files[i + 1].path) != Key(cfg, files[i].path))
  {
    var path := files[i].path;
    SlashMovesBack(cfg, path);
    LeadingExactly(cfg, files, Slash(path), i + 1);
    if '\\' !in path {
      NotBelowItself(Key(cfg, path));
      if i + 1 < |files| {
        LessTotal(Key(cfg, path), Key(cfg, files[i + 1].path));
      }
    }
  }

  /**
   * A backslash makes the audit stall: with one file per pass, and no other name between the replaced
   * and the real one, every further pass scans the same file and leaves the same cursor.
   */
  lemma BackslashStalls(cfg: Setup, p: Pass, i: nat)
    requires cfg.fold('\\') == "\\" && cfg.fold('/') == "/"
    requires Ordered(cfg, p.files) && i < |p.files| && '\\' in p.files[i].path
    requires i > 0 ==> Reached(cfg, p.files[i - 1].path, Slash(p.files[i].path))
    requires p.startAfter == p.files[i].path && Sound(cfg, p) && p.turns == 1 && p.nextCursor != ""
    ensures Start(cfg, p) == i && p.nextCursor == p.startAfter
  {
    var path := p.files[i].path;
    SlashMovesBack(cfg, path);
    LeadingExactly(cfg, p.files, Slash(path), i);
    assert |Slash(path)| == |path|;
  }

  /** Of two names that differ only in case, the second is passed over when a pass stops at the first. */
  lemma CollisionSkips(cfg: Setup, files: seq<File>, i: nat)
    requires cfg.fold('\\') == "\\" && cfg.fold('/') == "/"
    requires Ordered(cfg, files) && i + 1 < |files| && Plain(files[i].path)
    requires Key(cfg, files[i].path) == Key(cfg, files[i + 1].path)
    ensures Anew(cfg, files, files[i].path) || StartIndex(cfg, files, files[i].path) > i + 1
  {
    var path := files[i].path;
    SlashMovesBack(cfg, path);
    var lead := Leading(cfg, files, path);
    LeadingExactly(cfg, files, path, lead);
    if lead <= i + 1 {
      KeyOrder(cfg, files, lead, i + 1, path);
      NotBelowItself(Key(cfg, path));
    }
  }

  lemma NotBelowItself(s: string)
    ensures !Less(s, s)
  {
    if Less(s, s) {
      LessAsymmetric(s, s);
    }
  }

  // ----- trees on which the audit starves a file -----

  /** One file and one finding per pass, and no rules. */
  const TINY: Setup := Setup((c: char) => if c == 'A' then "a" else [c], [], (r: string, l: string) => false, 1, 1)

  function Pair(x: string, y: string): seq<File> { [File(x, Unreadable), File(y, Unreadable)] }

  lemma FoldOne(c: char)
    ensures Key(TINY, [c]) == if c == 'A' then "a" else [c]
  {
    assert [c][1..] == [];
    assert Fold(TINY.fold, [c]) == TINY.fold(c) + Fold(TINY.fold, []);
  }

  lemma LessOne(a: char, b: char)
    ensures Less([a], [b]) <==> a < b
  {
    assert [a][1..] == [] && [b][1..] == [];
  }

  /** A one-file pass from the beginning of a pair of unreadable files. */
  lemma FirstOfPair(x: string, y: string, startAfter: string)
    requires x != "" && StartIndex(TINY, Pair(x, y), startAfter) == 0
    ensures Reports(TINY, Pair(x, y), startAfter, 1, Report([], 0, 1, false, true, x))
    ensures var p := Pass(Pair(x, y), startAfter, 1, x);
            Turned(TINY, p, x) && (y != x ==> !Turned(TINY, p, y))
  {
    var files, p := Pair(x, y), Pass(Pair(x, y), startAfter, 1, x);
    var window := Window(TINY, files, 0);
    assert window == [File(x, Unreadable)] && window[..1] == window && window[..0] == [];
    assert Findings(TINY, []) == [] && Findings(TINY, window) == [] && Readable(window) == 0;
    SweptBy(TINY, files, 0, 1, Report([], 0, 1, false, true, x), Scan([], 0, 1, false));
    assert At(files, x, 0);
  }

  function Stalled(x: string, y: string, n: nat): seq<Pass> {
    if n == 0 then [Pass(Pair(x, y), "", 1, x)] else Stalled(x, y, n - 1) + [Pass(Pair(x, y), x, 1, x)]
  }

  lemma BackslashStart()
    ensures !Anew(TINY, Pair("\\", "z"), "\\") && StartIndex(TINY, Pair("\\", "z"), "\\") == 0
  {
    FoldOne('\\');
    FoldOne('/');
    LessOne('/', '\\');
    assert Slash("\\") == "/";
  }

  /** A pass of the auditor with these turns and this cursor. */
  ghost predicate Reported(cfg: Setup, p: Pass) {
    exists r :: Reports(cfg, p.files, p.startAfter, p.turns, r) && r.nextCursor == p.nextCursor
  }

  /**
   * On the pair x, y passes can be recorded for ever: the cycle never ends, x has a turn in each of them
   * and y in none, although both stay in the tree.
   */
  ghost predicate Starves(x: string, y: string, n: nat) {
    var passes := Stalled(x, y, n);
    && |passes| == n + 1 && Chained(passes) && passes[n].nextCursor == x
    && (forall i | 0 <= i <= n :: passes[i].files == Pair(x, y) && Reported(TINY, passes[i]))
    && (forall i | 0 < i <= n :: !Anew(TINY, passes[i].files, passes[i].startAfter))
    && Turns(TINY, passes, x) == n + 1 && Turns(TINY, passes, y) == 0
  }

  lemma OnePassOfPair(x: string, y: string, startAfter: string)
    requires x != "" && y != x && StartIndex(TINY, Pair(x, y), startAfter) == 0
    ensures var p := Pass(Pair(x, y), startAfter, 1, x);
            Reported(TINY, p) && Turned(TINY, p, x) && !Turned(TINY, p, y)
  {
    FirstOfPair(x, y, startAfter);
    assert Reports(TINY, Pair(x, y), startAfter, 1, Report([], 0, 1, false, true, x));
  }

  lemma TurnsPush(passes: seq<Pass>, p: Pass, path: string)
    ensures Turns(TINY, passes + [p], path) == Turns(TINY, passes, path) + if Turned(TINY, p, path) then 1 else 0
  {
    assert (passes + [p])[..|passes|] == passes;
  }

  lemma {:induction false} StalledShape(x: string, y: string, n: nat)
    ensures |Stalled(x, y, n)| == n + 1
    ensures forall i | 0 <= i <= n :: Stalled(x, y, n)[i] == Pass(Pair(x, y), if i == 0 then "" else x, 1, x)
    decreases n
  {
    if n > 0 {
      var m: nat := n - 1;
      StalledShape(x, y, m);
    }
  }

  lemma {:induction false} StalledTurns(x: string, y: string, n: nat)
    requires x != "" && y != x && StartIndex(TINY, Pair(x, y), x) == 0
    ensures Turns(TINY, Stalled(x, y, n), x) == n + 1 && Turns(TINY, Stalled(x, y, n), y) == 0
    decreases n
  {
    if n == 0 {
      OnePassOfPair(x, y, "");
      TurnsPush([], Pass(Pair(x, y), "", 1, x), x);
      TurnsPush([], Pass(Pair(x, y), "", 1, x), y);
      assert [] + Stalled(x, y, 0) == Stalled(x, y, 0);
    } else {
      var m: nat := n - 1;
      var p := Pass(Pair(x, y), x, 1, x);
      StalledTurns(x, y, m);
      OnePassOfPair(x, y, x);
      TurnsPush(Stalled(x, y, m), p, x);
      TurnsPush(Stalled(x, y, m), p, y);
    }
  }

  lemma StalledStarves(x: string, y: string, n: nat)
    requires x != "" && y != x
    requires !Anew(TINY, Pair(x, y), x) && StartIndex(TINY, Pair(x, y), x) == 0
    ensures Starves(x, y, n)
  {
    StalledShape(x, y, n);
    StalledTurns(x, y, n);
    OnePassOfPair(x, y, "");
    OnePassOfPair(x, y, x);
  }

  /** A file whose name is a backslash starves a file "z". */
  lemma BackslashStarves(n: nat)
    ensures Starves("\\", "z", n)
  {
    BackslashStart();
    StalledStarves("\\", "z", n);
  }

  lemma CollisionAnew()
    ensures Ordered(TINY, Pair("A", "a")) && Anew(TINY, Pair("A", "a"), "A")
  {
    var files := Pair("A", "a");
    FoldOne('A');
    FoldOne('a');
    LessOne('a', 'a');
    assert Slash("A") == "A";
    assert files[1..] == [File("a", Unreadable)] && files[1..][1..] == [];
    assert Leading(TINY, files[1..], "A") == 1;
  }

  /** Of "A" and "a" the second starves: one recorded pass is a whole cycle, and it has no turn in it. */
  lemma CollisionStarves()
    ensures var files := Pair("A", "a");
            var p := Pass(files, "", 1, "A");
            && Ordered(TINY, files) && Reported(TINY, p)
            && Anew(TINY, files, p.startAfter) && Anew(TINY, files, p.nextCursor)
            && Turns(TINY, [] + [p], "A") == 1 && Turns(TINY, [] + [p], "a") == 0
  {
    CollisionAnew();
    OnePassOfPair("A", "a", "");
    TurnsPush([], Pass(Pair("A", "a"), "", 1, "A"), "A");
    TurnsPush([], Pass(Pair("A", "a"), "", 1, "A"), "a");
  }
}
