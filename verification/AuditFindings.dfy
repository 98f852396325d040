// What the findings of an audit pass are, told by lines, rules and matches: one for
// each matching line of the files that had their turn, in file and line order, by the
// first rule that matches, up to the limit.
module AuditFindings {
  import opened Basics
  import opened Text
  import opened Audit

  /** A line of a listed file; lines count from 1. */
  datatype Place = Place(file: nat, line: nat)

  predicate After(a: Place, b: Place) { a.file > b.file || (a.file == b.file && a.line > b.line) }

  predicate IsLine(files: seq<File>, p: Place) {
    p.file < |files| && files[p.file].content.Lines? && 1 <= p.line <= |files[p.file].content.lines|
  }

  function LineAt(files: seq<File>, p: Place): string
    requires IsLine(files, p)
  {
    files[p.file].content.lines[p.line - 1]
  }

  /** Some rule matches. */
  predicate Hit(cfg: Setup, line: string) { exists r | 0 <= r < |cfg.rules| :: cfg.matches(cfg.rules[r], line) }

  /** This rule matches and none before it does. */
  predicate FirstHit(cfg: Setup, line: string, r: nat) {
    && r < |cfg.rules| && cfg.matches(cfg.rules[r], line)
    && forall k | 0 <= k < r :: !cfg.matches(cfg.rules[k], line)
  }

  ghost predicate Reported(cfg: Setup, path: string, number: nat, line: string, f: Finding) {
    f.path == path && f.line == number && exists r: nat :: FirstHit(cfg, line, r) && f.rule == cfg.rules[r]
  }

  ghost predicate Names(cfg: Setup, files: seq<File>, p: Place, f: Finding) {
    IsLine(files, p) && Reported(cfg, files[p.file].path, p.line, LineAt(files, p), f)
  }

  /** The findings name these places, in order. */
  ghost predicate Match(cfg: Setup, files: seq<File>, places: seq<Place>, findings: seq<Finding>) {
    && |places| == |findings|
    && (forall k | 0 <= k < |places| :: Names(cfg, files, places[k], findings[k]))
    && (forall k, l | 0 <= k < l < |places| :: After(places[l], places[k]))
  }

  // ----- one line and one file -----

  lemma {:induction false} FirstRule(cfg: Setup, line: string, k: nat)
    requires forall j | 0 <= j < k && j < |cfg.rules| :: !cfg.matches(cfg.rules[j], line)
    ensures RuleFor(cfg, line, k).Some? <==> Hit(cfg, line)
    ensures RuleFor(cfg, line, k).Some? ==>
              exists r: nat :: FirstHit(cfg, line, r) && RuleFor(cfg, line, k) == Some(cfg.rules[r])
    decreases |cfg.rules| - k
  {
    if k < |cfg.rules| {
      if cfg.matches(cfg.rules[k], line) {
        assert FirstHit(cfg, line, k);
      } else {
        FirstRule(cfg, line, k + 1);
      }
    }
  }

  lemma LineReported(cfg: Setup, path: string, line: string, number: nat)
    ensures var fs := LineFindings(cfg, path, line, number);
            if Hit(cfg, line) then |fs| == 1 && Reported(cfg, path, number, line, fs[0]) else fs == []
  {
    FirstRule(cfg, line, 0);
  }

  ghost predicate Numbered(cfg: Setup, path: string, lines: seq<string>, ns: seq<nat>, findings: seq<Finding>) {
    && |ns| == |findings|
    && (forall k | 0 <= k < |ns| :: 1 <= ns[k] <= |lines| && Reported(cfg, path, ns[k], lines[ns[k] - 1], findings[k]))
    && (forall k, l | 0 <= k < l < |ns| :: ns[k] < ns[l])
  }

  predicate AllHits(cfg: Setup, lines: seq<string>, ns: seq<nat>) {
    forall n | 0 <= n < |lines| && Hit(cfg, lines[n]) :: n + 1 in ns
  }

  lemma NumberedMore(cfg: Setup, path: string, lines: seq<string>, line: string, ns: seq<nat>, findings: seq<Finding>)
    requires Numbered(cfg, path, lines, ns, findings)
    ensures Numbered(cfg, path, lines + [line], ns, findings)
  {
    var all := lines + [line];
    forall k | 0 <= k < |ns| ensures 1 <= ns[k] <= |all| && Reported(cfg, path, ns[k], all[ns[k] - 1], findings[k]) {
      assert all[ns[k] - 1] == lines[ns[k] - 1];
    }
  }

  lemma NumberedNext(cfg: Setup, path: string, lines: seq<string>, line: string, ns: seq<nat>, findings: seq<Finding>, f: Finding)
    requires Numbered(cfg, path, lines, ns, findings) && Reported(cfg, path, |lines| + 1, line, f)
    ensures Numbered(cfg, path, lines + [line], ns + [|lines| + 1], findings + [f])
  {
    var all, ns', fs := lines + [line], ns + [|lines| + 1], findings + [f];
    NumberedMore(cfg, path, lines, line, ns, findings);
    forall k | 0 <= k < |ns'| ensures 1 <= ns'[k] <= |all| && Reported(cfg, path, ns'[k], all[ns'[k] - 1], fs[k]) {
      if k < |ns| {
        assert ns'[k] == ns[k] && fs[k] == findings[k];
      } else {
        assert all[|lines|] == line;
      }
    }
  }

  lemma AllHitsNext(cfg: Setup, lines: seq<string>, line: string, ns: seq<nat>)
    requires AllHits(cfg, lines, ns)
    ensures AllHits(cfg, lines + [line], if Hit(cfg, line) then ns + [|lines| + 1] else ns)
  {
    var all := lines + [line];
    var ns' := if Hit(cfg, line) then ns + [|lines| + 1] else ns;
    forall n | 0 <= n < |all| && Hit(cfg, all[n]) ensures n + 1 in ns' {
      if n < |lines| {
        assert Hit(cfg, lines[n]) && n + 1 in ns;
      }
    }
  }

  /** The findings of a text name exactly its matching lines, in order. */
  lemma {:induction false} TextExactly(cfg: Setup, path: string, lines: seq<string>) returns (ns: seq<nat>)
    ensures Numbered(cfg, path, lines, ns, TextFindings(cfg, path, lines)) && AllHits(cfg, lines, ns)
    decreases |lines|
  {
    ns := [];
    if lines != [] {
      var before, line := lines[..|lines| - 1], lines[|lines| - 1];
      ns := TextExactly(cfg, path, before);
      var findings, fs := TextFindings(cfg, path, before), LineFindings(cfg, path, line, |lines|);
      assert lines == before + [line] && |lines| == |before| + 1;
      assert TextFindings(cfg, path, lines) == findings + fs;
      AllHitsNext(cfg, before, line, ns);
      LineReported(cfg, path, line, |lines|);
      if Hit(cfg, line) {
        assert fs == [fs[0]];
        NumberedNext(cfg, path, before, line, ns, findings, fs[0]);
        ns := ns + [|lines|];
      } else {
        assert findings + fs == findings;
        NumberedMore(cfg, path, before, line, ns, findings);
      }
    }
  }

  // ----- several files -----

  lemma MatchMore(cfg: Setup, files: seq<File>, f: File, places: seq<Place>, findings: seq<Finding>)
    requires Match(cfg, files, places, findings)
    ensures Match(cfg, files + [f], places, findings)
  {
    var all := files + [f];
    forall k | 0 <= k < |places| ensures Names(cfg, all, places[k], findings[k]) {
      assert Names(cfg, files, places[k], findings[k]) && all[places[k].file] == files[places[k].file];
    }
  }

  /** Every matching line is among the places. */
  ghost predicate Complete(cfg: Setup, files: seq<File>, places: seq<Place>) {
    forall p | IsLine(files, p) && Hit(cfg, LineAt(files, p)) :: p in places
  }

  function PlacesOf(file: nat, ns: seq<nat>): seq<Place> { seq(|ns|, i requires 0 <= i < |ns| => Place(file, ns[i])) }

  lemma FileMatches(cfg: Setup, files: seq<File>, f: File, places: seq<Place>, findings: seq<Finding>, ns: seq<nat>, more: seq<Finding>)
    requires Match(cfg, files, places, findings)
    requires f.content.Lines? && Numbered(cfg, f.path, f.content.lines, ns, more)
    ensures Match(cfg, files + [f], places + PlacesOf(|files|, ns), findings + more)
  {
    var all, added, both := files + [f], PlacesOf(|files|, ns), findings + more;
    var places' := places + added;
    assert all[|files|] == f;
    MatchMore(cfg, files, f, places, findings);
    forall k | 0 <= k < |places'| ensures Names(cfg, all, places'[k], both[k]) {
      if k >= |places| {
        var i := k - |places|;
        assert places'[k] == Place(|files|, ns[i]) && both[k] == more[i];
        assert Reported(cfg, f.path, ns[i], f.content.lines[ns[i] - 1], more[i]);
      } else {
        assert places'[k] == places[k] && both[k] == findings[k];
      }
    }
    forall k, l | 0 <= k < l < |places'| ensures After(places'[l], places'[k]) {
      if k < |places| {
        assert Names(cfg, files, places[k], findings[k]);
      }
    }
  }

  lemma FileComplete(cfg: Setup, files: seq<File>, f: File, places: seq<Place>, ns: seq<nat>)
    requires Complete(cfg, files, places) && (f.content.Lines? ==> AllHits(cfg, f.content.lines, ns))
    ensures Complete(cfg, files + [f], places + PlacesOf(|files|, ns))
  {
    var all, added := files + [f], PlacesOf(|files|, ns);
    forall p | IsLine(all, p) && Hit(cfg, LineAt(all, p)) ensures p in places + added {
      if p.file < |files| {
        assert all[p.file] == files[p.file] && IsLine(files, p);
      } else {
        assert all[p.file] == f && f.content.lines[p.line - 1] == LineAt(all, p);
        assert p.line - 1 + 1 in ns;
        var i :| 0 <= i < |ns| && ns[i] == p.line;
        assert added[i] == p;
      }
    }
  }

  /** One more file: its matching lines follow those of the files before it. */
  lemma FileFollows(cfg: Setup, before: seq<File>, f: File, was: seq<Place>, findings: seq<Finding>) returns (ns: seq<nat>)
    requires Match(cfg, before, was, findings) && Complete(cfg, before, was)
    ensures Match(cfg, before + [f], was + PlacesOf(|before|, ns), findings + FileFindings(cfg, f))
    ensures Complete(cfg, before + [f], was + PlacesOf(|before|, ns))
  {
    ns := [];
    if f.content.Lines? {
      ns := TextExactly(cfg, f.path, f.content.lines);
      FileMatches(cfg, before, f, was, findings, ns, FileFindings(cfg, f));
    } else {
      MatchMore(cfg, before, f, was, findings);
      assert was + PlacesOf(|before|, ns) == was && findings + [] == findings;
    }
    FileComplete(cfg, before, f, was, ns);
  }

  /** The findings of some files name exactly their matching lines, in order. */
  lemma {:induction false} FindingsExactly(cfg: Setup, files: seq<File>) returns (places: seq<Place>)
    ensures Match(cfg, files, places, Findings(cfg, files)) && Complete(cfg, files, places)
    ensures files != [] ==>
              forall k | |Findings(cfg, files[..|files| - 1])| <= k < |places| :: places[k].file == |files| - 1
    decreases |files|
  {
    places := [];
    if files != [] {
      var before, f := files[..|files| - 1], files[|files| - 1];
      var was := FindingsExactly(cfg, before);
      var ns := FileFollows(cfg, before, f, was, Findings(cfg, before));
      assert files == before + [f];
      places := was + PlacesOf(|before|, ns);
    }
  }

  // ----- a pass -----

  /** The listed files that had their turn. */
  function Processed(files: seq<File>, start: nat, turns: nat): seq<File>
    requires start + turns <= |files|
  {
    files[start..start + turns]
  }

  lemma FirstOfTurns(cfg: Setup, window: seq<File>, turns: nat, scan: Scan)
    requires cfg.Valid() && Scans(cfg, window, turns, scan)
    ensures scan.findings == First(Findings(cfg, window[..turns]), cfg.maxFindings)
    ensures scan.truncated <==> |Findings(cfg, window[..turns])| >= cfg.maxFindings
  {
    FindingsPrefix(cfg, window, turns);
    if !scan.truncated {
      assert window[..turns] == window;
    }
  }

  /** The first file of the listing behind the cursor, or the beginning when there is no cursor or nothing behind it. */
  ghost predicate Begins(cfg: Setup, files: seq<File>, startAfter: string, start: nat) {
    if Slash(startAfter) != "" && exists i | 0 <= i < |files| :: Less(Key(cfg, Slash(startAfter)), Key(cfg, files[i].path)) then
      && start < |files| && Less(Key(cfg, Slash(startAfter)), Key(cfg, files[start].path))
      && forall i | 0 <= i < start :: !Less(Key(cfg, Slash(startAfter)), Key(cfg, files[i].path))
    else start == 0
  }

  lemma {:induction false} LeadingExactly(cfg: Setup, files: seq<File>, cursor: string)
    ensures var n := Leading(cfg, files, cursor);
            && (forall i | 0 <= i < n :: !Less(Key(cfg, cursor), Key(cfg, files[i].path)))
            && (n < |files| ==> Less(Key(cfg, cursor), Key(cfg, files[n].path)))
    decreases |files|
  {
    if files != [] && Reached(cfg, files[0].path, cursor) {
      LeadingExactly(cfg, files[1..], cursor);
      var n := Leading(cfg, files, cursor);
      forall i | 0 <= i < n ensures !Less(Key(cfg, cursor), Key(cfg, files[i].path)) {
        if i > 0 {
          assert files[1..][i - 1] == files[i];
        }
      }
    }
  }

  lemma StartExactly(cfg: Setup, files: seq<File>, startAfter: string)
    ensures Begins(cfg, files, startAfter, StartIndex(cfg, files, startAfter))
  {
    LeadingExactly(cfg, files, Slash(startAfter));
  }

  function ReadableOnes(files: seq<File>): set<nat> { set i: nat | i < |files| && files[i].content.Lines? }

  lemma {:induction false} ReadableCounts(files: seq<File>)
    ensures Readable(files) == |ReadableOnes(files)|
    decreases |files|
  {
    if files != [] {
      var before, n: nat := files[..|files| - 1], |files| - 1;
      ReadableCounts(before);
      assert ReadableOnes(files) == ReadableOnes(before) + if files[n].content.Lines? then {n} else {};
    } else {
      assert ReadableOnes(files) == {};
    }
  }

  /**
   * What a report says. Its findings are lines of the files that had their turn, each with the first rule
   * that matches it, in file and line order; every matching line of these files is among them, but for
   * those behind the last one when the limit was reached.
   */
  ghost predicate Says(cfg: Setup, files: seq<File>, places: seq<Place>, r: Report) {
    && Match(cfg, files, places, r.findings)
    && |places| <= cfg.maxFindings && (r.truncated <==> |places| == cfg.maxFindings)
    && (forall p | IsLine(files, p) && Hit(cfg, LineAt(files, p)) ::
          p in places || (r.truncated && forall k | 0 <= k < |places| :: After(p, places[k])))
    && r.scanned == |ReadableOnes(files)| && r.skipped == |files| - r.scanned
  }

  lemma CutSays(cfg: Setup, files: seq<File>, all: seq<Place>, findings: seq<Finding>, n: nat)
    requires Match(cfg, files, all, findings) && Complete(cfg, files, all) && n <= |all|
    ensures Match(cfg, files, all[..n], findings[..n])
    ensures forall p | IsLine(files, p) && Hit(cfg, LineAt(files, p)) ::
              p in all[..n] || (n < |all| && forall k | 0 <= k < n :: After(p, all[..n][k]))
  {
    forall p | IsLine(files, p) && Hit(cfg, LineAt(files, p))
      ensures p in all[..n] || (n < |all| && forall k | 0 <= k < n :: After(p, all[..n][k]))
    {
      var i :| 0 <= i < |all| && all[i] == p;
      if i < n {
        assert all[..n][i] == p;
      }
    }
  }

  lemma TurnsSay(cfg: Setup, mine: seq<File>, r: Report) returns (places: seq<Place>)
    requires cfg.Valid() && r.findings == First(Findings(cfg, mine), cfg.maxFindings)
    requires r.truncated <==> |Findings(cfg, mine)| >= cfg.maxFindings
    requires r.scanned == Readable(mine) && r.skipped == |mine| - r.scanned
    requires r.truncated ==> mine != [] && |Findings(cfg, mine[..|mine| - 1])| < cfg.maxFindings
    ensures Says(cfg, mine, places, r)
    ensures r.truncated ==> places[|places| - 1].file == |mine| - 1
  {
    var all := FindingsExactly(cfg, mine);
    var n := Min(cfg.maxFindings, |all|);
    places := all[..n];
    CutSays(cfg, mine, all, Findings(cfg, mine), n);
    ReadableCounts(mine);
  }

  /** The pass is to be continued behind its last file when files remain or the limit cut it off. */
  predicate Continues(files: seq<File>, stop: nat, turns: nat, r: Report)
    requires turns <= stop <= |files|
  {
    && (r.morePending <==> turns > 0 && files[stop - 1].path != "" && (stop < |files| || r.truncated))
    && r.nextCursor == if r.morePending then files[stop - 1].path else ""
  }

  lemma SweptContinues(cfg: Setup, files: seq<File>, start: nat, turns: nat, r: Report)
    requires cfg.Valid() && start <= |files| && Swept(cfg, files, start, turns, r)
    ensures start + turns <= |files| && turns <= cfg.maxFiles && Continues(files, start + turns, turns, r)
    ensures !r.truncated ==> turns == cfg.maxFiles || start + turns == |files|
  {
    var window := Window(cfg, files, start);
    assert turns > 0 ==> window[turns - 1] == files[start + turns - 1];
  }

  lemma SweptSays(cfg: Setup, files: seq<File>, start: nat, turns: nat, r: Report)
    requires cfg.Valid() && start + turns <= |files| && turns <= cfg.maxFiles && Swept(cfg, files, start, turns, r)
    ensures var mine := Processed(files, start, turns);
            && r.findings == First(Findings(cfg, mine), cfg.maxFindings)
            && (r.truncated <==> |Findings(cfg, mine)| >= cfg.maxFindings)
            && (r.truncated ==> turns >= 1 && |Findings(cfg, mine[..turns - 1])| < cfg.maxFindings)
            && r.scanned == Readable(mine) && r.skipped == turns - r.scanned
  {
    var window := Window(cfg, files, start);
    FirstOfTurns(cfg, window, turns, Scan(r.findings, r.scanned, r.skipped, r.truncated));
    assert window[..turns] == Processed(files, start, turns);
    assert turns >= 1 ==> window[..turns][..turns - 1] == window[..turns - 1];
  }

  /**
   * The report of a pass, in terms of the listing, the rules and what they match: it starts at the first
   * file behind the cursor, reports exactly the matching lines of the files that had their turn (until the
   * limit), and stops before the end of its window only when the limit is reached.
   */
  lemma {:induction false} ReportExactly(cfg: Setup, files: seq<File>, startAfter: string, turns: nat, r: Report)
    returns (start: nat, places: seq<Place>)
    requires cfg.Valid() && Reports(cfg, files, startAfter, turns, r)
    ensures Begins(cfg, files, startAfter, start)
    ensures start + turns <= |files| && turns <= cfg.maxFiles && Says(cfg, Processed(files, start, turns), places, r)
    ensures Continues(files, start + turns, turns, r)
    ensures !r.truncated ==> turns == cfg.maxFiles || start + turns == |files|
    ensures r.truncated ==> turns >= 1 && places[|places| - 1].file == turns - 1
  {
    start := StartIndex(cfg, files, startAfter);
    StartExactly(cfg, files, startAfter);
    SweptContinues(cfg, files, start, turns, r);
    SweptSays(cfg, files, start, turns, r);
    places := TurnsSay(cfg, Processed(files, start, turns), r);
  }
}
