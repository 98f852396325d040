// The resumable source audit of manager/evidence.py: one pass over a window of the
// candidate files, from a durable cursor. The rule patterns, the case folding of
// single characters and the file contents are inputs.
module Audit {
  import opened Basics
  import opened Text

  /** Too large or unreadable files are skipped. */
  datatype Content = Unreadable | Lines(lines: seq<string>)

  datatype File = File(path: string, content: Content)

  datatype Finding = Finding(rule: string, path: string, line: nat)

  datatype Setup = Setup(fold: char -> string, rules: seq<string>, matches: (string, string) -> bool, maxFiles: nat, maxFindings: nat) {
    predicate Valid() { maxFiles >= 1 && maxFindings >= 1 }
  }

  datatype Report = Report(findings: seq<Finding>, scanned: nat, skipped: nat, truncated: bool, morePending: bool, nextCursor: string)

  // ----- where a pass starts -----

  /** str.casefold: every character is folded on its own. */
  function Fold(fold: char -> string, s: string): string {
    if s == [] then [] else fold(s[0]) + Fold(fold, s[1..])
  }

  function Slash(s: string): string {
    seq(|s|, i requires 0 <= i < |s| => if s[i] == '\\' then '/' else s[i])
  }

  function Key(cfg: Setup, path: string): string { Fold(cfg.fold, path) }

  predicate Reached(cfg: Setup, path: string, cursor: string) { !Less(Key(cfg, cursor), Key(cfg, path)) }

  /** Leading files at or before the cursor. */
  function Leading(cfg: Setup, files: seq<File>, cursor: string): nat
    ensures Leading(cfg, files, cursor) <= |files|
  {
    if files == [] || !Reached(cfg, files[0].path, cursor) then 0 else 1 + Leading(cfg, files[1..], cursor)
  }

  /** A pass begins a new cycle when there is no cursor, or nothing lies beyond it. */
  predicate Anew(cfg: Setup, files: seq<File>, startAfter: string) {
    Slash(startAfter) == "" || Leading(cfg, files, Slash(startAfter)) == |files|
  }

  function StartIndex(cfg: Setup, files: seq<File>, startAfter: string): nat {
    if Anew(cfg, files, startAfter) then 0 else Leading(cfg, files, Slash(startAfter))
  }

  function Window(cfg: Setup, files: seq<File>, start: nat): seq<File>
    requires start <= |files|
  {
    files[start..Min(start + cfg.maxFiles, |files|)]
  }

  // ----- what a full scan of some files would find -----

  /** The first rule, from the k-th on, that matches a line. */
  function RuleFor(cfg: Setup, line: string, k: nat): Option<string>
    decreases |cfg.rules| - k
  {
    if k >= |cfg.rules| then None
    else if cfg.matches(cfg.rules[k], line) then Some(cfg.rules[k])
    else RuleFor(cfg, line, k + 1)
  }

  function LineFindings(cfg: Setup, path: string, line: string, number: nat): seq<Finding> {
    match RuleFor(cfg, line, 0)
    case None => []
    case Some(rule) => [Finding(rule, path, number)]
  }

  function TextFindings(cfg: Setup, path: string, lines: seq<string>): seq<Finding> {
    if lines == [] then []
    else TextFindings(cfg, path, lines[..|lines| - 1]) + LineFindings(cfg, path, lines[|lines| - 1], |lines|)
  }

  function FileFindings(cfg: Setup, f: File): seq<Finding> {
    match f.content
    case Unreadable => []
    case Lines(lines) => TextFindings(cfg, f.path, lines)
  }

  function Findings(cfg: Setup, files: seq<File>): seq<Finding> {
    if files == [] then [] else Findings(cfg, files[..|files| - 1]) + FileFindings(cfg, files[|files| - 1])
  }

  function First(s: seq<Finding>, n: nat): seq<Finding> { s[..Min(n, |s|)] }

  function Readable(files: seq<File>): nat {
    if files == [] then 0
    else Readable(files[..|files| - 1]) + if files[|files| - 1].content.Lines? then 1 else 0
  }

  lemma {:induction false} TextPrefix(cfg: Setup, path: string, lines: seq<string>, n: nat)
    requires n <= |lines|
    ensures TextFindings(cfg, path, lines[..n]) <= TextFindings(cfg, path, lines)
    decreases |lines|
  {
    if n < |lines| {
      TextPrefix(cfg, path, lines[..|lines| - 1], n);
      assert lines[..|lines| - 1][..n] == lines[..n];
    } else {
      assert lines[..n] == lines;
    }
  }

  lemma {:induction false} FindingsPrefix(cfg: Setup, files: seq<File>, n: nat)
    requires n <= |files|
    ensures Findings(cfg, files[..n]) <= Findings(cfg, files)
    decreases |files|
  {
    if n < |files| {
      FindingsPrefix(cfg, files[..|files| - 1], n);
      assert files[..|files| - 1][..n] == files[..n];
    } else {
      assert files[..n] == files;
    }
  }

  // ----- the pass -----

  /** What one pass leaves behind, in terms of the files whose turn it was. */
  ghost predicate Reports(cfg: Setup, files: seq<File>, startAfter: string, turns: nat, r: Report) {
    Swept(cfg, files, StartIndex(cfg, files, startAfter), turns, r)
  }

  datatype Scan = Scan(findings: seq<Finding>, scanned: nat, skipped: nat, truncated: bool)

  /** The findings are the first ones of the window, and the scan ends with the file that fills the limit. */
  ghost predicate Scans(cfg: Setup, window: seq<File>, turns: nat, scan: Scan) {
    var all := Findings(cfg, window);
    && turns <= |window|
    && scan.findings == First(all, cfg.maxFindings)
    && scan.truncated == (|all| >= cfg.maxFindings)
    && (scan.truncated ==>
          turns >= 1 && |Findings(cfg, window[..turns - 1])| < cfg.maxFindings <= |Findings(cfg, window[..turns])|)
    && (!scan.truncated ==> turns == |window|)
    && scan.scanned == Readable(window[..turns]) && scan.skipped == turns - scan.scanned
  }

  ghost predicate Swept(cfg: Setup, files: seq<File>, start: nat, turns: nat, r: Report)
    requires start <= |files|
  {
    var window := Window(cfg, files, start);
    && Scans(cfg, window, turns, Scan(r.findings, r.scanned, r.skipped, r.truncated))
    && r.morePending == (turns > 0 && window[turns - 1].path != "" && (start + |window| < |files| || r.truncated))
    && r.nextCursor == if r.morePending then window[turns - 1].path else ""
  }

  lemma SweptBy(cfg: Setup, files: seq<File>, start: nat, turns: nat, r: Report, scan: Scan)
    requires start <= |files| && Scans(cfg, Window(cfg, files, start), turns, scan)
    requires scan == Scan(r.findings, r.scanned, r.skipped, r.truncated)
    requires var window := Window(cfg, files, start);
             var last := if turns > 0 then window[turns - 1].path else "";
             && r.morePending == (last != "" && (start + |window| < |files| || r.truncated))
             && r.nextCursor == if r.morePending then last else ""
    ensures Swept(cfg, files, start, turns, r)
  {
  }

  class ConstraintAuditor {
    const cfg: Setup

    constructor (cfg: Setup)
      requires cfg.Valid()
      ensures this.cfg == cfg
    {
      this.cfg := cfg;
    }

    method ScanLine(path: string, line: string, number: nat) returns (found: Option<Finding>)
      ensures LineFindings(cfg, path, line, number) == if found.Some? then [found.value] else []
    {
      found := None;
      for k := 0 to |cfg.rules|
        invariant found == None && RuleFor(cfg, line, 0) == RuleFor(cfg, line, k)
      {
        if cfg.matches(cfg.rules[k], line) {
          return Some(Finding(cfg.rules[k], path, number));
        }
      }
    }

    /** Scan the lines of one file until the finding limit is reached. */
    method ScanLines(path: string, lines: seq<string>, before: seq<Finding>) returns (findings: seq<Finding>, truncated: bool)
      requires |before| < cfg.maxFindings
      ensures var all := before + TextFindings(cfg, path, lines);
              findings == First(all, cfg.maxFindings) && truncated == (|all| >= cfg.maxFindings)
    {
      findings, truncated := before, false;
      for i := 0 to |lines|
        invariant findings == before + TextFindings(cfg, path, lines[..i]) && |findings| < cfg.maxFindings
      {
        assert lines[..i + 1][..i] == lines[..i];
        TextPrefix(cfg, path, lines, i + 1);
        var found := ScanLine(path, lines[i], i + 1);
        if found.Some? {
          findings := findings + [found.value];
        }
        if |findings| >= cfg.maxFindings {
          return findings, true;
        }
      }
      assert lines[..|lines|] == lines;
      assert findings == First(findings, cfg.maxFindings);
    }

    /** `available`: the root is a directory; otherwise the source raises. */
    method Run(available: bool, files: seq<File>, startAfter: string) returns (report: Option<Report>, ghost turns: nat)
      requires cfg.Valid()
      ensures report.Some? == available
      ensures report.Some? ==> Reports(cfg, files, startAfter, turns, report.value)
    {
      turns := 0;
      if !available {
        return None, 0;
      }
      var start := FindStart(files, startAfter);
      var r;
      r, turns := Sweep(start, files);
      report := Some(r);
    }

    /** The pass from a known start. */
    method Sweep(start: nat, files: seq<File>) returns (report: Report, ghost turns: nat)
      requires cfg.Valid() && start <= |files|
      ensures Swept(cfg, files, start, turns, report)
    {
      var window := files[start..Min(start + cfg.maxFiles, |files|)];
      var scan, n := ScanFiles(window);
      turns := n;
      var lastProcessed := if n > 0 then window[n - 1].path else "";
      var morePending := lastProcessed != "" && (start + |window| < |files| || scan.truncated);
      var nextCursor := if morePending then lastProcessed else "";
      report := Report(scan.findings, scan.scanned, scan.skipped, scan.truncated, morePending, nextCursor);
      SweptBy(cfg, files, start, turns, report, scan);
    }

    method FindStart(files: seq<File>, startAfter: string) returns (start: nat)
      ensures start == StartIndex(cfg, files, startAfter) && start <= |files|
    {
      var cursor := Slash(startAfter);
      start := 0;
      if cursor != "" {
        while start < |files| && !Less(Key(cfg, cursor), Key(cfg, files[start].path))
          invariant start <= |files|
          invariant Leading(cfg, files, cursor) == start + Leading(cfg, files[start..], cursor)
        {
          assert files[start..][1..] == files[start + 1..];
          start := start + 1;
        }
        if start >= |files| {
          start := 0;
        }
      }
    }

    /** The loop over the window; `turns` files have had their turn. */
    method ScanFiles(window: seq<File>) returns (scan: Scan, turns: nat)
      requires cfg.Valid()
      ensures Scans(cfg, window, turns, scan)
    {
      scan, turns := Scan([], 0, 0, false), 0;
      for i := 0 to |window|
        invariant turns == i && !scan.truncated
        invariant scan.findings == Findings(cfg, window[..i]) && |scan.findings| < cfg.maxFindings
        invariant scan.scanned == Readable(window[..i]) && scan.skipped == i - scan.scanned
      {
        turns := i + 1;
        assert window[..i + 1][..i] == window[..i];
        FindingsPrefix(cfg, window, i + 1);
        match window[i].content
        case Unreadable => scan := scan.(skipped := scan.skipped + 1);
        case Lines(lines) =>
          var findings, truncated := ScanLines(window[i].path, lines, scan.findings);
          scan := Scan(findings, scan.scanned + 1, scan.skipped, truncated);
          if truncated {
            return;
          }
      }
      assert window[..|window|] == window;
    }
  }
}
