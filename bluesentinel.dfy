/**
 * backend/bluesentinel-api.js: the BlueSentinelAPI class, a SOC assistant.
 * Modelled are the per-line keyword scoring of logs, the log analysis that
 * sums it, the order-keeping collection of indicators of compromise (IOCs),
 * the list-based reputation lookups, the MITRE ATT&CK keyword mapping, the
 * enrichment of an IOC list, the chat answer selection and the
 * recommendation table.
 *
 * The global regular expressions that pull IPs, domains, hashes, URLs and
 * timestamps out of a line are parameters: `matchAll(pattern, line)` is the
 * list `line.match(re)` returns (empty for null), `timestampOf(line)` the
 * first timestamp match; `nowIso` is `new Date().toISOString()`.
 */
module BlueSentinel {
  import opened Wrappers
  import opened Text
  import opened RuleEngine

  // ---------------------------------------------------------------------------
  // analyzeLogLine
  // ---------------------------------------------------------------------------

  datatype LogThreat = LogThreat(kind: string, severity: string, description: string, confidence: nat, technique: string)

  /** A keyword group: it fires when the lowercased line includes any of its keywords. */
  datatype KeywordRule = KeywordRule(keywords: seq<string>, threat: LogThreat, risk: nat)

  const BruteForce := LogThreat("Brute Force Attack", "high", "Multiple failed login attempts detected", 85, "T1110")
  const UnauthorizedAccess := LogThreat("Unauthorized Access Attempt", "critical", "Unauthorized access attempt detected", 95, "T1078")
  const MalwareDetection := LogThreat("Malware Detection", "critical", "Malware signature detected", 90, "T1059")
  const CommandExecution := LogThreat("Command Execution", "medium", "Command execution detected", 70, "T1059")
  const FileSystemDiscovery := LogThreat("File System Discovery", "medium", "File system discovery activity", 60, "T1083")
  const SuspiciousNetwork := LogThreat("Suspicious Network Activity", "medium", "Unusual network connection detected", 65, "T1071")

  /** The six keyword groups of analyzeLogLine, in the order they are tested. */
  const LineRules: seq<KeywordRule> := [
    KeywordRule(["failed login", "authentication failure"], BruteForce, 30),
    KeywordRule(["unauthorized access", "access denied"], UnauthorizedAccess, 50),
    KeywordRule(["malware", "virus", "trojan"], MalwareDetection, 60),
    KeywordRule(["cmd.exe", "powershell", "bash"], CommandExecution, 25),
    KeywordRule(["file access", "directory listing"], FileSystemDiscovery, 20),
    KeywordRule(["network connection", "outbound connection"], SuspiciousNetwork, 25)
  ]

  /** `s.includes(k1) || s.includes(k2) || ...` over the keywords `ks` */
  predicate AnyContains(s: string, ks: seq<string>) {
    exists k :: 0 <= k < |ks| && Contains(s, ks[k])
  }

  lemma AnyOfTwo(s: string, a: string, b: string)
    ensures AnyContains(s, [a, b]) <==> Contains(s, a) || Contains(s, b)
  {
    if Contains(s, a) { assert [a, b][0] == a; }
    if Contains(s, b) { assert [a, b][1] == b; }
  }

  /** Which groups fire on a lowercased line, as counts of 0 or 1. */
  function LineHits(lower: string): (h: seq<nat>)
    ensures |h| == |LineRules|
    ensures forall i :: 0 <= i < |LineRules| ==> h[i] == if AnyContains(lower, LineRules[i].keywords) then 1 else 0
  {
    seq(|LineRules|, i requires 0 <= i < |LineRules| => if AnyContains(lower, LineRules[i].keywords) then 1 else 0)
  }

  function LineWeights(): (w: seq<nat>)
    ensures |w| == |LineRules|
    ensures forall i :: 0 <= i < |LineRules| ==> w[i] == LineRules[i].risk
  {
    seq(|LineRules|, i requires 0 <= i < |LineRules| => LineRules[i].risk)
  }

  function ThreatOf(r: KeywordRule, n: nat): LogThreat {
    r.threat
  }

  function TechniqueOf(r: KeywordRule, n: nat): string {
    r.threat.technique
  }

  datatype LineAnalysis = LineAnalysis(threats: seq<LogThreat>, mitreTechniques: seq<string>, riskScore: nat)

  /** The analysis after testing a line's first `k` keyword groups, in order. */
  function LinePrefix(lower: string, k: nat): LineAnalysis
    requires k <= |LineRules|
  {
    if k == 0 then LineAnalysis([], [], 0)
    else
      var before := LinePrefix(lower, k - 1);
      var g := LineRules[k - 1];
      if AnyContains(lower, g.keywords)
      then LineAnalysis(before.threats + [g.threat], before.mitreTechniques + [g.threat.technique], before.riskScore + g.risk)
      else before
  }

  /** What analyzeLogLine reports for a line. */
  function LineSpec(line: string): LineAnalysis {
    LinePrefix(Lower(line), |LineRules|)
  }

  /**
   * The group-by-group analysis is the shared rule-table reading: the
   * threats and techniques of the groups that fired, in table order, and the
   * total of their risks.
   */
  lemma {:induction false} LinePrefixIsDetections(lower: string, k: nat)
    requires k <= |LineRules|
    ensures var h := LineHits(lower);
            LinePrefix(lower, k)
            == LineAnalysis(Detections(LineRules[..k], h[..k], ThreatOf),
                            Detections(LineRules[..k], h[..k], TechniqueOf),
                            Total(LineWeights()[..k], h[..k]))
  {
    var h := LineHits(lower);
    if k == 0 {
      assert LineRules[..0] == [] && LineWeights()[..0] == [] && h[..0] == [];
    } else {
      LinePrefixIsDetections(lower, k - 1);
      DetectionsStep(LineRules, h, ThreatOf, k - 1);
      DetectionsStep(LineRules, h, TechniqueOf, k - 1);
      TotalStep(LineWeights(), h, k - 1);
    }
  }

  /** One keyword block of analyzeLogLine: when the group was found, push its threat and technique and add its risk. */
  method PushIfFound(a: LineAnalysis, found: bool, threat: LogThreat, technique: string, risk: nat) returns (r: LineAnalysis)
    ensures r == if found then LineAnalysis(a.threats + [threat], a.mitreTechniques + [technique], a.riskScore + risk) else a
  {
    r := a;
    if found {
      r := LineAnalysis(r.threats + [threat], r.mitreTechniques + [technique], r.riskScore + risk);
    }
  }

  /**
   * analyzeLogLine: each keyword group found in the lowercased line adds its
   * threat, its technique and its risk, in the order the groups are tested.
   */
  method AnalyzeLogLine(line: string) returns (a: LineAnalysis)
    ensures a == LineSpec(line)
    ensures |a.threats| == |a.mitreTechniques|
    ensures a.riskScore <= 210
  {
    var lowerLine := Lower(line);
    a := LineAnalysis([], [], 0);

    // Brute force
    a := PushIfFound(a, AnyContains(lowerLine, ["failed login", "authentication failure"]), BruteForce, "T1110", 30);
    assert a == LinePrefix(lowerLine, 1);

    // Unauthorized access
    a := PushIfFound(a, AnyContains(lowerLine, ["unauthorized access", "access denied"]), UnauthorizedAccess, "T1078", 50);
    assert a == LinePrefix(lowerLine, 2);

    // Malware
    a := PushIfFound(a, AnyContains(lowerLine, ["malware", "virus", "trojan"]), MalwareDetection, "T1059", 60);
    assert a == LinePrefix(lowerLine, 3);

    // Command execution
    a := PushIfFound(a, AnyContains(lowerLine, ["cmd.exe", "powershell", "bash"]), CommandExecution, "T1059", 25);
    assert a == LinePrefix(lowerLine, 4);

    // File system access
    a := PushIfFound(a, AnyContains(lowerLine, ["file access", "directory listing"]), FileSystemDiscovery, "T1083", 20);
    assert a == LinePrefix(lowerLine, 5);

    // Network activity
    a := PushIfFound(a, AnyContains(lowerLine, ["network connection", "outbound connection"]), SuspiciousNetwork, "T1071", 25);
    assert a == LinePrefix(lowerLine, 6);

    LineBounds(line);
  }

  /** The sum of the risks of the first `k` groups. */
  function RiskCap(k: nat): nat
    requires k <= |LineRules|
  {
    if k == 0 then 0 else RiskCap(k - 1) + LineRules[k - 1].risk
  }

  /**
   * Every firing group adds exactly one threat and one technique, the j-th
   * technique being the j-th threat's; the risk is at most the sum of the
   * tested groups' risks, and zero exactly when nothing fired.
   */
  lemma {:induction false} LinePrefixBounds(lower: string, k: nat)
    requires k <= |LineRules|
    ensures var a := LinePrefix(lower, k);
            |a.threats| == |a.mitreTechniques|
            && (forall j :: 0 <= j < |a.threats| ==> a.mitreTechniques[j] == a.threats[j].technique)
            && a.riskScore <= RiskCap(k)
            && (a.riskScore == 0 <==> a.threats == [])
  {
    if k > 0 {
      LinePrefixBounds(lower, k - 1);
    }
  }

  /** A line's risk is at most 30 + 50 + 60 + 25 + 20 + 25 = 210, and zero exactly when no group fired. */
  lemma LineBounds(line: string)
    ensures var a := LineSpec(line);
            |a.threats| == |a.mitreTechniques|
            && (forall k :: 0 <= k < |a.threats| ==> a.mitreTechniques[k] == a.threats[k].technique)
            && a.riskScore <= 210
            && (a.riskScore == 0 <==> a.threats == [])
  {
    LinePrefixBounds(Lower(line), |LineRules|);
    assert RiskCap(6) == 210;
  }

  // ---------------------------------------------------------------------------
  // Order-keeping de-duplication: extractIOCs and `[...new Set(xs)]`
  // ---------------------------------------------------------------------------

  /** No element occurs twice. */
  predicate Distinct(s: seq<string>) {
    forall a, b :: 0 <= a < b < |s| ==> s[a] != s[b]
  }

  /**
   * `items.forEach(x => { if (!list.includes(x)) list.push(x) })`: the list
   * keeps its entries and gains the new items in order of first appearance.
   */
  function AddUnseen(list: seq<string>, items: seq<string>): (r: seq<string>)
    ensures |list| <= |r| && r[..|list|] == list
    ensures forall x :: x in r <==> x in list || x in items
    ensures Distinct(list) ==> Distinct(r)
  {
    if items == [] then list
    else
      var l := AddUnseen(list, items[..|items| - 1]);
      var x := items[|items| - 1];
      assert forall y :: y in items <==> y in items[..|items| - 1] || y == x;
      if x in l then l
      else
        assert forall a :: 0 <= a < |l| ==> l[a] != x;
        l + [x]
  }

  /** `[...new Set(xs)]`: the distinct elements in order of first occurrence. */
  function Dedupe(xs: seq<string>): (r: seq<string>)
    ensures Distinct(r)
    ensures forall x :: x in r <==> x in xs
  {
    AddUnseen([], xs)
  }

  /** A list without repetitions is its own de-duplication. */
  lemma {:induction false} DedupeOfDistinct(xs: seq<string>)
    requires Distinct(xs)
    ensures Dedupe(xs) == xs
  {
    if xs != [] {
      var init := xs[..|xs| - 1];
      assert Distinct(init);
      DedupeOfDistinct(init);
      assert xs[|xs| - 1] !in init;
      assert xs == init + [xs[|xs| - 1]];
    }
  }

  /** De-duplication is idempotent. */
  lemma DedupeIdempotent(xs: seq<string>)
    ensures Dedupe(Dedupe(xs)) == Dedupe(xs)
  {
    DedupeOfDistinct(Dedupe(xs));
  }

  /** Adding two runs of items one after the other is adding their concatenation. */
  lemma {:induction false} AddUnseenConcat(list: seq<string>, a: seq<string>, b: seq<string>)
    ensures AddUnseen(list, a + b) == AddUnseen(AddUnseen(list, a), b)
  {
    if b != [] {
      var init := b[..|b| - 1];
      assert (a + b)[..|a + b| - 1] == a + init;
      assert (a + b)[|a + b| - 1] == b[|b| - 1];
      AddUnseenConcat(list, a, init);
    } else {
      assert a + b == a;
    }
  }

  /**
   * On a list without repetitions, adding unseen items is de-duplicating the
   * list followed by the items: so the new items arrive in order of first
   * appearance (DedupeFirstOccurrenceOrder).
   */
  lemma AddUnseenIsDedupe(list: seq<string>, items: seq<string>)
    requires Distinct(list)
    ensures AddUnseen(list, items) == Dedupe(list + items)
  {
    AddUnseenConcat([], list, items);
    DedupeOfDistinct(list);
  }

  /** The position of the first occurrence of `x` in `xs`. */
  function FirstIndex(xs: seq<string>, x: string): (i: nat)
    requires x in xs
    ensures i < |xs| && xs[i] == x && x !in xs[..i]
  {
    var init := xs[..|xs| - 1];
    if x in init then
      var i := FirstIndex(init, x);
      assert xs[..i] == init[..i];
      i
    else
      assert xs[..|xs| - 1] == init;
      |xs| - 1
  }

  /** `new Set(xs)` keeps first-occurrence order: earlier entries first occur earlier in `xs`. */
  lemma {:induction false} DedupeFirstOccurrenceOrder(xs: seq<string>)
    ensures forall i, j :: 0 <= i < j < |Dedupe(xs)| ==> FirstIndex(xs, Dedupe(xs)[i]) < FirstIndex(xs, Dedupe(xs)[j])
  {
    if xs != [] {
      var init := xs[..|xs| - 1];
      var x := xs[|xs| - 1];
      DedupeFirstOccurrenceOrder(init);
      var d := Dedupe(init);
      assert forall y :: y in init ==> FirstIndex(xs, y) == FirstIndex(init, y);
      if x !in init {
        assert Dedupe(xs) == d + [x];
        assert FirstIndex(xs, x) == |xs| - 1;
        forall i | 0 <= i < |d|
          ensures FirstIndex(xs, d[i]) < |xs| - 1
        {
          assert d[i] in init;
        }
      } else {
        assert Dedupe(xs) == d;
        forall i | 0 <= i < |d|
          ensures d[i] in init
        {
          assert d[i] in d;
        }
      }
    }
  }

  /** The loop of extractIOCs for one indicator kind. */
  method PushUnseen(list: seq<string>, items: seq<string>) returns (r: seq<string>)
    ensures r == AddUnseen(list, items)
  {
    r := list;
    var i := 0;
    while i < |items|
      invariant 0 <= i <= |items|
      invariant r == AddUnseen(list, items[..i])
    {
      assert items[..i + 1][..i] == items[..i];
      if items[i] !in r {
        r := r + [items[i]];
      }
      i := i + 1;
    }
    assert items[..i] == items;
  }

  const IpPattern: string := @"/\b(?:[0-9]{1,3}\.){3}[0-9]{1,3}\b/g"
  const DomainPattern: string := @"/\b[a-zA-Z0-9-]+\.(?:com|org|net|edu|gov|mil|int|co|uk|de|fr|jp|au|ca|us|tk|ml|ga|cf)\b/g"
  const HashPattern: string := @"/\b[a-fA-F0-9]{32,64}\b/g"
  const UrlPattern: string := @"/https?:\/\/[^\s]+/g"

  /** The `iocs` object analyzeLogs builds up line by line. */
  class IocLists {
    var ips: seq<string>
    var domains: seq<string>
    var hashes: seq<string>
    var urls: seq<string>

    /** Each list is free of duplicates. */
    predicate Valid()
      reads this
    {
      Distinct(ips) && Distinct(domains) && Distinct(hashes) && Distinct(urls)
    }

    constructor ()
      ensures Valid() && ips == [] && domains == [] && hashes == [] && urls == []
    {
      ips, domains, hashes, urls := [], [], [], [];
    }

    /** extractIOCs: each kind's matches in the line are appended when not yet listed. */
    method ExtractIOCs(line: string, matchAll: (string, string) -> seq<string>)
      modifies this
      ensures ips == AddUnseen(old(ips), matchAll(IpPattern, line))
      ensures domains == AddUnseen(old(domains), matchAll(DomainPattern, line))
      ensures hashes == AddUnseen(old(hashes), matchAll(HashPattern, line))
      ensures urls == AddUnseen(old(urls), matchAll(UrlPattern, line))
      ensures old(Valid()) ==> Valid()
    {
      ips := PushUnseen(ips, matchAll(IpPattern, line));
      domains := PushUnseen(domains, matchAll(DomainPattern, line));
      hashes := PushUnseen(hashes, matchAll(HashPattern, line));
      urls := PushUnseen(urls, matchAll(UrlPattern, line));
    }
  }

  // ---------------------------------------------------------------------------
  // analyzeLogs
  // ---------------------------------------------------------------------------

  /** `logs.split('\n').filter(line => line.trim())` */
  function NonBlankLines(logs: string): (lines: seq<string>)
    ensures forall k :: 0 <= k < |lines| ==> Trim(lines[k]) != ""
  {
    var lines := KeepNonBlank(Split(logs, '\n'));
    assert forall k :: 0 <= k < |lines| ==> lines[k] in lines;
    lines
  }

  function KeepNonBlank(lines: seq<string>): (r: seq<string>)
    ensures |r| <= |lines|
    ensures forall x :: x in r <==> x in lines && Trim(x) != ""
  {
    if lines == [] then []
    else
      var init := KeepNonBlank(lines[..|lines| - 1]);
      var last := lines[|lines| - 1];
      assert forall x :: x in lines <==> x in lines[..|lines| - 1] || x == last;
      if Trim(last) != "" then init + [last] else init
  }

  /** The blank-line filter works line by line: filtering a concatenation filters each half. */
  lemma {:induction false} KeepNonBlankConcat(a: seq<string>, b: seq<string>)
    ensures KeepNonBlank(a + b) == KeepNonBlank(a) + KeepNonBlank(b)
  {
    if b == [] {
      assert a + b == a;
    } else {
      var init, last := b[..|b| - 1], b[|b| - 1];
      assert a + b == (a + init) + [last];
      assert b == init + [last];
      KeepNonBlankConcat(a, init);
      KeepNonBlankSnoc(a + init, last);
      KeepNonBlankSnoc(init, last);
    }
  }

  lemma KeepNonBlankSnoc(lines: seq<string>, line: string)
    ensures KeepNonBlank(lines + [line]) == KeepNonBlank(lines) + (if Trim(line) != "" then [line] else [])
  {
    assert (lines + [line])[..|lines|] == lines;
  }

  /** A single line is kept exactly when it is not blank. */
  lemma KeepNonBlankOne(line: string)
    ensures KeepNonBlank([line]) == if Trim(line) != "" then [line] else []
  {
    assert [line][..0] == [];
  }

  /** An indicator list after all lines: every line's matches appended when unseen. */
  function Collected(lines: seq<string>, matchAll: (string, string) -> seq<string>, pattern: string): seq<string> {
    if lines == [] then [] else AddUnseen(Collected(lines[..|lines| - 1], matchAll, pattern), matchAll(pattern, lines[|lines| - 1]))
  }

  /** Every match of the pattern, line after line, repetitions included. */
  function AllMatches(lines: seq<string>, matchAll: (string, string) -> seq<string>, pattern: string): seq<string> {
    if lines == [] then [] else AllMatches(lines[..|lines| - 1], matchAll, pattern) + matchAll(pattern, lines[|lines| - 1])
  }

  /**
   * An indicator list after all lines is `[...new Set(all matches)]`: every
   * indicator once, in order of its first appearance in the log
   * (DedupeFirstOccurrenceOrder).
   */
  lemma {:induction false} CollectedIsDedupe(lines: seq<string>, matchAll: (string, string) -> seq<string>, pattern: string)
    ensures Collected(lines, matchAll, pattern) == Dedupe(AllMatches(lines, matchAll, pattern))
  {
    if lines != [] {
      var init := lines[..|lines| - 1];
      CollectedIsDedupe(init, matchAll, pattern);
      AddUnseenConcat([], AllMatches(init, matchAll, pattern), matchAll(pattern, lines[|lines| - 1]));
    }
  }

  datatype TimelineEntry = TimelineEntry(timestamp: string, line: string, threats: seq<LogThreat>, riskScore: nat)

  /** `extractTimestamp`: the first timestamp in the line, else the current time. */
  function TimestampOf(line: string, timestampOf: string -> Option<string>, nowIso: string): string {
    timestampOf(line).GetOr(nowIso)
  }

  function TimelineOf(line: string, timestampOf: string -> Option<string>, nowIso: string): TimelineEntry {
    TimelineEntry(TimestampOf(line, timestampOf, nowIso), line, LineSpec(line).threats, LineSpec(line).riskScore)
  }

  /** The running fields of the analysis: threats, techniques before de-duplication, the unclamped risk sum, the timeline. */
  datatype Scan = Scan(threats: seq<LogThreat>, mitreTechniques: seq<string>, riskScore: nat, timeline: seq<TimelineEntry>)

  /** One line's contribution: its threats, techniques and risk, and its timeline entry. */
  function Extend(acc: Scan, line: string, timestampOf: string -> Option<string>, nowIso: string): Scan {
    var a := LineSpec(line);
    Scan(acc.threats + a.threats, acc.mitreTechniques + a.mitreTechniques, acc.riskScore + a.riskScore,
         acc.timeline + [TimelineOf(line, timestampOf, nowIso)])
  }

  /** The running fields after all of `lines`. */
  function ScanLines(lines: seq<string>, timestampOf: string -> Option<string>, nowIso: string): Scan {
    if lines == [] then Scan([], [], 0, [])
    else Extend(ScanLines(lines[..|lines| - 1], timestampOf, nowIso), lines[|lines| - 1], timestampOf, nowIso)
  }

  /** Taking one more line extends the running fields and the indicator lists by that line. */
  lemma LinesStep(lines: seq<string>, i: nat, matchAll: (string, string) -> seq<string>,
                  timestampOf: string -> Option<string>, nowIso: string)
    requires i < |lines|
    ensures ScanLines(lines[..i + 1], timestampOf, nowIso) == Extend(ScanLines(lines[..i], timestampOf, nowIso), lines[i], timestampOf, nowIso)
    ensures forall pattern :: Collected(lines[..i + 1], matchAll, pattern)
                              == AddUnseen(Collected(lines[..i], matchAll, pattern), matchAll(pattern, lines[i]))
  {
    assert lines[..i + 1][..i] == lines[..i];
  }

  /** The timeline holds one entry per line, in order, each with that line's own threats and risk. */
  lemma {:induction false} ScanTimeline(lines: seq<string>, timestampOf: string -> Option<string>, nowIso: string)
    ensures var t := ScanLines(lines, timestampOf, nowIso).timeline;
            |t| == |lines| && forall k :: 0 <= k < |lines| ==> t[k] == TimelineOf(lines[k], timestampOf, nowIso)
  {
    if lines != [] {
      var init := lines[..|lines| - 1];
      ScanTimeline(init, timestampOf, nowIso);
      assert forall k :: 0 <= k < |init| ==> init[k] == lines[k];
    }
  }

  /** Each line adds at most 210 to the unclamped sum. */
  lemma {:induction false} RiskSumBounded(lines: seq<string>, timestampOf: string -> Option<string>, nowIso: string)
    ensures ScanLines(lines, timestampOf, nowIso).riskScore <= 210 * |lines|
  {
    if lines != [] {
      RiskSumBounded(lines[..|lines| - 1], timestampOf, nowIso);
      LineBounds(lines[|lines| - 1]);
    }
  }

  datatype SocRecommendation = SocRecommendation(priority: string, action: string, steps: seq<string>)

  datatype LogAnalysis = LogAnalysis(
    threats: seq<LogThreat>,
    mitreTechniques: seq<string>,
    riskScore: int,
    recommendations: seq<SocRecommendation>,
    timeline: seq<TimelineEntry>)

  /**
   * The callback analyzeLogs runs on each line: score it, add its threats,
   * techniques and risk when it has threats, collect its indicators, and put
   * it on the timeline.
   */
  method ScanLine(acc: Scan, line: string, iocs: IocLists, matchAll: (string, string) -> seq<string>,
                  timestampOf: string -> Option<string>, nowIso: string)
    returns (r: Scan)
    modifies iocs
    ensures r == Extend(acc, line, timestampOf, nowIso)
    ensures iocs.ips == AddUnseen(old(iocs.ips), matchAll(IpPattern, line))
    ensures iocs.domains == AddUnseen(old(iocs.domains), matchAll(DomainPattern, line))
    ensures iocs.hashes == AddUnseen(old(iocs.hashes), matchAll(HashPattern, line))
    ensures iocs.urls == AddUnseen(old(iocs.urls), matchAll(UrlPattern, line))
    ensures old(iocs.Valid()) ==> iocs.Valid()
  {
    var timestamp := TimestampOf(line, timestampOf, nowIso);
    var threatAnalysis := AnalyzeLogLine(line);
    LineBounds(line);
    r := acc;
    if |threatAnalysis.threats| > 0 {
      r := r.(threats := r.threats + threatAnalysis.threats,
              mitreTechniques := r.mitreTechniques + threatAnalysis.mitreTechniques,
              riskScore := r.riskScore + threatAnalysis.riskScore);
    }
    iocs.ExtractIOCs(line, matchAll);
    r := r.(timeline := r.timeline + [TimelineEntry(timestamp, line, threatAnalysis.threats, threatAnalysis.riskScore)]);
  }

  /**
   * analyzeLogs: every non-blank line is scored, mined for indicators and
   * put on the timeline in order; recommendations are taken from the
   * unclamped risk sum, then the techniques are de-duplicated and the risk
   * clamped to 100.
   */
  method AnalyzeLogs(logs: string, matchAll: (string, string) -> seq<string>,
                     timestampOf: string -> Option<string>, nowIso: string)
    returns (a: LogAnalysis, iocs: IocLists)
    ensures fresh(iocs) && iocs.Valid()
    ensures var lines := NonBlankLines(logs);
            var scan := ScanLines(lines, timestampOf, nowIso);
            a.timeline == scan.timeline
            && a.threats == scan.threats
            && a.mitreTechniques == Dedupe(scan.mitreTechniques)
            && a.riskScore == Min100(scan.riskScore)
            && a.recommendations == GenerateRecommendations(scan.riskScore)
            && iocs.ips == Collected(lines, matchAll, IpPattern)
            && iocs.domains == Collected(lines, matchAll, DomainPattern)
            && iocs.hashes == Collected(lines, matchAll, HashPattern)
            && iocs.urls == Collected(lines, matchAll, UrlPattern)
  {
    var logLines := NonBlankLines(logs);
    var acc := Scan([], [], 0, []);
    iocs := new IocLists();
    var i := 0;
    while i < |logLines|
      invariant 0 <= i <= |logLines|
      invariant acc == ScanLines(logLines[..i], timestampOf, nowIso)
      invariant iocs.Valid()
      invariant iocs.ips == Collected(logLines[..i], matchAll, IpPattern)
      invariant iocs.domains == Collected(logLines[..i], matchAll, DomainPattern)
      invariant iocs.hashes == Collected(logLines[..i], matchAll, HashPattern)
      invariant iocs.urls == Collected(logLines[..i], matchAll, UrlPattern)
    {
      LinesStep(logLines, i, matchAll, timestampOf, nowIso);
      acc := ScanLine(acc, logLines[i], iocs, matchAll, timestampOf, nowIso);
      i := i + 1;
    }
    assert logLines[..i] == logLines;
    var recommendations := GenerateRecommendations(acc.riskScore);
    a := LogAnalysis(acc.threats, Dedupe(acc.mitreTechniques), Min100(acc.riskScore), recommendations, acc.timeline);
  }

  /**
   * The recommendation is read off the unclamped sum, but every threshold is
   * below 100, so the clamped score would give the same one.
   */
  lemma RecommendationIgnoresClamp(sum: nat)
    ensures GenerateRecommendations(Min100(sum)) == GenerateRecommendations(sum)
  {
  }

  // ---------------------------------------------------------------------------
  // generateRecommendations
  // ---------------------------------------------------------------------------

  /** The four entries of generateRecommendations, by priority. */
  const CriticalResponse := SocRecommendation("Critical", "Immediate containment required",
    ["Isolate affected systems", "Block malicious IPs and domains", "Notify incident response team",
     "Preserve evidence for forensics"])
  const HighResponse := SocRecommendation("High", "Enhanced monitoring and investigation",
    ["Increase monitoring on affected systems", "Check for lateral movement", "Review access logs",
     "Update security controls"])
  const MediumResponse := SocRecommendation("Medium", "Standard investigation procedures",
    ["Document the incident", "Monitor for additional activity", "Review security policies",
     "Update threat intelligence"])
  const LowResponse := SocRecommendation("Low", "Routine monitoring",
    ["Continue normal monitoring", "Document for future reference", "Review security awareness"])

  /** generateRecommendations: exactly one entry, by the risk score: above 80, 50 and 20. */
  function GenerateRecommendations(riskScore: int): (r: seq<SocRecommendation>)
    ensures |r| == 1
    ensures r[0].priority == "Critical" <==> riskScore > 80
    ensures r[0].priority == "High" <==> 50 < riskScore <= 80
    ensures r[0].priority == "Medium" <==> 20 < riskScore <= 50
    ensures r[0].priority == "Low" <==> riskScore <= 20
  {
    if riskScore > 80 then [CriticalResponse]
    else if riskScore > 50 then [HighResponse]
    else if riskScore > 20 then [MediumResponse]
    else [LowResponse]
  }

  // ---------------------------------------------------------------------------
  // IOC reputation
  // ---------------------------------------------------------------------------

  const MaliciousIPs: seq<string> := ["10.0.0.1", "172.16.0.1", "192.168.1.1"]
  const SuspiciousIPs: seq<string> := ["203.0.113.42", "198.51.100.1", "192.0.2.1"]
  const MaliciousDomains: seq<string> := ["malware.com", "phishing.net", "evil.org"]
  const SuspiciousDomains: seq<string> := ["example.com", "test.org", "suspicious.net"]
  const MaliciousHashes: seq<string> := ["a1b2c3d4e5f6", "1234567890ab", "deadbeef1234"]

  /** The malicious list first, then the suspicious list, else Clean. */
  function ListReputation(x: string, malicious: seq<string>, suspicious: seq<string>): (rep: string)
    ensures rep == "Malicious" <==> x in malicious
    ensures rep == "Suspicious" <==> x !in malicious && x in suspicious
    ensures rep == "Clean" <==> x !in malicious && x !in suspicious
  {
    if x in malicious then "Malicious" else if x in suspicious then "Suspicious" else "Clean"
  }

  function GetIPReputation(ip: string): string {
    ListReputation(ip, MaliciousIPs, SuspiciousIPs)
  }

  function GetDomainReputation(domain: string): string {
    ListReputation(domain, MaliciousDomains, SuspiciousDomains)
  }

  /** getHashReputation: the lowercased hash against the malicious list; there is no suspicious list. */
  function GetHashReputation(hash: string): (rep: string)
    ensures rep == "Malicious" <==> Lower(hash) in MaliciousHashes
    ensures rep == "Malicious" || rep == "Clean"
  {
    ListReputation(Lower(hash), MaliciousHashes, [])
  }

  /** Hash lookups ignore case. */
  lemma HashReputationIgnoresCase(h1: string, h2: string)
    requires Lower(h1) == Lower(h2)
    ensures GetHashReputation(h1) == GetHashReputation(h2)
  {
  }

  /**
   * The listed malicious hashes are 12 characters long, so a hash of the
   * 32 to 64 characters that extractIOCs collects is always Clean.
   */
  lemma ExtractedHashesAreClean(hash: string)
    requires |hash| >= 32
    ensures GetHashReputation(hash) == "Clean"
  {
    assert |Lower(hash)| >= 32;
    assert forall k :: 0 <= k < |MaliciousHashes| ==> |MaliciousHashes[k]| == 12;
  }

  datatype IocReputation = IocReputation(
    ioc: string,
    kind: string,
    reputation: string,
    confidence: nat,
    sources: seq<string>,
    lastSeen: Option<string>,
    tags: seq<string>)

  /** checkIOCReputation: ip, domain and hash are looked up with confidence 85, 90, 95; any other type stays Unknown. */
  function CheckIOCReputation(ioc: string, kind: string): (r: IocReputation)
    ensures r.ioc == ioc && r.kind == kind && r.lastSeen.None?
    ensures kind == "ip" ==> r.reputation == GetIPReputation(ioc) && r.confidence == 85
    ensures kind == "domain" ==> r.reputation == GetDomainReputation(ioc) && r.confidence == 90
    ensures kind == "hash" ==> r.reputation == GetHashReputation(ioc) && r.confidence == 95
    ensures kind !in {"ip", "domain", "hash"} <==> r.reputation == "Unknown"
    ensures kind !in {"ip", "domain", "hash"} <==> r.confidence == 0 && r.sources == [] && r.tags == []
  {
    if kind == "ip" then
      IocReputation(ioc, kind, GetIPReputation(ioc), 85, ["AbuseIPDB", "VirusTotal"], None, ["malware", "phishing"])
    else if kind == "domain" then
      IocReputation(ioc, kind, GetDomainReputation(ioc), 90, ["VirusTotal", "OpenPhish"], None, ["phishing", "malware"])
    else if kind == "hash" then
      IocReputation(ioc, kind, GetHashReputation(ioc), 95, ["VirusTotal", "Hybrid Analysis"], None, ["trojan", "backdoor"])
    else
      IocReputation(ioc, kind, "Unknown", 0, [], None, [])
  }

  // ---------------------------------------------------------------------------
  // mapToMitreAttack and enrichThreatIntelligence
  // ---------------------------------------------------------------------------

  datatype MitreRule = MitreRule(keywords: seq<string>, technique: string, tactic: string)

  /** The techniques and tactics of mapToMitreAttack. */
  const BruteForceTechnique: string := "T1110 - Brute Force"
  const CredentialAccess: string := "Credential Access"
  const ValidAccountsTechnique: string := "T1078 - Valid Accounts"
  const DefenseEvasion: string := "Defense Evasion"
  const ScriptingTechnique: string := "T1059 - Command and Scripting Interpreter"
  const ExecutionTactic: string := "Execution"
  const DiscoveryTechnique: string := "T1083 - File and Directory Discovery"
  const DiscoveryTactic: string := "Discovery"

  /** The four keyword groups of mapToMitreAttack, in the order they are tested. */
  const MitreRules: seq<MitreRule> := [
    MitreRule(["brute force", "failed login"], BruteForceTechnique, CredentialAccess),
    MitreRule(["unauthorized", "access"], ValidAccountsTechnique, DefenseEvasion),
    MitreRule(["malware", "virus"], ScriptingTechnique, ExecutionTactic),
    MitreRule(["file", "directory"], DiscoveryTechnique, DiscoveryTactic)
  ]

  function MitreHits(lower: string): (h: seq<nat>)
    ensures |h| == |MitreRules|
    ensures forall i :: 0 <= i < |MitreRules| ==> h[i] == if AnyContains(lower, MitreRules[i].keywords) then 1 else 0
  {
    seq(|MitreRules|, i requires 0 <= i < |MitreRules| => if AnyContains(lower, MitreRules[i].keywords) then 1 else 0)
  }

  function TechniqueName(r: MitreRule, n: nat): string {
    r.technique
  }

  function TacticName(r: MitreRule, n: nat): string {
    r.tactic
  }

  datatype MitreMapping = MitreMapping(techniques: seq<string>, tactics: seq<string>, confidence: nat, description: string)

  /** The techniques and tactics of a description's first `k` keyword groups, in order. */
  function MitrePrefix(lower: string, k: nat): (seq<string>, seq<string>)
    requires k <= |MitreRules|
  {
    if k == 0 then ([], [])
    else
      var before := MitrePrefix(lower, k - 1);
      var g := MitreRules[k - 1];
      if AnyContains(lower, g.keywords) then (before.0 + [g.technique], before.1 + [g.tactic]) else before
  }

  /** The group-by-group mapping is the shared rule-table reading of the groups that fired. */
  lemma {:induction false} MitrePrefixIsDetections(lower: string, k: nat)
    requires k <= |MitreRules|
    ensures MitrePrefix(lower, k).0 == Detections(MitreRules[..k], MitreHits(lower)[..k], TechniqueName)
    ensures MitrePrefix(lower, k).1 == Detections(MitreRules[..k], MitreHits(lower)[..k], TacticName)
  {
    var h := MitreHits(lower);
    if k == 0 {
      assert MitreRules[..0] == [] && h[..0] == [];
    } else {
      MitrePrefixIsDetections(lower, k - 1);
      DetectionsStep(MitreRules, h, TechniqueName, k - 1);
      DetectionsStep(MitreRules, h, TacticName, k - 1);
      var g := MitreRules[k - 1];
      var before := MitrePrefix(lower, k - 1);
      if AnyContains(lower, g.keywords) {
        assert h[k - 1] == 1;
        assert MitrePrefix(lower, k) == (before.0 + [g.technique], before.1 + [g.tactic]);
      } else {
        assert h[k - 1] == 0;
        assert MitrePrefix(lower, k) == before;
      }
    }
  }

  /**
   * mapToMitreAttack: each keyword group found in the lowercased description
   * adds its technique and its tactic together; confidence is 85 when at
   * least one technique was found, else 0.
   */
  method MapToMitreAttack(threatDescription: string) returns (m: MitreMapping)
    ensures (m.techniques, m.tactics) == MitrePrefix(Lower(threatDescription), |MitreRules|)
    ensures |m.techniques| == |m.tactics|
    ensures forall k :: 0 <= k < |m.techniques| ==> MitreRule([], m.techniques[k], m.tactics[k]) in PairsOf(MitreRules)
    ensures m.confidence == 85 <==> m.techniques != []
    ensures m.confidence == 0 <==> m.techniques == []
    ensures m.description == threatDescription
  {
    var lowerDesc := Lower(threatDescription);
    var techniques: seq<string> := [];
    var tactics: seq<string> := [];

    AnyOfTwo(lowerDesc, "brute force", "failed login");
    if Contains(lowerDesc, "brute force") || Contains(lowerDesc, "failed login") {
      techniques := techniques + [BruteForceTechnique];
      tactics := tactics + [CredentialAccess];
    }
    assert techniques == MitrePrefix(lowerDesc, 1).0 && tactics == MitrePrefix(lowerDesc, 1).1;

    AnyOfTwo(lowerDesc, "unauthorized", "access");
    if Contains(lowerDesc, "unauthorized") || Contains(lowerDesc, "access") {
      techniques := techniques + [ValidAccountsTechnique];
      tactics := tactics + [DefenseEvasion];
    }
    assert techniques == MitrePrefix(lowerDesc, 2).0 && tactics == MitrePrefix(lowerDesc, 2).1;

    AnyOfTwo(lowerDesc, "malware", "virus");
    if Contains(lowerDesc, "malware") || Contains(lowerDesc, "virus") {
      techniques := techniques + [ScriptingTechnique];
      tactics := tactics + [ExecutionTactic];
    }
    assert techniques == MitrePrefix(lowerDesc, 3).0 && tactics == MitrePrefix(lowerDesc, 3).1;

    AnyOfTwo(lowerDesc, "file", "directory");
    if Contains(lowerDesc, "file") || Contains(lowerDesc, "directory") {
      techniques := techniques + [DiscoveryTechnique];
      tactics := tactics + [DiscoveryTactic];
    }
    assert techniques == MitrePrefix(lowerDesc, 4).0 && tactics == MitrePrefix(lowerDesc, 4).1;
    assert MitreRules[..4] == MitreRules;
    MitrePairs(lowerDesc);
    m := MitreMapping(techniques, tactics, if |techniques| > 0 then 85 else 0, threatDescription);
  }

  /** The table's (technique, tactic) pairs, keywords dropped. */
  function PairsOf(rules: seq<MitreRule>): (p: seq<MitreRule>)
    ensures |p| == |rules|
    ensures forall i :: 0 <= i < |rules| ==> p[i] == MitreRule([], rules[i].technique, rules[i].tactic)
  {
    seq(|rules|, i requires 0 <= i < |rules| => MitreRule([], rules[i].technique, rules[i].tactic))
  }

  /** Techniques and tactics grow in lockstep: the k-th of each come from the same table row. */
  lemma MitrePairs(lower: string)
    ensures var (te, ta) := MitrePrefix(lower, |MitreRules|);
            |te| == |ta|
            && forall k :: 0 <= k < |te| ==> MitreRule([], te[k], ta[k]) in PairsOf(MitreRules)
  {
    var h := MitreHits(lower);
    assert MitreRules[..4] == MitreRules && h[..4] == h;
    DetectionsAreFiredRules(MitreRules, h, TechniqueName);
    DetectionsAreFiredRules(MitreRules, h, TacticName);
    MitrePrefixIsDetections(lower, |MitreRules|);
    var (te, ta) := MitrePrefix(lower, |MitreRules|);
    forall k | 0 <= k < |te|
      ensures MitreRule([], te[k], ta[k]) in PairsOf(MitreRules)
    {
      var f := Fired(h)[k];
      assert PairsOf(MitreRules)[f] == MitreRule([], te[k], ta[k]);
    }
  }

  datatype Ioc = Ioc(value: string, kind: string)

  datatype EnrichedIoc = EnrichedIoc(value: string, kind: string, reputation: string, confidence: nat, sources: seq<string>, tags: seq<string>)

  datatype Enrichment = Enrichment(enrichedIOCs: seq<EnrichedIoc>, threatActors: seq<string>, campaigns: seq<string>, confidence: nat)

  function Enrich(ioc: Ioc): EnrichedIoc {
    var rep := CheckIOCReputation(ioc.value, ioc.kind);
    EnrichedIoc(ioc.value, ioc.kind, rep.reputation, rep.confidence, rep.sources, rep.tags)
  }

  /**
   * enrichThreatIntelligence: one enriched entry per input IOC, in order,
   * carrying its reputation lookup; confidence 80 for a non-empty input.
   */
  method EnrichThreatIntelligence(iocs: seq<Ioc>) returns (e: Enrichment)
    ensures |e.enrichedIOCs| == |iocs|
    ensures forall k :: 0 <= k < |iocs| ==>
              e.enrichedIOCs[k].value == iocs[k].value && e.enrichedIOCs[k].kind == iocs[k].kind
              && e.enrichedIOCs[k].reputation == CheckIOCReputation(iocs[k].value, iocs[k].kind).reputation
              && e.enrichedIOCs[k].confidence == CheckIOCReputation(iocs[k].value, iocs[k].kind).confidence
    ensures e.confidence == (if iocs != [] then 80 else 0)
    ensures e.threatActors == [] && e.campaigns == []
  {
    var enriched: seq<EnrichedIoc> := [];
    var i := 0;
    while i < |iocs|
      invariant 0 <= i <= |iocs|
      invariant |enriched| == i
      invariant forall k :: 0 <= k < i ==> enriched[k] == Enrich(iocs[k])
    {
      var reputation := CheckIOCReputation(iocs[i].value, iocs[i].kind);
      enriched := enriched + [EnrichedIoc(iocs[i].value, iocs[i].kind, reputation.reputation, reputation.confidence,
                                          reputation.sources, reputation.tags)];
      i := i + 1;
    }
    e := Enrichment(enriched, [], [], if |enriched| > 0 then 80 else 0);
  }

  // ---------------------------------------------------------------------------
  // processSOCQuery
  // ---------------------------------------------------------------------------

  datatype SocAnswer = SocAnswer(answer: string, suggestions: seq<string>, relatedThreats: seq<string>, confidence: nat)

  /** The topic the chat answers, by the first keyword pair found in the lowercased message. */
  function SocTopic(message: string): (topic: string)
    ensures topic == "analysis" <==> Contains(Lower(message), "analyze") || Contains(Lower(message), "investigate")
    ensures topic in {"analysis", "mitre", "ioc", "general"}
  {
    var lower := Lower(message);
    if Contains(lower, "analyze") || Contains(lower, "investigate") then "analysis"
    else if Contains(lower, "mitre") || Contains(lower, "attack") then "mitre"
    else if Contains(lower, "ioc") || Contains(lower, "reputation") then "ioc"
    else "general"
  }

  const AnalysisAnswer := SocAnswer(
    "I can analyze security logs, alerts, and events. Please provide the data you want me to investigate.",
    ["Paste security logs for analysis", "Upload alert files", "Describe the incident details"], [], 85)
  const MitreAnswer := SocAnswer(
    "I can map threats to MITRE ATT&CK techniques and tactics. When you analyze logs, I'll automatically identify and map any attack techniques found.",
    ["Analyze logs for MITRE mapping", "Check specific technique details", "View attack timeline"], [], 85)
  const IocAnswer := SocAnswer(
    "I can check IOC reputation using threat intelligence feeds. I'll automatically extract and analyze IPs, domains, and hashes from your data.",
    ["Check IP reputation", "Analyze domain reputation", "Verify hash signatures"], [], 85)
  const GeneralAnswer := SocAnswer(
    "I can help with log analysis, threat intelligence, MITRE ATT&CK mapping, and incident response. What specific security question can I help you with?",
    ["Analyze security logs", "Check IOC reputation", "Map to MITRE ATT&CK", "Get incident response guidance"], [], 85)

  /** processSOCQuery: a canned answer per topic, three suggestions (four for the general one), confidence 85. */
  function ProcessSOCQuery(message: string): (r: SocAnswer)
    ensures r.confidence == 85 && r.relatedThreats == []
    ensures |r.suggestions| == (if SocTopic(message) == "general" then 4 else 3)
  {
    var topic := SocTopic(message);
    if topic == "analysis" then AnalysisAnswer
    else if topic == "mitre" then MitreAnswer
    else if topic == "ioc" then IocAnswer
    else GeneralAnswer
  }
}
