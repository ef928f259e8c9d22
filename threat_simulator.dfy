/**
 * backend/threat-simulator.js: the ThreatSimulator class. A registry of
 * active threats (a JavaScript Map, so insertion order is kept alongside it)
 * and an append-only history sharing the same threat objects, five threat
 * generators with fixed severity and action and bounded scores, the
 * cumulative-probability template choice, and the packet and log evidence.
 *
 * `Math.random()` draws are parameters of type Unit; `Date.now()` is `now`;
 * `crypto.randomBytes(..).toString('hex')` values and the random evidence
 * strings (IP addresses, formatted numbers, serialized bundles) are drawn
 * strings; SHA-256 and JSON serialization are function parameters.
 */
module ThreatSimulator {
  import opened Wrappers
  import opened Text

  /** A `Math.random()` draw. */
  type Unit = r: real | 0.0 <= r < 1.0

  /** `Math.floor(r * span) + base` (and `Math.floor(r * span + base)`, the same for an integer base). */
  function Scaled(r: Unit, span: nat, base: int): (k: int)
    requires span > 0
    ensures base <= k < base + span
  {
    assert r * span as real < span as real by {
      assert (1.0 - r) * span as real > 0.0;
    }
    (r * span as real + base as real).Floor
  }

  /** `list[Math.floor(r * list.length)]` as an index. */
  function Pick(r: Unit, n: nat): (k: nat)
    requires n > 0
    ensures k < n
  {
    Scaled(r, n, 0)
  }

  // ---------------------------------------------------------------------------
  // Templates and their selection
  // ---------------------------------------------------------------------------

  datatype Template = Template(kind: string, probability: real)

  /** The five templates in table order, with their selection probabilities. */
  const Templates: seq<Template> := [
    Template("deepfake_video", 0.15),
    Template("voice_clone", 0.20),
    Template("phishing_email", 0.30),
    Template("behavioral_anomaly", 0.25),
    Template("network_intrusion", 0.10)
  ]

  /** The sum of the first `k` probabilities. */
  function Cumulative(k: nat): real
    requires k <= |Templates|
  {
    if k == 0 then 0.0 else Cumulative(k - 1) + Templates[k - 1].probability
  }

  /** The first template from `k` on whose cumulative probability reaches `rand`. */
  function SelectFrom(rand: real, k: nat): (sel: Option<nat>)
    requires k <= |Templates|
    ensures sel.Some? ==> k <= sel.value < |Templates| && rand <= Cumulative(sel.value + 1)
                          && forall j :: k < j <= sel.value ==> rand > Cumulative(j)
    ensures sel.None? ==> forall j :: k < j <= |Templates| ==> rand > Cumulative(j)
    decreases |Templates| - k
  {
    if k == |Templates| then None
    else if rand <= Cumulative(k + 1) then Some(k)
    else SelectFrom(rand, k + 1)
  }

  /** The template the cumulative loop picks for `rand`, or none when `rand` exceeds the total. */
  function Selected(rand: real): Option<nat> {
    SelectFrom(rand, 0)
  }

  /** The probabilities sum to exactly 1, and every draw in [0, 1) selects a template. */
  lemma EveryDrawSelects(rand: Unit)
    ensures Cumulative(|Templates|) == 1.0
    ensures Selected(rand).Some?
  {
    assert Cumulative(5) == 1.0;
  }

  /** Selection by intervals: template i is chosen exactly for draws in (Cumulative(i), Cumulative(i + 1)]. */
  lemma SelectionIntervals(rand: Unit, i: nat)
    requires i < |Templates| && rand > 0.0
    ensures Selected(rand) == Some(i) <==> Cumulative(i) < rand <= Cumulative(i + 1)
  {
    EveryDrawSelects(rand);
    var s := Selected(rand).value;
    assert Cumulative(s) < rand <= Cumulative(s + 1);
    if i < s {
      CumulativeMonotone(i + 1, s);
    } else if s < i {
      CumulativeMonotone(s + 1, i);
    }
  }

  lemma {:induction false} CumulativeMonotone(a: nat, b: nat)
    requires a <= b <= |Templates|
    ensures Cumulative(a) <= Cumulative(b)
    decreases b - a
  {
    if a < b {
      CumulativeMonotone(a, b - 1);
    }
  }

  /** The cumulative-probability loop of generateRandomThreat. */
  method SelectTemplate(rand: real) returns (sel: Option<nat>)
    ensures sel == Selected(rand)
  {
    var cumulative := 0.0;
    var k := 0;
    while k < |Templates|
      invariant 0 <= k <= |Templates|
      invariant cumulative == Cumulative(k)
      invariant SelectFrom(rand, 0) == SelectFrom(rand, k)
    {
      cumulative := cumulative + Templates[k].probability;
      if rand <= cumulative {
        return Some(k);
      }
      k := k + 1;
    }
    return None;
  }

  // ---------------------------------------------------------------------------
  // Evidence: packet captures and system logs
  // ---------------------------------------------------------------------------

  /** The fields of the metadata object generatePacketCapture reads; absent fields are None. */
  datatype PacketMetadata = PacketMetadata(
    sourceIP: Option<string>,
    destinationIP: Option<string>,
    protocol: Option<string>,
    tcpFlags: Option<seq<string>>)

  /** The random values one packet consumes. */
  datatype PacketDraw = PacketDraw(srcIP: string, dstIP: string, size: Unit, sequence: Unit, payload: string)

  datatype Packet = Packet(
    timestamp: int,
    srcIP: string,
    dstIP: string,
    protocol: string,
    size: int,
    flags: seq<string>,
    sequence: int,
    payload: string)

  datatype PacketCapture = PacketCapture(captureTime: int, totalPackets: nat, packets: seq<Packet>, fullCaptureHash: string)

  /** SHA-256 as a hex digest, and JSON serialization of a packet list. */
  datatype Hashing = Hashing(sha256: string -> string, packetsJson: seq<Packet> -> string)

  /** `s || fallback` for an optional string: absent and empty both fall back. */
  function OrElse(s: Option<string>, fallback: string): (r: string)
    ensures r == fallback || (s.Some? && r == s.value)
  {
    if s.Some? && s.value != "" then s.value else fallback
  }

  /** `Math.floor(Math.random() * 100 + 50)` packets. */
  function PacketCount(r: Unit): (n: nat)
    ensures 50 <= n <= 149
  {
    Scaled(r, 100, 50)
  }

  /** The i-th of `count` packets. */
  function PacketAt(meta: PacketMetadata, d: PacketDraw, now: int, count: nat, i: nat): (p: Packet)
    ensures 64 <= p.size <= 1563 && 0 <= p.sequence < 1000000
    ensures p.protocol == OrElse(meta.protocol, "TCP")
    ensures p.timestamp == now - (count - i) * 10
  {
    Packet(now - (count - i) * 10,
           OrElse(meta.sourceIP, d.srcIP),
           OrElse(meta.destinationIP, d.dstIP),
           OrElse(meta.protocol, "TCP"),
           Scaled(d.size, 1500, 64),
           if meta.tcpFlags.Some? then meta.tcpFlags.value else ["SYN", "ACK"],
           Scaled(d.sequence, 1000000, 0),
           d.payload)
  }

  /** Every packet the loop builds, in order. */
  function AllPackets(meta: PacketMetadata, draws: nat -> PacketDraw, now: int, count: nat): (ps: seq<Packet>)
    ensures |ps| == count
  {
    seq(count, i requires 0 <= i < count => PacketAt(meta, draws(i), now, count, i))
  }

  /**
   * generatePacketCapture: builds 50 to 149 packets, reports their number,
   * returns the first 20 for display and hashes the full list.
   */
  method GeneratePacketCapture(meta: PacketMetadata, countDraw: Unit, draws: nat -> PacketDraw, now: int, h: Hashing)
    returns (c: PacketCapture)
    ensures c.totalPackets == PacketCount(countDraw) && 50 <= c.totalPackets <= 149
    ensures |c.packets| == 20
    ensures c.packets == AllPackets(meta, draws, now, c.totalPackets)[..20]
    ensures forall k :: 0 <= k < |c.packets| ==> c.packets[k].protocol == OrElse(meta.protocol, "TCP")
    ensures c.fullCaptureHash == h.sha256(h.packetsJson(AllPackets(meta, draws, now, c.totalPackets)))
    ensures c.captureTime == now
  {
    var packets := [];
    var packetCount := PacketCount(countDraw);
    var i := 0;
    while i < packetCount
      invariant 0 <= i <= packetCount
      invariant packets == AllPackets(meta, draws, now, packetCount)[..i]
    {
      packets := packets + [PacketAt(meta, draws(i), now, packetCount, i)];
      i := i + 1;
    }
    assert packets == AllPackets(meta, draws, now, packetCount);
    assert forall k :: 0 <= k < 20 ==> packets[..20][k] == PacketAt(meta, draws(k), now, packetCount, k);
    c := PacketCapture(now, packetCount, packets[..20], h.sha256(h.packetsJson(packets)));
  }

  const DeepfakeLogTemplates: seq<string> := [
    "Video frame analysis started",
    "Temporal artifact detected in frame sequence",
    "Lip-sync deviation calculated: {value}",
    "Voice-video synchronization check failed",
    "Behavioral pattern analysis triggered",
    "Threat score calculated: {score}"
  ]

  const VoiceCloneLogTemplates: seq<string> := [
    "Audio stream received and buffered",
    "Voiceprint extraction started",
    "Spectral analysis completed",
    "Neural voiceprint comparison initiated",
    "Clone probability threshold exceeded",
    "Alert triggered - voice authentication failed"
  ]

  const PhishingLogTemplates: seq<string> := [
    "Email received and queued for analysis",
    "SPF record verification: {result}",
    "DKIM signature check: {result}",
    "Content analysis engine started",
    "Suspicious link detected: {url}",
    "Threat classification: phishing"
  ]

  /** `logTypes[eventType] || logTypes['phishing_detection']` */
  function LogTemplatesFor(eventType: string): (t: seq<string>)
    ensures |t| == 6
    ensures eventType !in {"deepfake_detection", "voice_clone_detection"} ==> t == PhishingLogTemplates
  {
    if eventType == "deepfake_detection" then DeepfakeLogTemplates
    else if eventType == "voice_clone_detection" then VoiceCloneLogTemplates
    else PhishingLogTemplates
  }

  /** `s.replace(p, rep)` with a string pattern: only the first occurrence is replaced. */
  function ReplaceFirst(s: string, p: string, rep: string): (r: string)
    requires p != []
    ensures Find(s, p) == |s| ==> r == s
  {
    var i := Find(s, p);
    if i < |s| then s[..i] + rep + s[i + |p|..] else s
  }

  /** The random values one log line consumes; `valueText` is the formatted `{value}` number. */
  datatype LogDraw = LogDraw(template: Unit, valueText: string, score: Unit, result: Unit, ip: string, level: Unit, sessionId: string)

  datatype LogEntry = LogEntry(timestamp: int, level: string, component: string, message: string, threatId: string, sessionId: string)

  /** A template with its four placeholders filled, each at its first occurrence. */
  function LogMessage(template: string, d: LogDraw): string {
    var m1 := ReplaceFirst(template, "{value}", d.valueText);
    var m2 := ReplaceFirst(m1, "{score}", IntToString(Scaled(d.score, 30, 70)));
    var m3 := ReplaceFirst(m2, "{result}", if d.result > 0.5 then "PASS" else "FAIL");
    ReplaceFirst(m3, "{url}", "http://" + d.ip + "/phish")
  }

  const LogLevels: seq<string> := ["INFO", "WARN", "ERROR"]

  /** The i-th of `count` log lines. */
  function LogAt(eventType: string, threatId: string, d: LogDraw, now: int, count: nat, i: nat): (e: LogEntry)
    ensures e.threatId == threatId && e.component == "ThreatDetection" && e.level in LogLevels
    ensures e.timestamp == now - (count - i) * 1000
  {
    var templates := LogTemplatesFor(eventType);
    LogEntry(now - (count - i) * 1000,
             LogLevels[Pick(d.level, 3)],
             "ThreatDetection",
             LogMessage(templates[Pick(d.template, |templates|)], d),
             threatId,
             d.sessionId)
  }

  function AllLogs(eventType: string, threatId: string, draws: nat -> LogDraw, now: int, count: nat): (ls: seq<LogEntry>)
    ensures |ls| == count
  {
    seq(count, i requires 0 <= i < count => LogAt(eventType, threatId, draws(i), now, count, i))
  }

  lemma PrefixStep<T>(s: seq<T>, i: nat)
    requires i < |s|
    ensures s[..i + 1] == s[..i] + [s[i]]
  {
  }

  /** `Math.floor(Math.random() * 10 + 5)` log lines. */
  function LogCount(r: Unit): (n: nat)
    ensures 5 <= n <= 14
  {
    Scaled(r, 10, 5)
  }

  /**
   * generateSystemLogs: 5 to 14 lines, each from the event type's templates
   * (the phishing ones for an unknown type), all tagged with the threat id.
   */
  method GenerateSystemLogs(eventType: string, threatId: string, countDraw: Unit, draws: nat -> LogDraw, now: int)
    returns (logs: seq<LogEntry>)
    ensures |logs| == LogCount(countDraw) && 5 <= |logs| <= 14
    ensures logs == AllLogs(eventType, threatId, draws, now, LogCount(countDraw))
  {
    logs := [];
    var logCount := LogCount(countDraw);
    ghost var all := AllLogs(eventType, threatId, draws, now, logCount);
    var i := 0;
    while i < logCount
      invariant 0 <= i <= logCount
      invariant logs == all[..i]
    {
      var entry := LogAt(eventType, threatId, draws(i), now, logCount, i);
      PrefixStep(all, i);
      logs := logs + [entry];
      i := i + 1;
    }
    assert |all| == i;
    assert all[..i] == all;
  }

  /** Every generated log line carries the threat id and the "ThreatDetection" component, and is stamped in order. */
  lemma LogsTagged(eventType: string, threatId: string, draws: nat -> LogDraw, now: int, count: nat)
    ensures forall k :: 0 <= k < count ==>
              AllLogs(eventType, threatId, draws, now, count)[k].threatId == threatId
              && AllLogs(eventType, threatId, draws, now, count)[k].component == "ThreatDetection"
              && AllLogs(eventType, threatId, draws, now, count)[k].timestamp == now - (count - k) * 1000
  {
    var ls := AllLogs(eventType, threatId, draws, now, count);
    forall k | 0 <= k < count
      ensures ls[k].threatId == threatId && ls[k].component == "ThreatDetection"
              && ls[k].timestamp == now - (count - k) * 1000
    {
      assert ls[k] == LogAt(eventType, threatId, draws(k), now, count, k);
    }
  }

  // ---------------------------------------------------------------------------
  // The five generators
  // ---------------------------------------------------------------------------

  /** The random inputs of one generated threat. */
  datatype Draws = Draws(
    threatId: string,
    score: Unit,
    evidence: string,
    sourceIP: string,
    destinationIP: string,
    packetCount: Unit,
    packet: nat -> PacketDraw,
    logCount: Unit,
    log: nat -> LogDraw)

  /** The immutable part of a generated threat. */
  datatype ThreatRecord = ThreatRecord(
    kind: string,
    severity: string,
    title: string,
    description: string,
    threatScore: int,
    recommendedAction: string,
    forensicHash: string,
    networkPackets: Option<PacketCapture>,
    systemLogs: Option<seq<LogEntry>>)

  /** The severity, action and score range each template fixes. */
  predicate Conforms(rec: ThreatRecord) {
    if rec.kind == "deepfake_video" then
      rec.severity == "critical" && rec.recommendedAction == "block" && 70 <= rec.threatScore <= 99
    else if rec.kind == "voice_clone" then
      rec.severity == "high" && rec.recommendedAction == "verify" && 65 <= rec.threatScore <= 89
    else if rec.kind == "phishing_email" then
      rec.severity == "medium" && rec.recommendedAction == "warn" && 45 <= rec.threatScore <= 79
    else if rec.kind == "behavioral_anomaly" then
      rec.severity == "medium" && rec.recommendedAction == "monitor" && 50 <= rec.threatScore <= 79
    else
      rec.kind == "network_intrusion"
      && rec.severity == "high" && rec.recommendedAction == "block" && 70 <= rec.threatScore <= 94
  }

  /** The lowest score any template can produce. */
  lemma ScoreFloor(rec: ThreatRecord)
    requires Conforms(rec)
    ensures rec.threatScore >= 45
  {
  }

  /** The fixed titles and descriptions of the five generators. */
  const DeepfakeTitle: string := "Deepfake Video Call Detected - CEO Impersonation Attempt"
  const DeepfakeDescription: string := "AI-generated video call attempting to impersonate CEO for wire transfer authorization"
  const VoiceCloneTitle: string := "Voice Clone Detected - Suspicious Phone Call"
  const VoiceCloneDescription: string := "AI-generated voice attempting to impersonate executive for financial transaction"
  const PhishingTitle: string := "Phishing Email Detected - Suspicious Communication"
  const PhishingDescription: string := "Email contains phishing indicators and suspicious links"
  const BehavioralTitle: string := "Behavioral Anomaly Detected - Unusual Activity Pattern"
  const BehavioralDescription: string := "User behavior deviates significantly from established baseline"
  const NetworkTitle: string := "Network Intrusion Attempt Detected"
  const NetworkDescription: string := "Suspicious network activity detected from external source"

  /** generateDeepfakeThreat: critical, block, score 70..99, hash over the video analysis bundle. */
  method GenerateDeepfakeThreat(d: Draws, now: int, h: Hashing) returns (rec: ThreatRecord)
    ensures rec.kind == "deepfake_video" && Conforms(rec)
    ensures rec.threatScore == Scaled(d.score, 30, 70)
    ensures rec.forensicHash == h.sha256(d.evidence)
    ensures rec.networkPackets.Some? && rec.networkPackets.value.totalPackets >= 50
            && rec.networkPackets.value.packets
            == AllPackets(PacketMetadata(Some(d.sourceIP), Some(d.destinationIP), Some("RTP/RTCP"), Some(["SYN", "ACK", "PSH"])),
                          d.packet, now, rec.networkPackets.value.totalPackets)[..20]
    ensures rec.systemLogs == Some(AllLogs("deepfake_detection", d.threatId, d.log, now, LogCount(d.logCount)))
  {
    var meta := PacketMetadata(Some(d.sourceIP), Some(d.destinationIP), Some("RTP/RTCP"), Some(["SYN", "ACK", "PSH"]));
    var packets := GeneratePacketCapture(meta, d.packetCount, d.packet, now, h);
    var logs := GenerateSystemLogs("deepfake_detection", d.threatId, d.logCount, d.log, now);
    rec := ThreatRecord("deepfake_video", "critical",
                        DeepfakeTitle,
                        DeepfakeDescription,
                        Scaled(d.score, 30, 70), "block", h.sha256(d.evidence), Some(packets), Some(logs));
  }

  /** generateVoiceCloneThreat: high, verify, score 65..89, hash over the voice analysis bundle. */
  method GenerateVoiceCloneThreat(d: Draws, now: int, h: Hashing) returns (rec: ThreatRecord)
    ensures rec.kind == "voice_clone" && Conforms(rec)
    ensures rec.threatScore == Scaled(d.score, 25, 65)
    ensures rec.forensicHash == h.sha256(d.evidence)
    ensures rec.networkPackets.Some? && rec.networkPackets.value.totalPackets >= 50
            && rec.networkPackets.value.packets
            == AllPackets(PacketMetadata(Some(d.sourceIP), None, None, None), d.packet, now, rec.networkPackets.value.totalPackets)[..20]
    ensures rec.systemLogs == Some(AllLogs("voice_clone_detection", d.threatId, d.log, now, LogCount(d.logCount)))
  {
    var meta := PacketMetadata(Some(d.sourceIP), None, None, None);
    var packets := GeneratePacketCapture(meta, d.packetCount, d.packet, now, h);
    var logs := GenerateSystemLogs("voice_clone_detection", d.threatId, d.logCount, d.log, now);
    rec := ThreatRecord("voice_clone", "high",
                        VoiceCloneTitle,
                        VoiceCloneDescription,
                        Scaled(d.score, 25, 65), "verify", h.sha256(d.evidence), Some(packets), Some(logs));
  }

  /** generatePhishingThreat: medium, warn, score 45..79, SMTP packets, hash over the email analysis bundle. */
  method GeneratePhishingThreat(d: Draws, now: int, h: Hashing) returns (rec: ThreatRecord)
    ensures rec.kind == "phishing_email" && Conforms(rec)
    ensures rec.threatScore == Scaled(d.score, 35, 45)
    ensures rec.forensicHash == h.sha256(d.evidence)
    ensures rec.networkPackets.Some?
    ensures forall k :: 0 <= k < |rec.networkPackets.value.packets| ==> rec.networkPackets.value.packets[k].protocol == "SMTP"
    ensures rec.systemLogs == Some(AllLogs("phishing_detection", d.threatId, d.log, now, LogCount(d.logCount)))
  {
    var meta := PacketMetadata(None, None, Some("SMTP"), None);
    var packets := GeneratePacketCapture(meta, d.packetCount, d.packet, now, h);
    var logs := GenerateSystemLogs("phishing_detection", d.threatId, d.logCount, d.log, now);
    rec := ThreatRecord("phishing_email", "medium",
                        PhishingTitle,
                        PhishingDescription,
                        Scaled(d.score, 35, 45), "warn", h.sha256(d.evidence), Some(packets), Some(logs));
  }

  /** generateBehavioralThreat: medium, monitor, score 50..79, no packets or logs, hash over the timestamp only. */
  function GenerateBehavioralThreat(d: Draws, now: int, h: Hashing): (rec: ThreatRecord)
    ensures rec.kind == "behavioral_anomaly" && Conforms(rec)
    ensures rec.forensicHash == h.sha256(IntToString(now))
    ensures rec.networkPackets.None? && rec.systemLogs.None?
  {
    ThreatRecord("behavioral_anomaly", "medium",
                 BehavioralTitle,
                 BehavioralDescription,
                 Scaled(d.score, 30, 50), "monitor", h.sha256(IntToString(now)), None, None)
  }

  /** generateNetworkThreat: high, block, score 70..94, TCP packets, no logs, hash over the timestamp only. */
  method GenerateNetworkThreat(d: Draws, now: int, h: Hashing) returns (rec: ThreatRecord)
    ensures rec.kind == "network_intrusion" && Conforms(rec)
    ensures rec.threatScore == Scaled(d.score, 25, 70)
    ensures rec.forensicHash == h.sha256(IntToString(now))
    ensures rec.networkPackets.Some? && rec.systemLogs.None?
    ensures forall k :: 0 <= k < |rec.networkPackets.value.packets| ==> rec.networkPackets.value.packets[k].protocol == "TCP"
  {
    var packets := GeneratePacketCapture(PacketMetadata(None, None, Some("TCP"), None), d.packetCount, d.packet, now, h);
    rec := ThreatRecord("network_intrusion", "high",
                        NetworkTitle,
                        NetworkDescription,
                        Scaled(d.score, 25, 70), "block", h.sha256(IntToString(now)), Some(packets), None);
  }

  // ---------------------------------------------------------------------------
  // Threat objects and the registry
  // ---------------------------------------------------------------------------

  datatype Investigation = Investigation(startedAt: int, investigator: string, status: string, notes: seq<string>)

  datatype Escalation = Escalation(escalatedAt: int, escalatedTo: string, reason: string)

  /**
   * A generated threat. The generator's fields never change; the resolution
   * fields are set by resolveThreat and the rest by the handlers in server.js,
   * which all work on the object the registry holds.
   */
  class Threat {
    const threatId: string
    const timestamp: int
    const record: ThreatRecord
    var resolved: bool
    var resolution: Option<string>
    var resolvedAt: Option<int>
    var investigation: Option<Investigation>
    var blocked: bool
    var blockedAt: Option<int>
    var blockedBy: Option<string>
    var resolvedBy: Option<string>
    var escalation: Option<Escalation>
    var autoBlocked: bool

    constructor (threatId: string, timestamp: int, record: ThreatRecord)
      ensures this.threatId == threatId && this.timestamp == timestamp && this.record == record
      ensures !resolved && resolution.None? && resolvedAt.None?
      ensures investigation.None? && !blocked && blockedAt.None? && blockedBy.None?
      ensures resolvedBy.None? && escalation.None? && !autoBlocked
    {
      this.threatId := threatId;
      this.timestamp := timestamp;
      this.record := record;
      resolved := false;
      resolution := None;
      resolvedAt := None;
      investigation := None;
      blocked := false;
      blockedAt := None;
      blockedBy := None;
      resolvedBy := None;
      escalation := None;
      autoBlocked := false;
    }
  }

  /** `order` without `id`. */
  function Without(order: seq<string>, id: string): (r: seq<string>)
    ensures forall x :: x in r <==> x in order && x != id
    ensures |r| <= |order|
  {
    if order == [] then []
    else (if order[0] == id then [] else [order[0]]) + Without(order[1..], id)
  }

  /** No element occurs twice. */
  predicate Distinct(s: seq<string>) {
    forall a, b :: 0 <= a < b < |s| ==> s[a] != s[b]
  }

  lemma {:induction false} WithoutKeepsDistinct(order: seq<string>, id: string)
    requires Distinct(order)
    ensures Distinct(Without(order, id))
  {
    if order != [] {
      var tail := order[1..];
      assert Distinct(tail) by {
        forall a, b | 0 <= a < b < |tail| ensures tail[a] != tail[b] {
          assert tail[a] == order[a + 1] && tail[b] == order[b + 1];
        }
      }
      var rest := Without(tail, id);
      WithoutKeepsDistinct(tail, id);
      assert forall x :: x in tail ==> x != order[0];
      var r := Without(order, id);
      if order[0] != id {
        assert r == [order[0]] + rest;
        forall a, b | 0 <= a < b < |r|
          ensures r[a] != r[b]
        {
          assert r[b] == rest[b - 1] && r[b] in rest;
          if a > 0 {
            assert r[a] == rest[a - 1];
          }
        }
      } else {
        assert r == rest;
      }
    }
  }

  class ThreatSimulatorState {
    /** The active threats by id. */
    var activeThreats: map<string, Threat>
    /** The ids of `activeThreats` in insertion order, as a JavaScript Map iterates them. */
    var order: seq<string>
    /** Every registered threat, in registration order; never shrinks. */
    var threatHistory: seq<Threat>

    /**
     * The registry's invariant: `order` lists each active id once, every
     * active threat is stored under its own id, follows its template, and
     * is in the history.
     */
    ghost predicate Valid()
      reads this
    {
      (forall id :: id in activeThreats <==> id in order)
      && Distinct(order)
      && (forall id :: id in activeThreats ==>
            activeThreats[id].threatId == id && Conforms(activeThreats[id].record) && activeThreats[id] in threatHistory)
    }

    constructor ()
      ensures Valid()
      ensures activeThreats == map[] && order == [] && threatHistory == []
    {
      activeThreats := map[];
      order := [];
      threatHistory := [];
    }

    /** getThreatDetails: the active threat with this id, or null. */
    function GetThreatDetails(threatId: string): (t: Threat?)
      reads this
      requires Valid()
      ensures t != null <==> threatId in activeThreats
      ensures t != null ==> t.threatId == threatId && Conforms(t.record) && t in threatHistory
    {
      if threatId in activeThreats then activeThreats[threatId] else null
    }

    /** getActiveThreats: the active threats in insertion order. */
    function ActiveList(): (ts: seq<Threat>)
      reads this
      requires Valid()
      ensures |ts| == |order| == |activeThreats|
      ensures forall k :: 0 <= k < |ts| ==> ts[k] == activeThreats[order[k]]
      ensures forall k :: 0 <= k < |ts| ==> Conforms(ts[k].record)
    {
      DistinctLength(order, activeThreats.Keys);
      var o, m := order, activeThreats;
      seq(|o|, k requires 0 <= k < |o| && o[k] in m => m[o[k]])
    }

    method GetActiveThreats() returns (ts: seq<Threat>)
      requires Valid()
      ensures ts == ActiveList()
    {
      ghost var all := ActiveList();
      ts := [];
      var k := 0;
      while k < |order|
        invariant 0 <= k <= |order|
        invariant ts == all[..k]
      {
        PrefixStep(all, k);
        ts := ts + [activeThreats[order[k]]];
        k := k + 1;
      }
      assert all[..k] == all;
    }

    /**
     * generateRandomThreat: picks a template by cumulative probability. A
     * picked threat is stored under its id and appended to the history; when
     * the draw exceeds every cumulative sum a phishing threat is returned
     * without being registered. No draw of `Math.random()` gets there: the
     * source's running sum ends at 1 - 2^-53, its largest possible value.
     */
    method GenerateRandomThreat(rand: real, d: Draws, now: int, h: Hashing) returns (t: Threat)
      requires Valid()
      modifies this
      ensures Valid() && fresh(t)
      ensures t.threatId == d.threatId && t.timestamp == now && Conforms(t.record)
      ensures !t.resolved && !t.autoBlocked && !t.blocked
      ensures Selected(rand).Some? ==>
                t.record.kind == Templates[Selected(rand).value].kind
                && activeThreats == old(activeThreats)[t.threatId := t]
                && order == (if t.threatId in old(activeThreats) then old(order) else old(order) + [t.threatId])
                && threatHistory == old(threatHistory) + [t]
      ensures Selected(rand).None? ==>
                t.record.kind == "phishing_email"
                && activeThreats == old(activeThreats) && order == old(order) && threatHistory == old(threatHistory)
    {
      var sel := SelectTemplate(rand);
      if sel.Some? {
        var rec := GenerateFromTemplate(sel.value, d, now, h);
        t := new Threat(d.threatId, now, rec);
        Register(t);
      } else {
        var rec := GeneratePhishingThreat(d, now, h);
        t := new Threat(d.threatId, now, rec);
      }
    }

    /** The `switch (selectedTemplate.type)` dispatch to the five generators. */
    method GenerateFromTemplate(sel: nat, d: Draws, now: int, h: Hashing) returns (rec: ThreatRecord)
      requires sel < |Templates|
      ensures rec.kind == Templates[sel].kind && Conforms(rec)
    {
      if sel == 0 {
        rec := GenerateDeepfakeThreat(d, now, h);
      } else if sel == 1 {
        rec := GenerateVoiceCloneThreat(d, now, h);
      } else if sel == 2 {
        rec := GeneratePhishingThreat(d, now, h);
      } else if sel == 3 {
        rec := GenerateBehavioralThreat(d, now, h);
      } else {
        rec := GenerateNetworkThreat(d, now, h);
      }
    }

    /** `activeThreats.set(threat.threatId, threat); threatHistory.push(threat)` */
    method Register(t: Threat)
      requires Valid() && Conforms(t.record)
      modifies this
      ensures Valid()
      ensures activeThreats == old(activeThreats)[t.threatId := t]
      ensures order == (if t.threatId in old(activeThreats) then old(order) else old(order) + [t.threatId])
      ensures threatHistory == old(threatHistory) + [t]
    {
      if t.threatId !in activeThreats {
        var o := order + [t.threatId];
        forall a, b | 0 <= a < b < |o|
          ensures o[a] != o[b]
        {
          assert o[a] == order[a];
          if b < |order| {
            assert o[b] == order[b];
          } else {
            assert order[a] in order;
          }
        }
        order := o;
      }
      activeThreats := activeThreats[t.threatId := t];
      threatHistory := threatHistory + [t];
    }

    /**
     * resolveThreat: an active threat is marked resolved, removed from the
     * active map and returned; the history keeps it. An unknown id gives null
     * and changes nothing.
     */
    method ResolveThreat(threatId: string, resolution: string, now: int) returns (t: Threat?)
      requires Valid()
      modifies this, if threatId in activeThreats then {activeThreats[threatId]} else {}
      ensures Valid()
      ensures threatHistory == old(threatHistory)
      ensures old(threatId in activeThreats) ==>
                t == old(activeThreats[threatId])
                && t.resolved && t.resolution == Some(resolution) && t.resolvedAt == Some(now)
                && activeThreats == old(activeThreats) - {threatId}
                && order == Without(old(order), threatId)
      ensures old(threatId in activeThreats) ==>
                unchanged(t`investigation, t`blocked, t`blockedAt, t`blockedBy, t`resolvedBy, t`escalation, t`autoBlocked)
      ensures old(threatId !in activeThreats) ==> t == null && unchanged(this)
      ensures GetThreatDetails(threatId) == null
    {
      if threatId in activeThreats {
        t := activeThreats[threatId];
        t.resolved := true;
        t.resolution := Some(resolution);
        t.resolvedAt := Some(now);
        WithoutKeepsDistinct(order, threatId);
        activeThreats := activeThreats - {threatId};
        order := Without(order, threatId);
      } else {
        t := null;
      }
    }
  }

  lemma {:induction false} DistinctLength(s: seq<string>, keys: set<string>)
    requires Distinct(s)
    requires forall x :: x in keys <==> x in s
    ensures |s| == |keys|
  {
    if s != [] {
      var rest := s[1..];
      assert forall x :: x in rest ==> x != s[0];
      assert forall x :: x in keys - {s[0]} <==> x in rest;
      DistinctLength(rest, keys - {s[0]});
    }
  }
}
