/**
 * backend/ai-services.js: the AIServices class. Modelled here are the two
 * pattern scorers, the way the text and URL analyses combine their sources,
 * the risk tier, the recommendation tables and the per-user behavioural
 * baseline with its fallback anomaly score.
 *
 * The foreign services (OpenAI, the sentiment and NLP libraries, VirusTotal,
 * URLScan, AbuseIPDB, Safe Browsing) enter only through their outputs, passed
 * as parameters. `ml-isolation-forest` is taken to be absent, so the fallback
 * score is the one in force. Regular expressions are matcher parameters keyed
 * by the literal's source text.
 */
module AiServices {
  import opened Wrappers
  import opened Text
  import opened RuleEngine

  // ---------------------------------------------------------------------------
  // Text patterns (analyzeTextPatterns)
  // ---------------------------------------------------------------------------

  /** The ten text rules, in table order; every match adds the weight once. */
  const TextRules: seq<Rule> := [
    Rule(@"/urgent.{0,20}action.{0,20}required/gi", "Urgency manipulation", 40),
    Rule(@"/verify.{0,20}account/gi", "Account verification scam", 35),
    Rule(@"/click.{0,20}here.{0,20}immediately/gi", "Suspicious call-to-action", 30),
    Rule(@"/suspended.{0,20}account/gi", "Account suspension threat", 45),
    Rule(@"/congratulations.{0,20}winner/gi", "Fake lottery/prize scam", 50),
    Rule(@"/bitcoin|cryptocurrency|investment.{0,20}opportunity/gi", "Cryptocurrency scam", 35),
    Rule(@"/<script|javascript:|eval\(|document\.write/gi", "Malicious script", 80),
    Rule(@"/base64|eval|unescape|fromcharcode/gi", "Code obfuscation", 70),
    Rule(@"/password.{0,20}expired/gi", "Password expiration scam", 30),
    Rule(@"/bank.{0,20}account.{0,20}locked/gi", "Banking scam", 40)
  ]

  datatype TextThreat = TextThreat(threat: string, score: nat, matches: nat)

  datatype TextPatterns = TextPatterns(
    threatScore: int,
    detectedThreats: seq<TextThreat>,
    wordCount: nat,
    suspiciousWords: nat)

  function TextEntry(r: Rule, n: nat): TextThreat {
    TextThreat(r.name, r.weight, n)
  }

  /** Match counts of the text rules, as `text.match(re)` reports them. */
  function TextCounts(text: string, countMatches: (string, string) -> nat): (c: seq<nat>)
    ensures |c| == |TextRules|
  {
    Counts(Patterns(TextRules), text, countMatches)
  }

  /** The unclamped `totalScore` of the text rules. */
  function TextTotal(text: string, countMatches: (string, string) -> nat): nat {
    Total(Weights(TextRules), TextCounts(text, countMatches))
  }

  /**
   * analyzeTextPatterns: every text rule that matches adds weight × match
   * count and one evidence entry; the score is clamped to 100.
   */
  method AnalyzeTextPatterns(text: string, countMatches: (string, string) -> nat) returns (r: TextPatterns)
    ensures r.threatScore == Min100(TextTotal(text, countMatches))
    ensures r.detectedThreats == Detections(TextRules, TextCounts(text, countMatches), TextEntry)
    ensures 0 <= r.threatScore <= 100
    ensures r.threatScore == 0 <==> r.detectedThreats == []
    ensures r.wordCount == WordCount(text)
    ensures r.suspiciousWords == |r.detectedThreats|
  {
    ghost var c := TextCounts(text, countMatches);
    ghost var w := Weights(TextRules);
    var totalScore := 0;
    var detectedThreats := [];
    var i := 0;
    while i < |TextRules|
      invariant 0 <= i <= |TextRules|
      invariant totalScore == Total(w[..i], c[..i])
      invariant detectedThreats == Detections(TextRules[..i], c[..i], TextEntry)
    {
      var item := TextRules[i];
      var matches := countMatches(item.pattern, text);
      assert w[i] == item.weight && c[i] == matches;
      TotalStep(w, c, i);
      DetectionsStep(TextRules, c, TextEntry, i);
      if matches > 0 {
        detectedThreats := detectedThreats + [TextThreat(item.name, item.weight, matches)];
        totalScore := totalScore + item.weight * matches;
      }
      i := i + 1;
    }
    assert w[..i] == w && c[..i] == c && TextRules[..i] == TextRules;
    TextScoreZeroIffNoThreat(text, countMatches);
    r := TextPatterns(Min100(totalScore), detectedThreats, WordCount(text), |detectedThreats|);
  }

  /** The pattern score is zero exactly when no text rule fired. */
  lemma TextScoreZeroIffNoThreat(text: string, countMatches: (string, string) -> nat)
    ensures TextTotal(text, countMatches) == 0
            <==> Detections(TextRules, TextCounts(text, countMatches), TextEntry) == []
  {
    var c := TextCounts(text, countMatches);
    TotalZeroIffNoneFired(Weights(TextRules), c);
    DetectionsAreFiredRules(TextRules, c, TextEntry);
  }

  /**
   * The evidence list holds only the rules that fired, in table order, each
   * with its weight and its own match count.
   */
  lemma TextThreatsAreFiredRules(text: string, countMatches: (string, string) -> nat)
    ensures var d := Detections(TextRules, TextCounts(text, countMatches), TextEntry);
            var f := Fired(TextCounts(text, countMatches));
            |d| == |f|
            && forall k :: 0 <= k < |d| ==>
                 f[k] < |TextRules|
                 && d[k] == TextThreat(TextRules[f[k]].name, TextRules[f[k]].weight, countMatches(TextRules[f[k]].pattern, text))
                 && d[k].matches > 0
  {
    var c := TextCounts(text, countMatches);
    DetectionsAreFiredRules(TextRules, c, TextEntry);
  }

  // ---------------------------------------------------------------------------
  // Risk tier and recommendation tables
  // ---------------------------------------------------------------------------

  /** determineRiskLevel: tiers at 30, 60 and 80, inclusive. */
  function DetermineRiskLevel(score: int): (level: string)
    ensures level == "critical" <==> score >= 80
    ensures level == "high" <==> 60 <= score < 80
    ensures level == "medium" <==> 30 <= score < 60
    ensures level == "low" <==> score < 30
  {
    if score >= 80 then "critical"
    else if score >= 60 then "high"
    else if score >= 30 then "medium"
    else "low"
  }

  /** Position of a tier in low < medium < high < critical; anything else ranks as low. */
  function TierRank(level: string): nat {
    if level == "critical" then 3
    else if level == "high" then 2
    else if level == "medium" then 1
    else 0
  }

  /** A higher score never gives a lower tier. */
  lemma RiskLevelMonotone(a: int, b: int)
    requires a <= b
    ensures TierRank(DetermineRiskLevel(a)) <= TierRank(DetermineRiskLevel(b))
  {
  }

  /** The six boundary points of the tiers. */
  lemma RiskLevelBoundaries()
    ensures DetermineRiskLevel(29) == "low" && DetermineRiskLevel(30) == "medium"
    ensures DetermineRiskLevel(59) == "medium" && DetermineRiskLevel(60) == "high"
    ensures DetermineRiskLevel(79) == "high" && DetermineRiskLevel(80) == "critical"
  {
  }

  datatype AiRecommendation = AiRecommendation(action: string, priority: string, message: string, steps: seq<string>)

  const BlockRecommendation: AiRecommendation :=
    AiRecommendation("BLOCK", "high", "This content poses a critical security risk. Do not proceed.",
      ["Close the application", "Report to security team", "Run full system scan"])
  const VerifyRecommendation: AiRecommendation :=
    AiRecommendation("VERIFY", "high", "High risk detected. Verify the source before proceeding.",
      ["Contact sender through alternative channel", "Check official website", "Look for security indicators"])
  const CautionRecommendation: AiRecommendation :=
    AiRecommendation("CAUTION", "medium", "Medium risk detected. Proceed with caution.",
      ["Review content carefully", "Check sender reputation", "Enable additional security measures"])
  const ProceedRecommendation: AiRecommendation :=
    AiRecommendation("PROCEED", "low", "Low risk detected. Content appears safe.",
      ["Continue normal operation", "Maintain security awareness"])

  /** generateAIRecommendations: exactly one entry, chosen by the tier; any other tier is treated as low. */
  function GenerateAIRecommendations(riskLevel: string): (r: seq<AiRecommendation>)
    ensures |r| == 1
    ensures r[0].action == "BLOCK" <==> riskLevel == "critical"
    ensures r[0].action == "VERIFY" <==> riskLevel == "high"
    ensures r[0].action == "CAUTION" <==> riskLevel == "medium"
    ensures r[0].action == "PROCEED" <==> riskLevel !in {"critical", "high", "medium"}
    ensures r[0].priority == (if riskLevel in {"critical", "high"} then "high"
                              else if riskLevel == "medium" then "medium" else "low")
  {
    if riskLevel == "critical" then [BlockRecommendation]
    else if riskLevel == "high" then [VerifyRecommendation]
    else if riskLevel == "medium" then [CautionRecommendation]
    else [ProceedRecommendation]
  }

  /** Fed the tier of a score, the recommended action follows the 80/60/30 thresholds. */
  lemma AiRecommendationFollowsScore(score: int)
    ensures var a := GenerateAIRecommendations(DetermineRiskLevel(score))[0].action;
            (a == "BLOCK" <==> score >= 80) && (a == "VERIFY" <==> 60 <= score < 80)
            && (a == "CAUTION" <==> 30 <= score < 60) && (a == "PROCEED" <==> score < 30)
  {
  }

  const BlockAdvice: string := "Do not click any links or download attachments"
  const ReportAdvice: string := "Report this to your security team immediately"
  const VerifySenderAdvice: string := "Verify the sender through alternative communication"
  const CheckWebsiteAdvice: string := "Check the official website for similar communications"
  const NormalCaution: string := "Proceed with normal caution"
  const DoNotVisitAdvice: string := "Do not visit this URL"
  const ReportUrlAdvice: string := "Report to security team"
  const SandboxAdvice: string := "Use a virtual machine or sandbox to visit"
  const BrowserSecurityAdvice: string := "Enable additional browser security"

  /** generateRecommendations for text: above 70 two blocking steps, above 40 two verification steps, else one. */
  function GenerateRecommendations(threatScore: int): (r: seq<string>)
    ensures |r| == (if threatScore > 40 then 2 else 1)
    ensures threatScore > 70 <==> BlockAdvice in r
    ensures 40 < threatScore <= 70 <==> VerifySenderAdvice in r
    ensures threatScore <= 40 <==> r == [NormalCaution]
  {
    if threatScore > 70 then
      [BlockAdvice, ReportAdvice]
    else if threatScore > 40 then
      [VerifySenderAdvice, CheckWebsiteAdvice]
    else
      [NormalCaution]
  }

  /** generateURLRecommendations: the same thresholds with URL wording. */
  function GenerateURLRecommendations(anomalyScore: int): (r: seq<string>)
    ensures |r| == (if anomalyScore > 40 then 2 else 1)
    ensures anomalyScore > 70 <==> DoNotVisitAdvice in r
    ensures 40 < anomalyScore <= 70 <==> SandboxAdvice in r
    ensures anomalyScore <= 40 <==> r == [NormalCaution]
  {
    if anomalyScore > 70 then
      [DoNotVisitAdvice, ReportUrlAdvice]
    else if anomalyScore > 40 then
      [SandboxAdvice, BrowserSecurityAdvice]
    else
      [NormalCaution]
  }

  /** Every critical score also gets the blocking advice; the converse fails between 71 and 79. */
  lemma CriticalGetsBlockingAdvice(score: int)
    ensures DetermineRiskLevel(score) == "critical" ==> BlockAdvice in GenerateRecommendations(score)
    ensures DetermineRiskLevel(75) == "high" && BlockAdvice in GenerateRecommendations(75)
  {
  }

  // ---------------------------------------------------------------------------
  // analyzeTextWithAI: max of the classifier and the pattern score
  // ---------------------------------------------------------------------------

  /** The parsed classifier reply, present only when the OpenAI key is configured and the call succeeded. */
  datatype ClassifierReply = ClassifierReply(threatScore: Option<int>, explanation: string)

  datatype TextAnalysis = TextAnalysis(
    classifier: Option<ClassifierReply>,
    patternAnalysis: TextPatterns,
    threatScore: int,
    riskLevel: string,
    explanations: seq<string>,
    recommendations: seq<string>)

  /** `aiResponse.threat_score || 0` */
  function ClassifierScore(reply: ClassifierReply): int {
    match reply.threatScore
    case Some(s) => s
    case None => 0
  }

  const NegativeSentimentLine: string := "Negative sentiment detected, which may indicate manipulation"

  function PatternCountLine(n: nat): string {
    "Detected " + NatToString(n) + " suspicious patterns"
  }

  /**
   * generateExplanations: one line per source that raised a flag, in the
   * order classifier, sentiment below −0.5, pattern count.
   */
  function GenerateExplanations(classifier: Option<ClassifierReply>, comparative: real, patterns: TextPatterns): (r: seq<string>)
    ensures |r| == (if classifier.Some? then 1 else 0) + (if comparative < -0.5 then 1 else 0)
                   + (if patterns.detectedThreats != [] then 1 else 0)
    ensures classifier.Some? ==> r[0] == "AI Analysis: " + classifier.value.explanation
    ensures comparative < -0.5 ==> r[if classifier.Some? then 1 else 0] == NegativeSentimentLine
    ensures patterns.detectedThreats != [] ==> r[|r| - 1] == PatternCountLine(|patterns.detectedThreats|)
  {
    var aiLine := if classifier.Some? then "AI Analysis: " + classifier.value.explanation else "";
    Include(classifier.Some?, aiLine)
    + Include(comparative < -0.5, NegativeSentimentLine)
    + Include(patterns.detectedThreats != [], PatternCountLine(|patterns.detectedThreats|))
  }

  function Max(a: int, b: int): int {
    if a < b then b else a
  }

  /**
   * analyzeTextWithAI: the final score is the larger of the classifier's
   * score (when there is one) and the pattern score, never their sum; the
   * tier is taken from that final score.
   */
  method AnalyzeTextWithAI(text: string, countMatches: (string, string) -> nat,
                           classifier: Option<ClassifierReply>, comparative: real)
    returns (r: TextAnalysis)
    ensures r.patternAnalysis.threatScore == Min100(TextTotal(text, countMatches))
    ensures r.threatScore >= r.patternAnalysis.threatScore && r.threatScore >= 0
    ensures classifier.Some? ==> r.threatScore >= ClassifierScore(classifier.value)
    ensures r.threatScore == r.patternAnalysis.threatScore
            || (classifier.Some? && r.threatScore == ClassifierScore(classifier.value))
    ensures classifier.None? ==> r.threatScore == r.patternAnalysis.threatScore
    ensures r.riskLevel == DetermineRiskLevel(r.threatScore)
    ensures r.recommendations == GenerateRecommendations(r.threatScore)
    ensures r.explanations == GenerateExplanations(classifier, comparative, r.patternAnalysis)
  {
    var threatScore := 0;
    if classifier.Some? {
      threatScore := Max(threatScore, ClassifierScore(classifier.value));
    }
    var patterns := AnalyzeTextPatterns(text, countMatches);
    threatScore := Max(threatScore, patterns.threatScore);
    var explanations := GenerateExplanations(classifier, comparative, patterns);
    var recommendations := GenerateRecommendations(threatScore);
    r := TextAnalysis(classifier, patterns, threatScore, DetermineRiskLevel(threatScore), explanations, recommendations);
  }

  // ---------------------------------------------------------------------------
  // URL patterns (analyzeURLPatterns) and analyzeURLWithAI
  // ---------------------------------------------------------------------------

  /** The six URL rules, in table order; a rule that tests true adds its weight once. */
  const UrlRules: seq<Rule> := [
    Rule(@"/[0-9]+\.[0-9]+\.[0-9]+\.[0-9]+/", "IP address instead of domain", 30),
    Rule(@"/\.tk$|\.ml$|\.ga$|\.cf$/i", "Free domain service", 25),
    Rule(@"/paypa1|faceb00k|goog1e|micr0soft|amazom|twiter|linkedln|netf1ix|app1e/i", "Typosquatting", 50),
    Rule(@"/bit\.ly|tinyurl|short\.link|t\.co/i", "URL shortener", 15),
    Rule(@"/[a-z]+-[a-z]+-[a-z]+\.[a-z]{2,}/i", "Suspicious hyphenated domain", 20),
    Rule(@"/[0-9]{10,}/", "Suspicious numeric domain", 25)
  ]

  const NonHttpsThreat: string := "Non-HTTPS connection"
  const NonHttpsPenalty: nat := 15

  datatype UrlThreat = UrlThreat(threat: string, score: nat)

  datatype UrlPatterns = UrlPatterns(
    threatScore: int,
    detectedThreats: seq<UrlThreat>,
    domain: Option<string>,
    protocol: string)

  function UrlEntry(r: Rule, n: nat): UrlThreat {
    UrlThreat(r.name, r.weight)
  }

  function UrlHits(url: string, test: (string, string) -> bool): (c: seq<nat>)
    ensures |c| == |UrlRules|
  {
    Hits(Patterns(UrlRules), url, test)
  }

  /** `url.startsWith('https://')` */
  predicate IsHttps(url: string) {
    StartsWith(url, "https://")
  }

  /** The unclamped `totalScore`: the fired URL rules plus 15 for a non-https URL. */
  function UrlTotal(url: string, test: (string, string) -> bool): nat {
    Total(Weights(UrlRules), UrlHits(url, test)) + (if IsHttps(url) then 0 else NonHttpsPenalty)
  }

  /** The URL evidence: fired rules in table order, then the non-https entry if it applies. */
  function UrlDetections(url: string, test: (string, string) -> bool): seq<UrlThreat> {
    Detections(UrlRules, UrlHits(url, test), UrlEntry)
    + (if IsHttps(url) then [] else [UrlThreat(NonHttpsThreat, NonHttpsPenalty)])
  }

  /** `url.split('/')[2]`, absent when the URL has fewer than two slashes. */
  function DomainOf(url: string): (d: Option<string>)
    ensures d.Some? ==> '/' !in d.value
  {
    var parts := Split(url, '/');
    SplitPartsFree(url, '/');
    if |parts| > 2 then Some(parts[2]) else None
  }

  /**
   * analyzeURLPatterns: every URL rule that tests true adds its weight once,
   * a URL not starting with `https://` adds 15, and the total is clamped to 100.
   */
  method AnalyzeURLPatterns(url: string, test: (string, string) -> bool) returns (r: UrlPatterns)
    ensures r.threatScore == Min100(UrlTotal(url, test))
    ensures r.detectedThreats == UrlDetections(url, test)
    ensures 0 <= r.threatScore <= 100
    ensures r.domain == DomainOf(url)
    ensures r.protocol == Before(url, "://")
  {
    ghost var c := UrlHits(url, test);
    var urlThreats := [];
    var totalScore := 0;
    var i := 0;
    while i < |UrlRules|
      invariant 0 <= i <= |UrlRules|
      invariant totalScore == Total(Weights(UrlRules)[..i], c[..i])
      invariant urlThreats == Detections(UrlRules[..i], c[..i], UrlEntry)
    {
      var item := UrlRules[i];
      TotalStep(Weights(UrlRules), c, i);
      DetectionsStep(UrlRules, c, UrlEntry, i);
      if test(item.pattern, url) {
        urlThreats := urlThreats + [UrlThreat(item.name, item.weight)];
        totalScore := totalScore + item.weight;
      }
      i := i + 1;
    }
    assert Weights(UrlRules)[..i] == Weights(UrlRules) && c[..i] == c && UrlRules[..i] == UrlRules;
    if !StartsWith(url, "https://") {
      urlThreats := urlThreats + [UrlThreat(NonHttpsThreat, NonHttpsPenalty)];
      totalScore := totalScore + NonHttpsPenalty;
    }
    r := UrlPatterns(Min100(totalScore), urlThreats, DomainOf(url), Before(url, "://"));
  }

  /**
   * Exactly one "Non-HTTPS connection" entry, with 15 points, and it is the
   * last one, precisely when the URL does not start with `https://`.
   */
  lemma NonHttpsEntryIffNotHttps(url: string, test: (string, string) -> bool)
    ensures var d := UrlDetections(url, test);
            (exists k :: 0 <= k < |d| && d[k].threat == NonHttpsThreat) <==> !IsHttps(url)
    ensures var d := UrlDetections(url, test);
            !IsHttps(url) ==> d[|d| - 1] == UrlThreat(NonHttpsThreat, NonHttpsPenalty)
                              && forall k :: 0 <= k < |d| - 1 ==> d[k].threat != NonHttpsThreat
  {
    RuleEntriesAreNotNonHttps(url, test);
    var p := Detections(UrlRules, UrlHits(url, test), UrlEntry);
    var d := UrlDetections(url, test);
    assert forall k :: 0 <= k < |p| ==> p[k].threat != NonHttpsThreat;
    if !IsHttps(url) {
      assert d == p + [UrlThreat(NonHttpsThreat, NonHttpsPenalty)];
      assert forall k :: 0 <= k < |d| - 1 ==> d[k] == p[k];
      assert d[|d| - 1].threat == NonHttpsThreat;
    } else {
      assert d == p;
    }
  }

  /** No URL rule is named like the non-https entry. */
  lemma UrlRuleNamesDiffer()
    ensures forall i :: 0 <= i < |UrlRules| ==> UrlRules[i].name != NonHttpsThreat
  {
  }

  /** The entries of the fired URL rules never carry the non-https name. */
  lemma RuleEntriesAreNotNonHttps(url: string, test: (string, string) -> bool)
    ensures forall k :: 0 <= k < |Detections(UrlRules, UrlHits(url, test), UrlEntry)| ==>
              Detections(UrlRules, UrlHits(url, test), UrlEntry)[k].threat != NonHttpsThreat
  {
    DetectionsAreFiredRules(UrlRules, UrlHits(url, test), UrlEntry);
    UrlRuleNamesDiffer();
  }

  /**
   * The worked example: a plain-http URL on which only the IP-address rule
   * fires (such as `http://192.168.0.1/login`) scores 30 + 15 = 45, "medium".
   */
  lemma HttpIpAddressExample(url: string, test: (string, string) -> bool)
    requires !IsHttps(url)
    requires test(UrlRules[0].pattern, url)
    requires forall i :: 1 <= i < |UrlRules| ==> !test(UrlRules[i].pattern, url)
    ensures Min100(UrlTotal(url, test)) == 45
    ensures DetermineRiskLevel(Min100(UrlTotal(url, test))) == "medium"
  {
    var c := UrlHits(url, test);
    var w := Weights(UrlRules);
    assert forall j :: 0 <= j < |c| && j != 0 ==> c[j] == 0;
    TotalOfOneHit(w, c, 0);
    assert w[0] == 30 && c[0] == 1;
  }

  /** What the reputation services reported; every field is absent when its key is unset or the call failed. */
  datatype VirusTotalReport = VirusTotalReport(responseCode: int, positives: nat, total: nat)

  datatype Reputation = Reputation(
    virusTotal: Option<VirusTotalReport>,
    urlscanMalicious: Option<bool>,
    abuseConfidence: Option<int>,
    safeBrowsingMatches: Option<bool>)

  /** The `anomalyScore` the reputation services build up before line 305 replaces it. */
  function ReputationScore(rep: Reputation): (s: real)
    ensures s >= 0.0
  {
    var vt :=
      if rep.virusTotal.Some? && rep.virusTotal.value.responseCode == 1 then
        var total := if rep.virusTotal.value.total == 0 then 1 else rep.virusTotal.value.total;
        (rep.virusTotal.value.positives as real / total as real) * 100.0
      else 0.0;
    var scan := if rep.urlscanMalicious == Some(true) && vt < 85.0 then 85.0 else vt;
    if rep.abuseConfidence.Some? && rep.abuseConfidence.value > 50 && scan < rep.abuseConfidence.value as real
    then rep.abuseConfidence.value as real
    else scan
  }

  /** VirusTotal answered (response code 1) with at least one positive. */
  predicate VirusTotalFlagged(rep: Reputation) {
    rep.virusTotal.Some? && rep.virusTotal.value.responseCode == 1 && rep.virusTotal.value.positives > 0
  }

  function VirusTotalLine(positives: nat): string {
    "VirusTotal detected " + NatToString(positives) + " security vendors flagged this URL"
  }

  const SafeBrowsingLine: string := "Google Safe Browsing flagged this URL as potentially dangerous"

  function UrlPatternCountLine(n: nat): string {
    "Detected " + NatToString(n) + " suspicious URL patterns"
  }

  /**
   * generateURLExplanations: one line per source that raised a flag, in the
   * order VirusTotal, Safe Browsing, pattern count.
   */
  function GenerateURLExplanations(rep: Reputation, patterns: UrlPatterns): (r: seq<string>)
    ensures |r| == (if VirusTotalFlagged(rep) then 1 else 0) + (if rep.safeBrowsingMatches == Some(true) then 1 else 0)
                   + (if patterns.detectedThreats != [] then 1 else 0)
    ensures VirusTotalFlagged(rep) ==> r[0] == VirusTotalLine(rep.virusTotal.value.positives)
    ensures rep.safeBrowsingMatches == Some(true) ==> r[if VirusTotalFlagged(rep) then 1 else 0] == SafeBrowsingLine
    ensures patterns.detectedThreats != [] ==> r[|r| - 1] == UrlPatternCountLine(|patterns.detectedThreats|)
  {
    var vtFlag := VirusTotalFlagged(rep);
    var vtLine := if vtFlag then VirusTotalLine(rep.virusTotal.value.positives) else "";
    Include(vtFlag, vtLine)
    + Include(rep.safeBrowsingMatches == Some(true), SafeBrowsingLine)
    + Include(patterns.detectedThreats != [], UrlPatternCountLine(|patterns.detectedThreats|))
  }

  datatype UrlAnalysis = UrlAnalysis(
    urlPatterns: UrlPatterns,
    anomalyScore: int,
    riskLevel: string,
    explanations: seq<string>,
    recommendations: seq<string>)

  /**
   * analyzeURLWithAI: the reputation services' score is computed and then
   * replaced by the pattern score, so only the explanations see them.
   */
  method AnalyzeURLWithAI(url: string, test: (string, string) -> bool, rep: Reputation) returns (r: UrlAnalysis)
    ensures r.anomalyScore == Min100(UrlTotal(url, test))
    ensures r.urlPatterns.detectedThreats == UrlDetections(url, test)
    ensures r.riskLevel == DetermineRiskLevel(r.anomalyScore)
    ensures r.recommendations == GenerateURLRecommendations(r.anomalyScore)
    ensures r.explanations == GenerateURLExplanations(rep, r.urlPatterns)
  {
    var anomalyScore: real := ReputationScore(rep);
    var urlPatterns := AnalyzeURLPatterns(url, test);
    var finalScore := urlPatterns.threatScore;
    var explanations := GenerateURLExplanations(rep, urlPatterns);
    var recommendations := GenerateURLRecommendations(finalScore);
    r := UrlAnalysis(urlPatterns, finalScore, DetermineRiskLevel(finalScore), explanations, recommendations);
  }

  /** Two runs on the same URL agree on score, tier and advice whatever the reputation services said. */
  method ReputationNeverReachesScore(url: string, test: (string, string) -> bool, rep1: Reputation, rep2: Reputation)
    returns (same: bool)
    ensures same
  {
    var a := AnalyzeURLWithAI(url, test, rep1);
    var b := AnalyzeURLWithAI(url, test, rep2);
    same := a.anomalyScore == b.anomalyScore && a.riskLevel == b.riskLevel && a.recommendations == b.recommendations;
  }

  // ---------------------------------------------------------------------------
  // Behavioural baseline (analyzeBehavioralPatterns and its helpers)
  // ---------------------------------------------------------------------------

  /** `new Date().getHours()` */
  type Hour = h: int | 0 <= h < 24

  datatype Profile = Profile(
    loginTimes: seq<Hour>,
    browsingPatterns: seq<string>,
    fileAccess: seq<string>,
    communicationStyle: seq<string>,
    riskTolerance: real,
    anomalyCount: nat)

  /** The profile created for a user seen for the first time. */
  const NewProfile: Profile := Profile([], [], [], [], 0.5, 0)

  /** `loginTimes.slice(-10)` */
  function LastTen(s: seq<Hour>): (r: seq<Hour>)
    ensures |r| == if |s| < 10 then |s| else 10
    ensures r == s[|s| - |r|..]
  {
    if |s| <= 10 then s else s[|s| - 10..]
  }

  function SumHours(s: seq<Hour>): (t: nat)
    ensures t <= 23 * |s|
  {
    if s == [] then 0 else SumHours(s[..|s| - 1]) + s[|s| - 1]
  }

  function Abs(x: real): real {
    if x < 0.0 then -x else x
  }

  /** The deviation of `hour` from the mean of the given hours is more than six. */
  predicate UnusualHour(hours: seq<Hour>, hour: Hour) {
    |hours| > 0 && Abs(hour as real - SumHours(hours) as real / |hours| as real) > 6.0
  }

  /**
   * calculateAnomalyScoreFallback: −0.3 for an hour more than six away from
   * the mean of the last ten logins, −0.5 for more than five past anomalies.
   */
  function FallbackScore(p: Profile, hour: Hour): (s: real)
    ensures s == 0.0 || s == -0.3 || s == -0.5 || s == -0.8
    ensures s < -0.5 <==> UnusualHour(LastTen(p.loginTimes), hour) && p.anomalyCount > 5
    ensures -0.8 <= s <= 0.0
  {
    var recent := LastTen(p.loginTimes);
    var s1 := if UnusualHour(recent, hour) then -0.3 else 0.0;
    if p.anomalyCount > 5 then s1 - 0.5 else s1
  }

  /** A profile with at most five past anomalies never scores below −0.5. */
  lemma FewAnomaliesNeverFlag(p: Profile, hour: Hour)
    requires p.anomalyCount <= 5
    ensures FallbackScore(p, hour) >= -0.5
  {
  }

  /** Only the last ten hours count: older logins do not change the score. */
  lemma OnlyLastTenHoursCount(older: seq<Hour>, recent: seq<Hour>, p: Profile, hour: Hour)
    requires |recent| == 10 && p.loginTimes == older + recent
    ensures FallbackScore(p, hour) == FallbackScore(p.(loginTimes := recent), hour)
  {
    assert LastTen(p.loginTimes) == recent;
  }

  datatype Features = Features(
    currentHour: Hour,
    timeDeviation: real,
    patternConsistency: real,
    riskTolerance: real,
    anomalyCount: nat)

  /** The number of distinct entries of a sequence, `new Set(s).size`. */
  function Distinct(s: seq<string>): nat {
    |set x | x in s|
  }

  lemma {:induction false} DistinctBounds(s: seq<string>)
    ensures Distinct(s) <= |s|
    ensures s != [] ==> Distinct(s) >= 1
  {
    if s != [] {
      var k := |s| - 1;
      DistinctBounds(s[..k]);
      var before := set x | x in s[..k];
      var after := set x | x in s;
      assert after == before + {s[k]};
      assert s[0] in after;
    }
  }

  /**
   * extractBehavioralFeatures; `None` stands for the NaN the source produces
   * when either list is empty (it is only called after both have grown).
   * The time deviation is the distance of the hour from the mean of every
   * recorded login hour; pattern consistency is one minus the share of
   * distinct actions, so it lies in [0, 1) and is 0 when every action differs.
   */
  function ExtractBehavioralFeatures(p: Profile, hour: Hour): (f: Option<Features>)
    ensures f.Some? <==> p.loginTimes != [] && p.browsingPatterns != []
    ensures f.Some? ==> f.value.currentHour == hour && f.value.riskTolerance == p.riskTolerance
                        && f.value.anomalyCount == p.anomalyCount
    ensures f.Some? ==> f.value.timeDeviation == Abs(hour as real - SumHours(p.loginTimes) as real / |p.loginTimes| as real)
    ensures f.Some? ==> f.value.patternConsistency == 1.0 - Distinct(p.browsingPatterns) as real / |p.browsingPatterns| as real
    ensures f.Some? ==> 0.0 <= f.value.patternConsistency < 1.0 && f.value.timeDeviation >= 0.0
    ensures f.Some? ==> (f.value.patternConsistency == 0.0 <==> Distinct(p.browsingPatterns) == |p.browsingPatterns|)
  {
    if p.loginTimes == [] || p.browsingPatterns == [] then None
    else
      var avg := SumHours(p.loginTimes) as real / |p.loginTimes| as real;
      var n := |p.browsingPatterns|;
      DistinctBounds(p.browsingPatterns);
      var u := Distinct(p.browsingPatterns);
      RatioBounds(u, n);
      Some(Features(hour, Abs(hour as real - avg), 1.0 - u as real / n as real, p.riskTolerance, p.anomalyCount))
  }

  /**
   * The features read every recorded hour, not only the last ten: an old
   * login at 23 followed by ten at noon puts the mean at 13, one hour from noon.
   */
  lemma FeaturesReadEveryHour(p: Profile)
    requires p.loginTimes == [23] + Noon(10) && p.browsingPatterns != []
    ensures ExtractBehavioralFeatures(p, 12).value.timeDeviation == 1.0
    ensures !UnusualHour(LastTen(p.loginTimes), 12)
  {
    SumOfNoon(10);
    SumHoursConcat([23], Noon(10));
    assert [23][..0] == [];
    assert LastTen(p.loginTimes) == Noon(10);
  }

  /** `n` logins at noon. */
  function Noon(n: nat): (s: seq<Hour>)
    ensures |s| == n
  {
    seq(n, _ => 12)
  }

  lemma {:induction false} SumOfNoon(n: nat)
    ensures SumHours(Noon(n)) == 12 * n
  {
    if n > 0 {
      SumOfNoon(n - 1);
      assert Noon(n)[..n - 1] == Noon(n - 1);
    }
  }

  lemma {:induction false} SumHoursConcat(a: seq<Hour>, b: seq<Hour>)
    ensures SumHours(a + b) == SumHours(a) + SumHours(b)
  {
    if b == [] {
      assert a + b == a;
    } else {
      SumHoursConcat(a, b[..|b| - 1]);
      assert (a + b)[..|a + b| - 1] == a + b[..|b| - 1];
    }
  }

  lemma RatioBounds(u: nat, n: nat)
    requires 1 <= u <= n
    ensures 0.0 < u as real / n as real <= 1.0
    ensures u as real / n as real == 1.0 <==> u == n
  {
    var q := u as real / n as real;
    assert q * n as real == u as real;
    assert u as real <= n as real;
  }

  datatype Verdict = Verdict(isAnomaly: bool, anomalyScore: real, explanation: string, recommendations: seq<string>)

  /** The answer for a fallback score: an anomaly exactly below −0.5, with the two follow-up steps. */
  function BehaviourVerdict(anomalyScore: real): (v: Verdict)
    ensures v.anomalyScore == anomalyScore
    ensures v.isAnomaly <==> anomalyScore < -0.5
    ensures v.isAnomaly ==> v.recommendations == ["Verify identity", "Review recent activities"]
    ensures !v.isAnomaly ==> v.recommendations == []
  {
    if anomalyScore < -0.5 then Verdict(true, anomalyScore, "Unusual behavioral pattern detected", ["Verify identity", "Review recent activities"])
    else Verdict(false, anomalyScore, "Normal behavioral pattern", [])
  }

  /** The profile after one observation: the hour and the action appended. */
  function Record(p: Profile, action: string, hour: Hour): (q: Profile)
    ensures q.loginTimes == p.loginTimes + [hour] && q.browsingPatterns == p.browsingPatterns + [action]
    ensures q.anomalyCount == p.anomalyCount
  {
    p.(loginTimes := p.loginTimes + [hour], browsingPatterns := p.browsingPatterns + [action])
  }

  /** The stored profile after one call: recorded, and counted when the fallback score is below −0.5. */
  function Observe(p: Profile, action: string, hour: Hour): (q: Profile)
    ensures |q.loginTimes| == |p.loginTimes| + 1 && |q.browsingPatterns| == |p.browsingPatterns| + 1
    ensures q.anomalyCount == p.anomalyCount + (if FallbackScore(Record(p, action, hour), hour) < -0.5 then 1 else 0)
  {
    var rec := Record(p, action, hour);
    if FallbackScore(rec, hour) < -0.5 then rec.(anomalyCount := rec.anomalyCount + 1) else rec
  }

  /** Replays a run of observations on one profile. */
  function ObserveAll(p: Profile, obs: seq<(string, Hour)>): Profile
    decreases |obs|
  {
    if obs == [] then p else ObserveAll(Observe(p, obs[0].0, obs[0].1), obs[1..])
  }

  /** Under the fallback, a profile that starts at zero anomalies keeps zero anomalies forever. */
  lemma {:induction false} FallbackCounterStaysZero(p: Profile, obs: seq<(string, Hour)>)
    requires p.anomalyCount == 0
    ensures ObserveAll(p, obs).anomalyCount == 0
    decreases |obs|
  {
    if obs != [] {
      FewAnomaliesNeverFlag(Record(p, obs[0].0, obs[0].1), obs[0].1);
      FallbackCounterStaysZero(Observe(p, obs[0].0, obs[0].1), obs[1..]);
    }
  }

  /** The stateful part of AIServices: the per-user profile map. */
  class AiServicesState {
    var userProfiles: map<string, Profile>

    constructor ()
      ensures userProfiles == map[]
    {
      userProfiles := map[];
    }

    /** The stored profile, or the fresh one the next call would create. */
    function ProfileOf(userId: string): Profile
      reads this
    {
      if userId in userProfiles then userProfiles[userId] else NewProfile
    }

    /** No user has ever been flagged. */
    predicate Calm()
      reads this
    {
      forall id :: id in userProfiles ==> userProfiles[id].anomalyCount == 0
    }

    /**
     * analyzeBehavioralPatterns, with the isolation forest absent: create the
     * profile if needed, append one hour and one action, score with the
     * fallback, and count an anomaly exactly when the score is below −0.5.
     */
    method AnalyzeBehavioralPatterns(userId: string, action: string, hour: Hour) returns (v: Verdict)
      modifies this
      ensures userProfiles == old(userProfiles)[userId := Observe(old(ProfileOf(userId)), action, hour)]
      ensures v == BehaviourVerdict(FallbackScore(Record(old(ProfileOf(userId)), action, hour), hour))
      ensures old(Calm()) ==> Calm() && !v.isAnomaly
    {
      ghost var before := ProfileOf(userId);
      if userId !in userProfiles {
        userProfiles := userProfiles[userId := NewProfile];
      }
      var profile := userProfiles[userId];
      assert profile == before;
      profile := Record(profile, action, hour);
      // The features feed only the isolation forest, which is absent.
      var anomalyScore := FallbackScore(profile, hour);
      if anomalyScore < -0.5 {
        profile := profile.(anomalyCount := profile.anomalyCount + 1);
        assert profile == Observe(before, action, hour);
        userProfiles := userProfiles[userId := profile];
        v := Verdict(true, anomalyScore, "Unusual behavioral pattern detected", ["Verify identity", "Review recent activities"]);
      } else {
        assert profile == Observe(before, action, hour);
        userProfiles := userProfiles[userId := profile];
        v := Verdict(false, anomalyScore, "Normal behavioral pattern", []);
      }
      if old(Calm()) {
        FewAnomaliesNeverFlag(Record(before, action, hour), hour);
      }
    }
  }
}
