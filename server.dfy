/**
 * backend/server.js: the decision logic inside the Express handlers. Modelled
 * are the server's own text and URL scorers (a different table and different
 * tiers from ai-services.js), the overall risk of the comprehensive analysis,
 * the OTP and session stores behind sign-in, the settings object, and the
 * threat lifecycle handlers working on the simulator's registry.
 *
 * `Date.now()` is `now`; `Math.random()` is a Unit draw; the session token
 * from `crypto.randomBytes` is a parameter. HTTP status codes and JSON bodies
 * become result datatypes; the WebSocket broadcasts are not part of this model.
 */
module Server {
  import opened Wrappers
  import opened Text
  import opened RuleEngine
  import AiServices
  import opened ThreatSimulator

  // ---------------------------------------------------------------------------
  // analyzeText: severity-weighted text rules
  // ---------------------------------------------------------------------------

  datatype Severity = Low | Medium | High | Critical {
    function Name(): string {
      match this
      case Low => "low"
      case Medium => "medium"
      case High => "high"
      case Critical => "critical"
    }

    /** The `severityScore` table. */
    function Score(): nat {
      match this
      case Low => 10
      case Medium => 25
      case High => 40
      case Critical => 60
    }
  }

  datatype SeverityRule = SeverityRule(pattern: string, threat: string, severity: Severity)

  /** The eight text rules of server.js, in table order. */
  const TextRules: seq<SeverityRule> := [
    SeverityRule(@"/urgent.{0,20}action.{0,20}required/gi", "Urgency manipulation detected", High),
    SeverityRule(@"/verify.{0,20}account/gi", "Account verification scam", Medium),
    SeverityRule(@"/click.{0,20}here.{0,20}immediately/gi", "Suspicious call-to-action", Medium),
    SeverityRule(@"/suspended.{0,20}account/gi", "Account suspension threat", High),
    SeverityRule(@"/congratulations.{0,20}winner/gi", "Fake lottery/prize scam", High),
    SeverityRule(@"/bitcoin|cryptocurrency|investment.{0,20}opportunity/gi", "Cryptocurrency scam", Medium),
    SeverityRule(@"/<script|javascript:|eval\(|document\.write/gi", "Malicious script detected", Critical),
    SeverityRule(@"/base64|eval|unescape|fromcharcode/gi", "Code obfuscation detected", High)
  ]

  function SeverityPatterns(rules: seq<SeverityRule>): (p: seq<string>)
    ensures |p| == |rules|
    ensures forall i :: 0 <= i < |rules| ==> p[i] == rules[i].pattern
  {
    seq(|rules|, i requires 0 <= i < |rules| => rules[i].pattern)
  }

  function SeverityWeights(rules: seq<SeverityRule>): (w: seq<nat>)
    ensures |w| == |rules|
    ensures forall i :: 0 <= i < |rules| ==> w[i] == rules[i].severity.Score()
  {
    seq(|rules|, i requires 0 <= i < |rules| => rules[i].severity.Score())
  }

  datatype TextThreat = TextThreat(threat: string, severity: string, matches: nat, score: nat)

  function TextEntry(r: SeverityRule, n: nat): TextThreat {
    TextThreat(r.threat, r.severity.Name(), n, r.severity.Score() * n)
  }

  function TextCounts(text: string, countMatches: (string, string) -> nat): (c: seq<nat>)
    ensures |c| == |TextRules|
  {
    Counts(SeverityPatterns(TextRules), text, countMatches)
  }

  /** The unclamped `totalScore`. */
  function TextTotal(text: string, countMatches: (string, string) -> nat): nat {
    Total(SeverityWeights(TextRules), TextCounts(text, countMatches))
  }

  /** The tier of `analyzeText`, strict thresholds at 60, 30 and 10. */
  function TextRiskLevel(total: int): (level: string)
    ensures level == "critical" <==> total > 60
    ensures level == "high" <==> 30 < total <= 60
    ensures level == "medium" <==> 10 < total <= 30
    ensures level == "low" <==> total <= 10
  {
    if total > 60 then "critical" else if total > 30 then "high" else if total > 10 then "medium" else "low"
  }

  datatype TextReport = TextReport(
    threatScore: int,
    riskLevel: string,
    threats: seq<TextThreat>,
    wordCount: nat,
    suspiciousWords: nat,
    timestamp: int)

  /**
   * analyzeText: each firing rule adds its severity score times its match
   * count; the score is clamped to 100 but the tier is read off the
   * unclamped total.
   */
  method AnalyzeText(text: string, countMatches: (string, string) -> nat, now: int) returns (r: TextReport)
    ensures r.threatScore == Min100(TextTotal(text, countMatches))
    ensures 0 <= r.threatScore <= 100
    ensures r.riskLevel == TextRiskLevel(TextTotal(text, countMatches))
    ensures r.threats == Detections(TextRules, TextCounts(text, countMatches), TextEntry)
    ensures r.wordCount == WordCount(text)
    ensures r.suspiciousWords == |r.threats| && r.timestamp == now
  {
    ghost var c := TextCounts(text, countMatches);
    var threats := [];
    var totalScore := 0;
    var i := 0;
    while i < |TextRules|
      invariant 0 <= i <= |TextRules|
      invariant totalScore == Total(SeverityWeights(TextRules)[..i], c[..i])
      invariant threats == Detections(TextRules[..i], c[..i], TextEntry)
    {
      var item := TextRules[i];
      var matches := countMatches(item.pattern, text);
      assert SeverityWeights(TextRules)[i] == item.severity.Score() && c[i] == matches;
      TotalStep(SeverityWeights(TextRules), c, i);
      DetectionsStep(TextRules, c, TextEntry, i);
      if matches > 0 {
        threats := threats + [TextThreat(item.threat, item.severity.Name(), matches, item.severity.Score() * matches)];
        totalScore := totalScore + item.severity.Score() * matches;
      }
      i := i + 1;
    }
    assert SeverityWeights(TextRules)[..i] == SeverityWeights(TextRules) && c[..i] == c && TextRules[..i] == TextRules;
    var level := if totalScore > 60 then "critical" else if totalScore > 30 then "high" else if totalScore > 10 then "medium" else "low";
    r := TextReport(Min100(totalScore), level, threats, WordCount(text), |threats|, now);
  }

  /**
   * Every evidence entry is a rule that fired, in table order, carrying its
   * match count and severity score × match count.
   */
  lemma TextThreatsScoreBySeverity(text: string, countMatches: (string, string) -> nat)
    ensures var d := Detections(TextRules, TextCounts(text, countMatches), TextEntry);
            var f := Fired(TextCounts(text, countMatches));
            |d| == |f|
            && forall k :: 0 <= k < |d| ==>
                 f[k] < |TextRules| && d[k].matches > 0
                 && d[k].threat == TextRules[f[k]].threat
                 && d[k].severity == TextRules[f[k]].severity.Name()
                 && d[k].score == TextRules[f[k]].severity.Score() * d[k].matches
  {
    DetectionsAreFiredRules(TextRules, TextCounts(text, countMatches), TextEntry);
  }

  /** Nothing fired exactly when the tier is "low" and the score 0: every rule scores at least 25. */
  lemma TextLowIffNoThreat(text: string, countMatches: (string, string) -> nat)
    ensures Detections(TextRules, TextCounts(text, countMatches), TextEntry) == []
            <==> TextTotal(text, countMatches) == 0
    ensures Detections(TextRules, TextCounts(text, countMatches), TextEntry) == []
            <==> TextRiskLevel(TextTotal(text, countMatches)) == "low"
  {
    var c := TextCounts(text, countMatches);
    var w := SeverityWeights(TextRules);
    TotalZeroIffNoneFired(w, c);
    DetectionsAreFiredRules(TextRules, c, TextEntry);
    if Fired(c) != [] {
      var i := Fired(c)[0];
      TotalAtLeastTerm(w, c, i);
      MulAtLeast(w[i], c[i]);
    }
  }

  lemma MulAtLeast(a: nat, b: nat)
    requires b > 0
    ensures a * b >= a
  {
  }

  /** Clamping first would not change the tier: every threshold is below 100. */
  lemma TextTierIgnoresClamp(total: nat)
    ensures TextRiskLevel(Min100(total)) == TextRiskLevel(total)
  {
  }

  /**
   * A single match of the critical "Malicious script" rule, and nothing else,
   * scores 60 and is tiered "high", not "critical": the thresholds are strict.
   */
  lemma SingleScriptMatchIsHigh(text: string, countMatches: (string, string) -> nat)
    requires countMatches(TextRules[6].pattern, text) == 1
    requires forall i :: 0 <= i < |TextRules| && i != 6 ==> countMatches(TextRules[i].pattern, text) == 0
    ensures TextTotal(text, countMatches) == 60
    ensures TextRiskLevel(TextTotal(text, countMatches)) == "high"
  {
    var c := TextCounts(text, countMatches);
    var w := SeverityWeights(TextRules);
    TotalOfOneHit(w, c, 6);
  }

  // ---------------------------------------------------------------------------
  // analyzeURL
  // ---------------------------------------------------------------------------

  /** The five URL rules of server.js; a rule that tests true adds its score once. */
  const UrlRules: seq<Rule> := [
    Rule(@"/[0-9]+\.[0-9]+\.[0-9]+\.[0-9]+/", "IP address instead of domain", 30),
    Rule(@"/\.tk$|\.ml$|\.ga$|\.cf$/i", "Free domain service", 25),
    Rule(@"/paypa1|faceb00k|goog1e|micr0soft|amazom|twiter|linkedln|netf1ix|app1e/i", "Typosquatting detected", 50),
    Rule(@"/bit\.ly|tinyurl|short\.link|t\.co/i", "URL shortener detected", 15),
    Rule(@"/[a-z]+-[a-z]+-[a-z]+\.[a-z]{2,}/i", "Suspicious hyphenated domain", 20)
  ]

  datatype UrlThreat = UrlThreat(threat: string, severity: string, score: nat)

  function UrlEntry(r: Rule, n: nat): UrlThreat {
    UrlThreat(r.name, ScoreSeverity(r.weight), r.weight)
  }

  const NonHttpsEntry: UrlThreat := UrlThreat("Non-HTTPS connection (insecure)", "medium", 15)

  function UrlHits(url: string, test: (string, string) -> bool): (c: seq<nat>)
    ensures |c| == |UrlRules|
  {
    Hits(Patterns(UrlRules), url, test)
  }

  /** The unclamped `totalScore`: fired rules plus 15 for a URL not starting with `https://`. */
  function UrlTotal(url: string, test: (string, string) -> bool): nat {
    Total(Weights(UrlRules), UrlHits(url, test)) + (if AiServices.IsHttps(url) then 0 else 15)
  }

  function UrlDetections(url: string, test: (string, string) -> bool): seq<UrlThreat> {
    Detections(UrlRules, UrlHits(url, test), UrlEntry) + (if AiServices.IsHttps(url) then [] else [NonHttpsEntry])
  }

  /** The tier of `analyzeURL`, strict thresholds at 50, 25 and 10. */
  function UrlRiskLevel(total: int): (level: string)
    ensures level == "critical" <==> total > 50
    ensures level == "high" <==> 25 < total <= 50
    ensures level == "medium" <==> 10 < total <= 25
    ensures level == "low" <==> total <= 10
  {
    if total > 50 then "critical" else if total > 25 then "high" else if total > 10 then "medium" else "low"
  }

  datatype UrlReport = UrlReport(
    threatScore: int,
    riskLevel: string,
    threats: seq<UrlThreat>,
    protocol: string,
    domain: Option<string>,
    timestamp: int)

  /**
   * analyzeURL: every firing rule adds its score once, a non-https URL adds a
   * 15-point medium entry last; the score is clamped and the tier is read off
   * the unclamped total.
   */
  method AnalyzeURL(url: string, test: (string, string) -> bool, now: int) returns (r: UrlReport)
    ensures r.threatScore == Min100(UrlTotal(url, test))
    ensures 0 <= r.threatScore <= 100
    ensures r.riskLevel == UrlRiskLevel(UrlTotal(url, test))
    ensures r.threats == UrlDetections(url, test)
    ensures r.protocol == Before(url, "://")
    ensures r.domain == AiServices.DomainOf(url)
    ensures r.timestamp == now
  {
    ghost var c := UrlHits(url, test);
    var threats := [];
    var totalScore := 0;
    var i := 0;
    while i < |UrlRules|
      invariant 0 <= i <= |UrlRules|
      invariant totalScore == Total(Weights(UrlRules)[..i], c[..i])
      invariant threats == Detections(UrlRules[..i], c[..i], UrlEntry)
    {
      var item := UrlRules[i];
      assert Weights(UrlRules)[i] == item.weight && c[i] == (if test(item.pattern, url) then 1 else 0);
      TotalStep(Weights(UrlRules), c, i);
      DetectionsStep(UrlRules, c, UrlEntry, i);
      if test(item.pattern, url) {
        var severity := ScoreSeverity(item.weight);
        threats := threats + [UrlThreat(item.name, severity, item.weight)];
        totalScore := totalScore + item.weight;
      }
      i := i + 1;
    }
    assert Weights(UrlRules)[..i] == Weights(UrlRules) && c[..i] == c && UrlRules[..i] == UrlRules;
    if !StartsWith(url, "https://") {
      threats := threats + [UrlThreat("Non-HTTPS connection (insecure)", "medium", 15)];
      totalScore := totalScore + 15;
    }
    var level := if totalScore > 50 then "critical" else if totalScore > 25 then "high" else if totalScore > 10 then "medium" else "low";
    r := UrlReport(Min100(totalScore), level, threats, Before(url, "://"), AiServices.DomainOf(url), now);
  }

  /**
   * The non-https entry appears, once and last, exactly for a URL not
   * starting with `https://`; the rule entries carry the severity their score
   * implies.
   */
  lemma UrlEntriesAreFiredRules(url: string, test: (string, string) -> bool)
    ensures var d := UrlDetections(url, test);
            (exists k :: 0 <= k < |d| && d[k] == NonHttpsEntry) <==> !AiServices.IsHttps(url)
    ensures var d := UrlDetections(url, test);
            !AiServices.IsHttps(url) ==> d[|d| - 1] == NonHttpsEntry
  {
    RuleEntriesAreNotNonHttps(url, test);
    var p := Detections(UrlRules, UrlHits(url, test), UrlEntry);
    var d := UrlDetections(url, test);
    if !AiServices.IsHttps(url) {
      assert d == p + [NonHttpsEntry];
      assert d[|d| - 1] == NonHttpsEntry;
    } else {
      assert d == p;
    }
  }

  /** No URL rule is named like the non-https entry. */
  lemma UrlRuleNamesDiffer()
    ensures forall i :: 0 <= i < |UrlRules| ==> UrlRules[i].name != NonHttpsEntry.threat
  {
  }

  /** The entries of the fired URL rules never carry the non-https name. */
  lemma RuleEntriesAreNotNonHttps(url: string, test: (string, string) -> bool)
    ensures forall k :: 0 <= k < |Detections(UrlRules, UrlHits(url, test), UrlEntry)| ==>
              Detections(UrlRules, UrlHits(url, test), UrlEntry)[k].threat != NonHttpsEntry.threat
  {
    DetectionsAreFiredRules(UrlRules, UrlHits(url, test), UrlEntry);
    UrlRuleNamesDiffer();
  }

  /** Each rule entry carries its rule's score and the severity that score implies. */
  lemma UrlEntrySeverities(url: string, test: (string, string) -> bool)
    ensures var d := Detections(UrlRules, UrlHits(url, test), UrlEntry);
            var f := Fired(UrlHits(url, test));
            |d| == |f|
            && forall k :: 0 <= k < |d| ==>
                 f[k] < |UrlRules| && d[k].score == UrlRules[f[k]].weight && d[k].severity == ScoreSeverity(d[k].score)
  {
    DetectionsAreFiredRules(UrlRules, UrlHits(url, test), UrlEntry);
  }

  /** Clamping first would not change the tier: every threshold is below 100. */
  lemma UrlTierIgnoresClamp(total: nat)
    ensures UrlRiskLevel(Min100(total)) == UrlRiskLevel(total)
  {
  }

  /**
   * A plain-http URL on which only the IP-address rule fires scores
   * 30 + 15 = 45: "high" here, where ai-services.js says "medium".
   */
  lemma HttpIpAddressIsHigh(url: string, test: (string, string) -> bool)
    requires !AiServices.IsHttps(url)
    requires test(UrlRules[0].pattern, url)
    requires forall i :: 1 <= i < |UrlRules| ==> !test(UrlRules[i].pattern, url)
    ensures Min100(UrlTotal(url, test)) == 45
    ensures UrlRiskLevel(UrlTotal(url, test)) == "high"
    ensures AiServices.DetermineRiskLevel(45) == "medium"
  {
    var c := UrlHits(url, test);
    var w := Weights(UrlRules);
    TotalOfOneHit(w, c, 0);
  }

  // ---------------------------------------------------------------------------
  // /api/analyze/comprehensive: the overall risk
  // ---------------------------------------------------------------------------

  /** The `scores` array: the text score, the URL score, and 80 for anomalous behaviour, when present. */
  function PresentScores(textScore: Option<int>, urlScore: Option<int>, anomalous: bool): (scores: seq<int>)
    ensures |scores| == (if textScore.Some? then 1 else 0) + (if urlScore.Some? then 1 else 0) + (if anomalous then 1 else 0)
    ensures textScore.Some? ==> scores[0] == textScore.value
    ensures urlScore.Some? ==> scores[if textScore.Some? then 1 else 0] == urlScore.value
    ensures anomalous ==> scores[|scores| - 1] == 80
    ensures forall k :: 0 <= k < |scores| ==>
              Some(scores[k]) == textScore || Some(scores[k]) == urlScore || (anomalous && scores[k] == 80)
  {
    Include(textScore.Some?, textScore.GetOr(0)) + Include(urlScore.Some?, urlScore.GetOr(0)) + Include(anomalous, 80)
  }

  /** `Math.max(...scores, 0)` */
  function MaxOrZero(scores: seq<int>): (m: int)
    ensures m >= 0
    ensures forall k :: 0 <= k < |scores| ==> scores[k] <= m
    ensures m == 0 || m in scores
  {
    if scores == [] then 0
    else
      var rest := MaxOrZero(scores[1..]);
      assert forall k :: 1 <= k < |scores| ==> scores[k] == scores[1..][k - 1];
      if scores[0] > rest then scores[0] else rest
  }

  /** The inline tier of the comprehensive endpoint: 80, 60 and 30, inclusive. */
  function OverallRisk(maxScore: int): string {
    if maxScore >= 80 then "critical" else if maxScore >= 60 then "high" else if maxScore >= 30 then "medium" else "low"
  }

  /** The comprehensive tier is the tier determineRiskLevel gives. */
  lemma OverallRiskIsDetermineRiskLevel(maxScore: int)
    ensures OverallRisk(maxScore) == AiServices.DetermineRiskLevel(maxScore)
  {
  }

  datatype Overall = Overall(maxScore: int, overallRisk: string, recommendations: seq<AiServices.AiRecommendation>)

  /**
   * The overall risk: the largest of the present scores and 0, tiered at
   * 80/60/30, with the recommendation for that tier.
   */
  function Comprehensive(textScore: Option<int>, urlScore: Option<int>, anomalous: bool): (r: Overall)
    ensures r.maxScore >= 0
    ensures textScore.Some? ==> r.maxScore >= textScore.value
    ensures urlScore.Some? ==> r.maxScore >= urlScore.value
    ensures anomalous ==> r.maxScore >= 80 && r.overallRisk == "critical"
    ensures r.maxScore == 0 || Some(r.maxScore) == textScore || Some(r.maxScore) == urlScore || (anomalous && r.maxScore == 80)
    ensures r.overallRisk == AiServices.DetermineRiskLevel(r.maxScore)
    ensures r.recommendations == AiServices.GenerateAIRecommendations(r.overallRisk)
  {
    var scores := PresentScores(textScore, urlScore, anomalous);
    var m := MaxOrZero(scores);
    OverallRiskIsDetermineRiskLevel(m);
    Overall(m, OverallRisk(m), AiServices.GenerateAIRecommendations(OverallRisk(m)))
  }

  // ---------------------------------------------------------------------------
  // OTP sign-in and sessions
  // ---------------------------------------------------------------------------

  /** Five minutes, in milliseconds. */
  const OtpLifetime: int := 5 * 60 * 1000
  /** Twenty-four hours, in milliseconds. */
  const SessionLifetime: int := 24 * 60 * 60 * 1000
  const MaxAttempts: nat := 3

  datatype OtpRecord = OtpRecord(otp: string, email: Option<string>, phone: Option<string>, expiresAt: int, attempts: nat)

  datatype Session = Session(email: Option<string>, phone: Option<string>, authenticatedAt: int, expiresAt: int)

  /** `s || null` for an optional request field. */
  function OrNull(s: string): (r: Option<string>)
    ensures r.None? <==> s == ""
  {
    if s == "" then None else Some(s)
  }

  /** `email || phone`, the key of the OTP store. */
  function Identifier(email: string, phone: string): string {
    if email != "" then email else phone
  }

  /**
   * `/^[^\s@]+@[^\s@]+\.[^\s@]+$/`: no whitespace, exactly one `@` with text
   * before it, and a dot after it with text on both sides.
   */
  predicate ValidEmail(s: string) {
    var a := IndexOf(s, '@');
    (forall i :: 0 <= i < |s| ==> !IsSpace(s[i]))
    && 0 < a < |s|
    && (forall i :: a < i < |s| ==> s[i] != '@')
    && (exists d :: a + 1 < d < |s| - 1 && s[d] == '.')
  }

  /** `Math.floor(100000 + Math.random() * 900000).toString()` */
  function OtpCode(r: Unit): (code: string)
    ensures |code| == 6
    ensures forall i :: 0 <= i < |code| ==> '0' <= code[i] <= '9'
  {
    var n := Scaled(r, 900000, 100000);
    NatToStringLength(n, 5);
    NatToString(n)
  }

  datatype OtpRequest = MissingIdentifier | InvalidEmail | Issued(expiresIn: nat) | SendFailed

  /**
   * The padding of the console banner's identifier line,
   * `70 - 13 - (email || phone).length`; `' '.repeat` throws a RangeError
   * when it is negative, inside the request-otp handler's `try`.
   */
  function BannerPadding(id: string): (n: int)
    ensures n < 0 <==> |id| > 57
  {
    70 - 13 - |id|
  }

  /**
   * A well-formed 58-character address: it passes the e-mail check, so its
   * OTP is stored, and then the banner padding is negative.
   */
  lemma LongEmailFailsAfterStoring()
    ensures var e := seq(46, _ => 'a') + "@example.com";
            ValidEmail(e) && |Identifier(e, "")| == 58 && BannerPadding(Identifier(e, "")) < 0
  {
    var e := seq(46, _ => 'a') + "@example.com";
    assert forall j :: 0 <= j < 46 ==> e[j] != '@';
    assert e[46] == '@';
    assert IndexOf(e, '@') == 46;
    assert e[54] == '.';
  }

  datatype VerifyOutcome = NoOtp | Expired | TooManyAttempts | WrongCode(remaining: int) | Verified(record: OtpRecord)

  /** An OTP check compared the code (and so used up one attempt). */
  predicate Compared(o: VerifyOutcome) {
    o.WrongCode? || o.Verified?
  }

  datatype OtpStep = OtpStep(store: map<string, OtpRecord>, outcome: VerifyOutcome)

  /**
   * The verify-otp state machine on the store: a missing record is an error;
   * an expired record or one already at 3 attempts is deleted; otherwise the
   * attempt is counted before the comparison, a wrong code at the third
   * attempt deletes the record, and a right one consumes it.
   */
  function VerifyStep(store: map<string, OtpRecord>, id: string, otp: string, now: int): (r: OtpStep)
    ensures Compared(r.outcome) ==> id in store && now <= store[id].expiresAt && store[id].attempts < MaxAttempts
    ensures r.outcome.Verified? <==>
              id in store && now <= store[id].expiresAt && store[id].attempts < MaxAttempts && store[id].otp == otp
    ensures r.outcome == NoOtp <==> id !in store
    ensures r.outcome == Expired <==> id in store && now > store[id].expiresAt
    ensures r.outcome == TooManyAttempts <==> id in store && now <= store[id].expiresAt && store[id].attempts >= MaxAttempts
    ensures id in store && now <= store[id].expiresAt && store[id].attempts < MaxAttempts && store[id].otp != otp ==>
              r.outcome == WrongCode(MaxAttempts - store[id].attempts - 1)
              && (store[id].attempts + 1 < MaxAttempts <==> id in r.store)
    ensures r.store.Keys <= store.Keys
    ensures forall k :: k in store && k != id ==> k in r.store && r.store[k] == store[k]
    ensures id in r.store ==>
              r.outcome.WrongCode? && r.store[id] == store[id].(attempts := store[id].attempts + 1)
              && r.store[id].attempts < MaxAttempts
  {
    if id !in store then OtpStep(store, NoOtp)
    else
      var rec := store[id];
      if now > rec.expiresAt then OtpStep(store - {id}, Expired)
      else if rec.attempts >= MaxAttempts then OtpStep(store - {id}, TooManyAttempts)
      else
        var tried := rec.(attempts := rec.attempts + 1);
        if rec.otp != otp then
          OtpStep(if tried.attempts >= MaxAttempts then store - {id} else store[id := tried],
                  WrongCode(MaxAttempts - tried.attempts))
        else OtpStep(store - {id}, Verified(tried))
  }

  /** Code comparisons still open to the record under `id`. */
  function Remaining(store: map<string, OtpRecord>, id: string): nat {
    if id in store && store[id].attempts < MaxAttempts then MaxAttempts - store[id].attempts else 0
  }

  /** The number of code comparisons made by successive verify calls (code, time) on one identifier. */
  function Comparisons(store: map<string, OtpRecord>, id: string, guesses: seq<(string, int)>): nat
    decreases |guesses|
  {
    if guesses == [] then 0
    else
      var st := VerifyStep(store, id, guesses[0].0, guesses[0].1);
      (if Compared(st.outcome) then 1 else 0) + Comparisons(st.store, id, guesses[1..])
  }

  /**
   * However many verify calls follow, no more codes are compared than the
   * record has attempts left: at most 3 for a freshly issued OTP.
   */
  lemma {:induction false} AtMostRemainingComparisons(store: map<string, OtpRecord>, id: string, guesses: seq<(string, int)>)
    ensures Comparisons(store, id, guesses) <= Remaining(store, id)
  {
    if guesses != [] {
      var st := VerifyStep(store, id, guesses[0].0, guesses[0].1);
      AtMostRemainingComparisons(st.store, id, guesses[1..]);
      if Compared(st.outcome) {
        assert Remaining(st.store, id) + 1 <= Remaining(store, id);
      } else {
        assert Remaining(st.store, id) == 0;
      }
    }
  }

  /** The OTP store and the session store, the two Maps behind sign-in. */
  class AuthStore {
    var otpStore: map<string, OtpRecord>
    var userSessions: map<string, Session>

    /** Every stored OTP still has an attempt left. */
    predicate Valid()
      reads this
    {
      forall id :: id in otpStore ==> otpStore[id].attempts < MaxAttempts
    }

    constructor ()
      ensures Valid() && otpStore == map[] && userSessions == map[]
    {
      otpStore := map[];
      userSessions := map[];
    }

    /**
     * request-otp: rejects a request with neither email nor phone and a
     * malformed email; otherwise stores a fresh six-digit code under
     * `email || phone`, valid for five minutes, replacing any earlier one.
     * This is the intended behaviour: the console banner never fails the
     * request (see RequestOtpAsWritten).
     */
    method RequestOtp(email: string, phone: string, draw: Unit, now: int) returns (r: OtpRequest)
      modifies this
      ensures userSessions == old(userSessions)
      ensures email == "" && phone == "" ==> r == MissingIdentifier && otpStore == old(otpStore)
      ensures email != "" && !ValidEmail(email) ==> r == InvalidEmail && otpStore == old(otpStore)
      ensures (email != "" || phone != "") && (email == "" || ValidEmail(email)) ==>
                r == Issued(300)
                && otpStore == old(otpStore)[Identifier(email, phone) :=
                                               OtpRecord(OtpCode(draw), OrNull(email), OrNull(phone), now + OtpLifetime, 0)]
      ensures old(Valid()) ==> Valid()
    {
      if email == "" && phone == "" {
        return MissingIdentifier;
      }
      if email != "" && !ValidEmail(email) {
        return InvalidEmail;
      }
      var otp := OtpCode(draw);
      var expiresAt := now + 5 * 60 * 1000;
      otpStore := otpStore[Identifier(email, phone) := OtpRecord(otp, OrNull(email), OrNull(phone), expiresAt, 0)];
      r := Issued(300);
    }

    /**
     * request-otp as written: the same checks and the same store update,
     * but an identifier longer than 57 characters then makes the console
     * banner throw, and the handler answers 500 with the OTP already stored.
     */
    method RequestOtpAsWritten(email: string, phone: string, draw: Unit, now: int) returns (r: OtpRequest)
      modifies this
      ensures userSessions == old(userSessions)
      ensures email == "" && phone == "" ==> r == MissingIdentifier && otpStore == old(otpStore)
      ensures email != "" && !ValidEmail(email) ==> r == InvalidEmail && otpStore == old(otpStore)
      ensures (email != "" || phone != "") && (email == "" || ValidEmail(email)) ==>
                (r == SendFailed <==> |Identifier(email, phone)| > 57)
                && (r != SendFailed ==> r == Issued(300))
                && otpStore == old(otpStore)[Identifier(email, phone) :=
                                               OtpRecord(OtpCode(draw), OrNull(email), OrNull(phone), now + OtpLifetime, 0)]
      ensures old(Valid()) ==> Valid()
    {
      r := RequestOtp(email, phone, draw, now);
      if r.Issued? && BannerPadding(Identifier(email, phone)) < 0 {
        r := SendFailed;
      }
    }

    /**
     * verify-otp: runs the state machine on the record under `email || phone`;
     * a right code opens a 24-hour session under the new token.
     */
    method VerifyOtp(email: string, phone: string, otp: string, now: int, token: string) returns (outcome: VerifyOutcome)
      modifies this
      ensures var st := VerifyStep(old(otpStore), Identifier(email, phone), otp, now);
              otpStore == st.store && outcome == st.outcome
      ensures outcome.Verified? ==>
                userSessions == old(userSessions)[token := Session(
                  if email != "" then Some(email) else outcome.record.email,
                  if phone != "" then Some(phone) else outcome.record.phone,
                  now, now + SessionLifetime)]
      ensures !outcome.Verified? ==> userSessions == old(userSessions)
      ensures old(Valid()) ==> Valid()
    {
      var identifier := if email != "" then email else phone;
      if identifier !in otpStore {
        return NoOtp;
      }
      var storedOtp := otpStore[identifier];
      if now > storedOtp.expiresAt {
        otpStore := otpStore - {identifier};
        return Expired;
      }
      if storedOtp.attempts >= 3 {
        otpStore := otpStore - {identifier};
        return TooManyAttempts;
      }
      storedOtp := storedOtp.(attempts := storedOtp.attempts + 1);
      otpStore := otpStore[identifier := storedOtp];
      if storedOtp.otp != otp {
        if storedOtp.attempts >= 3 {
          otpStore := otpStore - {identifier};
        }
        return WrongCode(3 - storedOtp.attempts);
      }
      var userEmail := if email != "" then Some(email) else storedOtp.email;
      var userPhone := if phone != "" then Some(phone) else storedOtp.phone;
      userSessions := userSessions[token := Session(userEmail, userPhone, now, now + 24 * 60 * 60 * 1000)];
      otpStore := otpStore - {identifier};
      outcome := Verified(storedOtp);
    }

    /**
     * authenticateRequest: the token is the bearer credential, else the
     * `x-session-token` header, the `token` query or body field; an unknown
     * token is rejected, and an expired session is deleted and rejected.
     */
    method Authenticate(authHeader: string, headerToken: string, queryToken: string, bodyToken: string, now: int)
      returns (r: AuthResult)
      modifies this
      ensures otpStore == old(otpStore)
      ensures var tok := SessionToken(authHeader, headerToken, queryToken, bodyToken);
              if tok == "" then r == MissingToken && userSessions == old(userSessions)
              else if tok !in old(userSessions) then r == UnknownSession && userSessions == old(userSessions)
              else if now > old(userSessions)[tok].expiresAt then
                r == SessionExpired && userSessions == old(userSessions) - {tok}
              else r == Authenticated(tok, old(userSessions)[tok]) && userSessions == old(userSessions)
      ensures r.Authenticated? ==> r.token in userSessions && now <= r.session.expiresAt
    {
      var sessionToken := SessionToken(authHeader, headerToken, queryToken, bodyToken);
      if sessionToken == "" {
        return MissingToken;
      }
      if sessionToken !in userSessions {
        return UnknownSession;
      }
      var session := userSessions[sessionToken];
      if now > session.expiresAt {
        userSessions := userSessions - {sessionToken};
        return SessionExpired;
      }
      r := Authenticated(sessionToken, session);
    }

    /** logout: after authentication succeeds, the session is deleted. */
    method Logout(authHeader: string, headerToken: string, queryToken: string, bodyToken: string, now: int)
      returns (r: AuthResult)
      modifies this
      ensures otpStore == old(otpStore)
      ensures r.Authenticated? ==> userSessions == old(userSessions) - {r.token}
      ensures !r.Authenticated? ==> userSessions.Keys <= old(userSessions).Keys
    {
      r := Authenticate(authHeader, headerToken, queryToken, bodyToken, now);
      if r.Authenticated? {
        userSessions := userSessions - {r.token};
      }
    }
  }

  datatype AuthResult = MissingToken | UnknownSession | SessionExpired | Authenticated(token: string, session: Session)

  /** The session token of a request: `Bearer <token>`, else the header, query and body fields in that order. */
  function SessionToken(authHeader: string, headerToken: string, queryToken: string, bodyToken: string): (tok: string)
    ensures StartsWith(authHeader, "Bearer ") ==> authHeader == "Bearer " + tok
    ensures !StartsWith(authHeader, "Bearer ") && headerToken != "" ==> tok == headerToken
    ensures !StartsWith(authHeader, "Bearer ") && headerToken == "" && queryToken != "" ==> tok == queryToken
    ensures !StartsWith(authHeader, "Bearer ") && headerToken == "" && queryToken == "" ==> tok == bodyToken
  {
    if StartsWith(authHeader, "Bearer ") then authHeader[7..]
    else if headerToken != "" then headerToken
    else if queryToken != "" then queryToken
    else bodyToken
  }

  // ---------------------------------------------------------------------------
  // Settings
  // ---------------------------------------------------------------------------

  /** `appSettings`: the thresholds and the notification and integration switches. */
  class Settings {
    var autoBlockThreshold: int
    var warningThreshold: int
    var notifications: map<string, bool>
    var integrations: map<string, bool>

    constructor ()
      ensures autoBlockThreshold == 30 && warningThreshold == 60
      ensures notifications == map["email" := true, "sms" := true, "dailyReports" := false, "realtimeDashboard" := true]
      ensures integrations == map["teams" := true, "outlook" := true, "slack" := false, "zoom" := true, "whatsapp" := false]
    {
      autoBlockThreshold := 30;
      warningThreshold := 60;
      notifications := map["email" := true, "sms" := true, "dailyReports" := false, "realtimeDashboard" := true];
      integrations := map["teams" := true, "outlook" := true, "slack" := false, "zoom" := true, "whatsapp" := false];
    }

    /** POST /api/settings: given thresholds replace the old ones; given switch objects are merged over the old. */
    method Update(autoBlock: Option<int>, warning: Option<int>,
                  newNotifications: Option<map<string, bool>>, newIntegrations: Option<map<string, bool>>)
      modifies this
      ensures autoBlockThreshold == autoBlock.GetOr(old(autoBlockThreshold))
      ensures warningThreshold == warning.GetOr(old(warningThreshold))
      ensures notifications == if newNotifications.Some? then old(notifications) + newNotifications.value else old(notifications)
      ensures integrations == if newIntegrations.Some? then old(integrations) + newIntegrations.value else old(integrations)
      ensures notifications.Keys >= old(notifications).Keys && integrations.Keys >= old(integrations).Keys
    {
      if autoBlock.Some? {
        autoBlockThreshold := autoBlock.value;
      }
      if warning.Some? {
        warningThreshold := warning.value;
      }
      if newNotifications.Some? {
        notifications := notifications + newNotifications.value;
      }
      if newIntegrations.Some? {
        integrations := integrations + newIntegrations.value;
      }
    }
  }

  // ---------------------------------------------------------------------------
  // Threat lifecycle handlers over the simulator's registry
  // ---------------------------------------------------------------------------

  /** How many threats carry the given severity (`threats.filter(t => t.severity === s).length`). */
  function CountSeverity(ts: seq<Threat>, severity: string): (n: nat)
    ensures n <= |ts|
  {
    if ts == [] then 0 else (if ts[0].record.severity == severity then 1 else 0) + CountSeverity(ts[1..], severity)
  }

  /** Every template's severity is critical, high or medium, so the three buckets count every threat. */
  lemma {:induction false} BucketsCoverAll(ts: seq<Threat>)
    requires forall k :: 0 <= k < |ts| ==> Conforms(ts[k].record)
    ensures CountSeverity(ts, "critical") + CountSeverity(ts, "high") + CountSeverity(ts, "medium") == |ts|
  {
    if ts != [] {
      assert forall k :: 0 <= k < |ts| - 1 ==> ts[1..][k] == ts[k + 1];
      BucketsCoverAll(ts[1..]);
      assert Conforms(ts[0].record);
    }
  }

  function ScoreOf(t: Threat): int {
    t.record.threatScore
  }

  /** Ordered by descending `threatScore`. */
  predicate SortedByScore(ts: seq<Threat>) {
    forall a, b :: 0 <= a < b < |ts| ==> ScoreOf(ts[a]) >= ScoreOf(ts[b])
  }

  /** Places `t` in front of the first threat that does not score higher. */
  function InsertByScore(t: Threat, ts: seq<Threat>): (r: seq<Threat>)
    ensures multiset(r) == multiset(ts) + multiset{t}
    ensures |r| == |ts| + 1
  {
    if ts == [] || ScoreOf(ts[0]) <= ScoreOf(t) then [t] + ts
    else
      assert ts == [ts[0]] + ts[1..];
      [ts[0]] + InsertByScore(t, ts[1..])
  }

  /** Inserting into a sorted list keeps it sorted, and bounds it by its old head and `t`. */
  lemma {:induction false} InsertKeepsSorted(t: Threat, ts: seq<Threat>)
    requires SortedByScore(ts)
    ensures SortedByScore(InsertByScore(t, ts))
    ensures forall k :: 0 <= k < |ts| + 1 ==>
              ScoreOf(InsertByScore(t, ts)[k]) <= ScoreOf(t) || (ts != [] && ScoreOf(InsertByScore(t, ts)[k]) <= ScoreOf(ts[0]))
  {
    var r := InsertByScore(t, ts);
    if ts == [] || ScoreOf(ts[0]) <= ScoreOf(t) {
      assert forall k :: 1 <= k < |r| ==> r[k] == ts[k - 1];
    } else {
      var tail := ts[1..];
      assert forall k :: 0 <= k < |tail| ==> tail[k] == ts[k + 1];
      InsertKeepsSorted(t, tail);
      var rest := InsertByScore(t, tail);
      assert ScoreOf(t) < ScoreOf(ts[0]);
      assert tail != [] ==> ScoreOf(tail[0]) <= ScoreOf(ts[0]);
      assert forall k :: 0 <= k < |rest| ==> ScoreOf(rest[k]) <= ScoreOf(ts[0]);
      assert r == [ts[0]] + rest;
      assert forall k :: 1 <= k < |r| ==> r[k] == rest[k - 1];
    }
  }

  /** `threats.sort((a, b) => b.threatScore - a.threatScore)` */
  function SortByScore(ts: seq<Threat>): (r: seq<Threat>)
    ensures multiset(r) == multiset(ts)
    ensures SortedByScore(r)
  {
    if ts == [] then []
    else
      assert ts == [ts[0]] + ts[1..];
      InsertKeepsSorted(ts[0], SortByScore(ts[1..]));
      InsertByScore(ts[0], SortByScore(ts[1..]))
  }

  datatype ActiveListing = ActiveListing(total: nat, critical: nat, high: nat, medium: nat, threats: seq<Threat>)

  /**
   * GET /api/threats/active: the active threats counted by severity and
   * listed by descending score.
   */
  method ListActive(sim: ThreatSimulatorState) returns (r: ActiveListing)
    requires sim.Valid()
    ensures r.total == |sim.activeThreats|
    ensures r.critical == CountSeverity(sim.ActiveList(), "critical")
    ensures r.high == CountSeverity(sim.ActiveList(), "high")
    ensures r.medium == CountSeverity(sim.ActiveList(), "medium")
    ensures r.critical + r.high + r.medium == r.total
    ensures multiset(r.threats) == multiset(sim.ActiveList()) && SortedByScore(r.threats)
  {
    var threats := sim.GetActiveThreats();
    BucketsCoverAll(threats);
    r := ActiveListing(|threats|, CountSeverity(threats, "critical"), CountSeverity(threats, "high"),
                       CountSeverity(threats, "medium"), SortByScore(threats));
  }

  /** `value || fallback` for an optional request field. */
  function OrDefault(s: string, fallback: string): string {
    if s != "" then s else fallback
  }

  /**
   * POST /api/threats/:id/investigate: an active threat gets an in-progress
   * investigation and stays active; an unknown id is not found.
   */
  method Investigate(sim: ThreatSimulatorState, threatId: string, investigator: string, now: int) returns (t: Threat?)
    requires sim.Valid()
    modifies if threatId in sim.activeThreats then {sim.activeThreats[threatId]} else {}
    ensures sim.Valid()
    ensures t == sim.GetThreatDetails(threatId)
    ensures t != null ==>
              t.investigation == Some(Investigation(now, OrDefault(investigator, "System"), "in_progress", []))
              && !t.resolved == !old(t.resolved)
              && unchanged(t`resolution, t`resolvedAt, t`blocked, t`blockedAt, t`blockedBy, t`resolvedBy, t`escalation, t`autoBlocked)
  {
    t := sim.GetThreatDetails(threatId);
    if t == null {
      return;
    }
    t.investigation := Some(Investigation(now, if investigator != "" then investigator else "System", "in_progress", []));
  }

  /**
   * POST /api/threats/:id/escalate: an active threat is marked escalated and
   * stays active; an unknown id is not found.
   */
  method Escalate(sim: ThreatSimulatorState, threatId: string, escalatedTo: string, reason: string, now: int)
    returns (t: Threat?)
    requires sim.Valid()
    modifies if threatId in sim.activeThreats then {sim.activeThreats[threatId]} else {}
    ensures sim.Valid()
    ensures t == sim.GetThreatDetails(threatId)
    ensures t != null ==>
              t.escalation == Some(Escalation(now, OrDefault(escalatedTo, "Security Team"),
                                              OrDefault(reason, "High severity threat requiring attention")))
              && unchanged(t`resolved, t`resolution, t`resolvedAt, t`investigation, t`blocked, t`blockedAt, t`blockedBy, t`resolvedBy, t`autoBlocked)
  {
    t := sim.GetThreatDetails(threatId);
    if t == null {
      return;
    }
    t.escalation := Some(Escalation(now, if escalatedTo != "" then escalatedTo else "Security Team",
                                    if reason != "" then reason else "High severity threat requiring attention"));
  }

  /**
   * POST /api/threats/:id/block: an active threat is marked blocked and then
   * resolved as "blocked", so it leaves the active map but not the history.
   */
  method Block(sim: ThreatSimulatorState, threatId: string, blockedBy: string, now: int) returns (t: Threat?)
    requires sim.Valid()
    modifies sim, if threatId in sim.activeThreats then {sim.activeThreats[threatId]} else {}
    ensures sim.Valid() && sim.threatHistory == old(sim.threatHistory)
    ensures old(threatId in sim.activeThreats) ==>
              t == old(sim.activeThreats[threatId])
              && t.blocked && t.blockedAt == Some(now) && t.blockedBy == Some(OrDefault(blockedBy, "System"))
              && t.resolved && t.resolution == Some("blocked") && t.resolvedAt == Some(now)
              && sim.activeThreats == old(sim.activeThreats) - {threatId}
    ensures old(threatId !in sim.activeThreats) ==> t == null && unchanged(sim)
    ensures sim.GetThreatDetails(threatId) == null
  {
    t := sim.GetThreatDetails(threatId);
    if t == null {
      return;
    }
    t.blocked := true;
    t.blockedAt := Some(now);
    t.blockedBy := Some(if blockedBy != "" then blockedBy else "System");
    var _ := sim.ResolveThreat(threatId, "blocked", now);
  }

  /**
   * POST /api/threats/:id/resolve: resolves an active threat under the given
   * resolution (default "resolved") and records who resolved it.
   */
  method Resolve(sim: ThreatSimulatorState, threatId: string, resolution: string, resolvedBy: string, now: int)
    returns (t: Threat?)
    requires sim.Valid()
    modifies sim, if threatId in sim.activeThreats then {sim.activeThreats[threatId]} else {}
    ensures sim.Valid() && sim.threatHistory == old(sim.threatHistory)
    ensures old(threatId in sim.activeThreats) ==>
              t == old(sim.activeThreats[threatId])
              && t.resolved && t.resolution == Some(OrDefault(resolution, "resolved")) && t.resolvedAt == Some(now)
              && t.resolvedBy == Some(OrDefault(resolvedBy, "System"))
              && sim.activeThreats == old(sim.activeThreats) - {threatId}
    ensures old(threatId !in sim.activeThreats) ==> t == null && unchanged(sim)
    ensures sim.GetThreatDetails(threatId) == null
  {
    t := sim.ResolveThreat(threatId, if resolution != "" then resolution else "resolved", now);
    if t == null {
      return;
    }
    t.resolvedBy := Some(if resolvedBy != "" then resolvedBy else "System");
  }

  /**
   * POST /api/threats/generate and the periodic generator: a new threat
   * scoring at or below the auto-block threshold is marked auto-blocked and
   * resolved as "auto_blocked". Every template scores at least 45, so with
   * the default threshold of 30 this never happens.
   */
  method GenerateThreat(sim: ThreatSimulatorState, settings: Settings, rand: real, d: Draws, now: int, h: Hashing)
    returns (t: Threat)
    requires sim.Valid()
    modifies sim, sim.activeThreats.Values
    ensures sim.Valid() && fresh(t) && Conforms(t.record)
    ensures t.autoBlocked <==> t.record.threatScore <= settings.autoBlockThreshold
    ensures t.autoBlocked ==> t.blockedAt == Some(now)
    ensures settings.autoBlockThreshold < 45 ==> !t.autoBlocked
    ensures Selected(rand).Some? ==>
              sim.threatHistory == old(sim.threatHistory) + [t]
              && (t.autoBlocked ==> t.resolved && t.resolution == Some("auto_blocked") && sim.GetThreatDetails(t.threatId) == null)
              && (!t.autoBlocked ==> !t.resolved && sim.GetThreatDetails(t.threatId) == t)
  {
    t := sim.GenerateRandomThreat(rand, d, now, h);
    ScoreFloor(t.record);
    if t.record.threatScore <= settings.autoBlockThreshold {
      t.autoBlocked := true;
      t.blockedAt := Some(now);
      var _ := sim.ResolveThreat(t.threatId, "auto_blocked", now);
    }
  }
}
