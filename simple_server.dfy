/**
 * backend/simple-server.js: the stand-alone server's own text and URL
 * scorers (no external services), its word-list sentiment score and its
 * recommendation table. Unlike server.js, both tiers are read off the clamped
 * score and neither ever says "critical".
 */
module SimpleServer {
  import opened Wrappers
  import opened Text
  import opened RuleEngine

  // ---------------------------------------------------------------------------
  // analyzeTextSimple
  // ---------------------------------------------------------------------------

  /** The ten text rules of simple-server.js, in table order. */
  const TextRules: seq<Rule> := [
    Rule(@"/urgent.{0,20}action.{0,20}required/gi", "Urgency manipulation detected", 40),
    Rule(@"/verify.{0,20}account/gi", "Account verification scam", 35),
    Rule(@"/click.{0,20}here.{0,20}immediately/gi", "Suspicious call-to-action", 30),
    Rule(@"/suspended.{0,20}account/gi", "Account suspension threat", 45),
    Rule(@"/congratulations.{0,20}winner/gi", "Fake lottery/prize scam", 50),
    Rule(@"/bitcoin|cryptocurrency|investment.{0,20}opportunity/gi", "Cryptocurrency scam", 35),
    Rule(@"/password.{0,20}expired/gi", "Password expiration scam", 30),
    Rule(@"/bank.{0,20}account.{0,20}locked/gi", "Banking scam", 40),
    Rule(@"/<script|javascript:|eval\(|document\.write/gi", "Malicious script detected", 80),
    Rule(@"/base64|eval|unescape|fromcharcode/gi", "Code obfuscation detected", 70)
  ]

  datatype TextThreat = TextThreat(threat: string, severity: string, score: nat, matches: nat)

  function TextEntry(r: Rule, n: nat): TextThreat {
    TextThreat(r.name, ScoreSeverity(r.weight), r.weight, n)
  }

  function TextCounts(text: string, countMatches: (string, string) -> nat): (c: seq<nat>)
    ensures |c| == |TextRules|
  {
    Counts(Patterns(TextRules), text, countMatches)
  }

  function TextTotal(text: string, countMatches: (string, string) -> nat): nat {
    Total(Weights(TextRules), TextCounts(text, countMatches))
  }

  /** The text tier, on the clamped score: above 60 high, above 30 medium. */
  function TextRiskLevel(threatScore: int): (level: string)
    ensures level == "high" <==> threatScore > 60
    ensures level == "medium" <==> 30 < threatScore <= 60
    ensures level == "low" <==> threatScore <= 30
  {
    if threatScore > 60 then "high" else if threatScore > 30 then "medium" else "low"
  }

  const PositiveWords: seq<string> := ["good", "great", "excellent", "safe", "secure", "trusted"]
  const NegativeWords: seq<string> := ["urgent", "immediate", "suspended", "locked", "expired", "verify"]

  /** A word's contribution: +1 when it is a positive word, −2 when it is a negative one. */
  function WordSentiment(word: string): int {
    (if word in PositiveWords then 1 else 0) - (if word in NegativeWords then 2 else 0)
  }

  /** The sentiment of a word list, word by word. */
  function Sentiment(words: seq<string>): int {
    if words == [] then 0 else Sentiment(words[..|words| - 1]) + WordSentiment(words[|words| - 1])
  }

  /** Words of each list, counted with repetition. */
  function CountIn(words: seq<string>, list: seq<string>): (n: nat)
    ensures n <= |words|
  {
    if words == [] then 0 else CountIn(words[..|words| - 1], list) + (if words[|words| - 1] in list then 1 else 0)
  }

  /**
   * The sentiment score is the number of positive words minus twice the
   * number of negative ones (no word is on both lists), so it lies between
   * −2 and +1 per word.
   */
  lemma {:induction false} SentimentCounts(words: seq<string>)
    ensures Sentiment(words) == CountIn(words, PositiveWords) - 2 * CountIn(words, NegativeWords)
    ensures -2 * |words| <= Sentiment(words) <= |words|
  {
    if words != [] {
      var w := words[|words| - 1];
      SentimentCounts(words[..|words| - 1]);
      assert !(w in PositiveWords && w in NegativeWords);
    }
  }

  /** `sentimentScore > 0 ? 'positive' : sentimentScore < 0 ? 'negative' : 'neutral'` */
  function SentimentLabel(score: int): string {
    if score > 0 then "positive" else if score < 0 then "negative" else "neutral"
  }

  /** The words of a list that occur anywhere in the lowercased text (a substring test, not a word test). */
  function Mentioned(list: seq<string>, lowered: string): (r: seq<string>)
    ensures |r| <= |list|
    ensures forall k :: 0 <= k < |r| ==> r[k] in list && Contains(lowered, r[k])
    ensures forall w :: w in list && Contains(lowered, w) ==> w in r
  {
    if list == [] then []
    else
      var rest := Mentioned(list[1..], lowered);
      assert forall w :: w in list ==> w == list[0] || w in list[1..];
      (if Contains(lowered, list[0]) then [list[0]] else []) + rest
  }

  /** The filter goes word by word: filtering a concatenation filters each half, so list order is kept. */
  lemma {:induction false} MentionedConcat(a: seq<string>, b: seq<string>, lowered: string)
    ensures Mentioned(a + b, lowered) == Mentioned(a, lowered) + Mentioned(b, lowered)
  {
    if a == [] {
      assert a + b == b;
    } else {
      assert (a + b)[0] == a[0] && (a + b)[1..] == a[1..] + b;
      MentionedConcat(a[1..], b, lowered);
    }
  }

  /** A single word is listed iff it occurs. */
  lemma MentionedOne(w: string, lowered: string)
    ensures Mentioned([w], lowered) == if Contains(lowered, w) then [w] else []
  {
    assert [w][1..] == [];
  }

  datatype SentimentAnalysis = SentimentAnalysis(score: int, comparative: real, positive: seq<string>, negative: seq<string>)

  datatype Recommendation = Recommendation(action: string, priority: string, message: string, steps: seq<string>)

  datatype TextResult = TextResult(
    threatScore: int,
    riskLevel: string,
    detectedThreats: seq<TextThreat>,
    sentimentAnalysis: SentimentAnalysis,
    explanations: seq<string>,
    recommendations: seq<Recommendation>)

  /**
   * analyzeTextSimple: weight × match count per firing rule, clamped to 100;
   * the sentiment score over the lowercased whitespace-split words; three
   * explanations and one recommendation.
   */
  method AnalyzeTextSimple(text: string, countMatches: (string, string) -> nat) returns (r: TextResult)
    ensures r.threatScore == Min100(TextTotal(text, countMatches)) && 0 <= r.threatScore <= 100
    ensures r.riskLevel == TextRiskLevel(r.threatScore) && r.riskLevel != "critical"
    ensures r.detectedThreats == Detections(TextRules, TextCounts(text, countMatches), TextEntry)
    ensures r.sentimentAnalysis.score == Sentiment(SplitWhitespace(Lower(text)))
    ensures r.sentimentAnalysis.comparative
            == r.sentimentAnalysis.score as real / WordCount(Lower(text)) as real
    ensures r.sentimentAnalysis.positive == Mentioned(PositiveWords, Lower(text))
    ensures r.sentimentAnalysis.negative == Mentioned(NegativeWords, Lower(text))
    ensures |r.explanations| == 3
    ensures r.explanations[2] == "Sentiment analysis: " + SentimentLabel(r.sentimentAnalysis.score)
    ensures r.recommendations == GenerateRecommendations(r.threatScore, r.riskLevel)
  {
    var threats, totalScore := ScoreTextRules(text, countMatches);
    var words := SplitWhitespace(Lower(text));
    var sentimentScore := SentimentScore(words);
    var threatScore := Min100(totalScore);
    var riskLevel := TextRiskLevel(threatScore);
    var sentiment := SentimentAnalysis(sentimentScore, sentimentScore as real / |words| as real,
                                       Mentioned(PositiveWords, Lower(text)), Mentioned(NegativeWords, Lower(text)));
    var explanations := [
      "Detected " + NatToString(|threats|) + " suspicious patterns",
      "Overall threat score: " + IntToString(threatScore) + "/100",
      "Sentiment analysis: " + SentimentLabel(sentimentScore)
    ];
    r := TextResult(threatScore, riskLevel, threats, sentiment, explanations, GenerateRecommendations(threatScore, riskLevel));
  }

  /** The `forEach` over the text rules: the evidence list and the unclamped total. */
  method ScoreTextRules(text: string, countMatches: (string, string) -> nat) returns (threats: seq<TextThreat>, totalScore: nat)
    ensures totalScore == TextTotal(text, countMatches)
    ensures threats == Detections(TextRules, TextCounts(text, countMatches), TextEntry)
  {
    ghost var c := TextCounts(text, countMatches);
    threats := [];
    totalScore := 0;
    var i := 0;
    while i < |TextRules|
      invariant 0 <= i <= |TextRules|
      invariant totalScore == Total(Weights(TextRules)[..i], c[..i])
      invariant threats == Detections(TextRules[..i], c[..i], TextEntry)
    {
      var item := TextRules[i];
      var matches := countMatches(item.pattern, text);
      assert Weights(TextRules)[i] == item.weight && c[i] == matches;
      TotalStep(Weights(TextRules), c, i);
      DetectionsStep(TextRules, c, TextEntry, i);
      if matches > 0 {
        var severity := ScoreSeverity(item.weight);
        threats := threats + [TextThreat(item.name, severity, item.weight, matches)];
        totalScore := totalScore + item.weight * matches;
      }
      i := i + 1;
    }
    assert Weights(TextRules)[..i] == Weights(TextRules) && c[..i] == c && TextRules[..i] == TextRules;
  }

  /** The `forEach` over the words: +1 per positive word, −2 per negative word. */
  method SentimentScore(words: seq<string>) returns (sentimentScore: int)
    ensures sentimentScore == Sentiment(words)
  {
    sentimentScore := 0;
    var j := 0;
    while j < |words|
      invariant 0 <= j <= |words|
      invariant sentimentScore == Sentiment(words[..j])
    {
      var word := words[j];
      assert words[..j + 1][..j] == words[..j];
      if word in PositiveWords {
        sentimentScore := sentimentScore + 1;
      }
      if word in NegativeWords {
        sentimentScore := sentimentScore - 2;
      }
      j := j + 1;
    }
    assert words[..j] == words;
  }

  /** Entries are the rules that fired, in table order, each with its weight, severity and match count. */
  lemma TextEntriesAreFiredRules(text: string, countMatches: (string, string) -> nat)
    ensures var d := Detections(TextRules, TextCounts(text, countMatches), TextEntry);
            var f := Fired(TextCounts(text, countMatches));
            |d| == |f|
            && forall k :: 0 <= k < |d| ==>
                 f[k] < |TextRules| && d[k].matches == countMatches(TextRules[f[k]].pattern, text) > 0
                 && d[k].score == TextRules[f[k]].weight && d[k].severity == ScoreSeverity(d[k].score)
  {
    DetectionsAreFiredRules(TextRules, TextCounts(text, countMatches), TextEntry);
  }

  // ---------------------------------------------------------------------------
  // analyzeURLSimple
  // ---------------------------------------------------------------------------

  /** The six URL rules of simple-server.js; a rule that tests true adds its weight once. */
  const UrlRules: seq<Rule> := [
    Rule(@"/[0-9]+\.[0-9]+\.[0-9]+\.[0-9]+/", "IP address instead of domain", 30),
    Rule(@"/\.tk$|\.ml$|\.ga$|\.cf$/i", "Free domain service", 25),
    Rule(@"/paypa1|faceb00k|goog1e|micr0soft|amazom|twiter|linkedln|netf1ix|app1e/i", "Typosquatting detected", 50),
    Rule(@"/bit\.ly|tinyurl|short\.link|t\.co/i", "URL shortener detected", 15),
    Rule(@"/[a-z]+-[a-z]+-[a-z]+\.[a-z]{2,}/i", "Suspicious hyphenated domain", 20),
    Rule(@"/[0-9]{10,}/", "Suspicious numeric domain", 25)
  ]

  datatype UrlThreat = UrlThreat(threat: string, severity: string, score: nat)

  function UrlEntry(r: Rule, n: nat): UrlThreat {
    UrlThreat(r.name, ScoreSeverity(r.weight), r.weight)
  }

  const NonHttpsEntry: UrlThreat := UrlThreat("Non-HTTPS connection (insecure)", "medium", 15)

  function UrlHits(url: string, test: (string, string) -> bool): (c: seq<nat>)
    ensures |c| == |UrlRules|
  {
    Hits(Patterns(UrlRules), url, test)
  }

  predicate IsHttps(url: string) {
    StartsWith(url, "https://")
  }

  function UrlTotal(url: string, test: (string, string) -> bool): nat {
    Total(Weights(UrlRules), UrlHits(url, test)) + (if IsHttps(url) then 0 else 15)
  }

  function UrlDetections(url: string, test: (string, string) -> bool): seq<UrlThreat> {
    Detections(UrlRules, UrlHits(url, test), UrlEntry) + (if IsHttps(url) then [] else [NonHttpsEntry])
  }

  /** The URL tier, on the clamped score: above 50 high, above 25 medium. */
  function UrlRiskLevel(anomalyScore: int): (level: string)
    ensures level == "high" <==> anomalyScore > 50
    ensures level == "medium" <==> 25 < anomalyScore <= 50
    ensures level == "low" <==> anomalyScore <= 25
  {
    if anomalyScore > 50 then "high" else if anomalyScore > 25 then "medium" else "low"
  }

  /** `url.split('/')[2] || 'Unknown'`: the third `/`-separated segment, when there is a non-empty one. */
  function Domain(url: string): (d: string)
    ensures d != ""
    ensures d == "Unknown" || (|Split(url, '/')| > 2 && Split(url, '/')[2] == d)
    ensures '/' !in d
  {
    var parts := Split(url, '/');
    if |parts| > 2 && parts[2] != "" then parts[2] else "Unknown"
  }

  /** `url.split('://')[0] || 'Unknown'` */
  function Protocol(url: string): (p: string)
    ensures p != ""
    ensures p == "Unknown" || p == Before(url, "://")
  {
    var before := Before(url, "://");
    if before != "" then before else "Unknown"
  }

  datatype UrlResult = UrlResult(
    anomalyScore: int,
    riskLevel: string,
    detectedThreats: seq<UrlThreat>,
    domain: string,
    protocol: string,
    explanations: seq<string>,
    recommendations: seq<Recommendation>)

  /**
   * analyzeURLSimple: each firing rule adds its weight once, a non-https URL
   * adds 15 and a last medium entry; the score is clamped and then tiered.
   */
  method AnalyzeURLSimple(url: string, test: (string, string) -> bool) returns (r: UrlResult)
    ensures r.anomalyScore == Min100(UrlTotal(url, test)) && 0 <= r.anomalyScore <= 100
    ensures r.riskLevel == UrlRiskLevel(r.anomalyScore)
    ensures r.detectedThreats == UrlDetections(url, test)
    ensures r.domain == Domain(url) && r.protocol == Protocol(url)
    ensures |r.explanations| == 3 && r.explanations[2] == "Domain: " + Domain(url)
    ensures r.recommendations == GenerateRecommendations(r.anomalyScore, r.riskLevel)
  {
    var threats, totalScore := ScoreUrlRules(url, test);
    if !StartsWith(url, "https://") {
      threats := threats + [UrlThreat("Non-HTTPS connection (insecure)", "medium", 15)];
      totalScore := totalScore + 15;
    }
    var anomalyScore := Min100(totalScore);
    var riskLevel := UrlRiskLevel(anomalyScore);
    var domain := Domain(url);
    var explanations := UrlExplanations(|threats|, anomalyScore, domain);
    r := UrlResult(anomalyScore, riskLevel, threats, domain, Protocol(url), explanations,
                   GenerateRecommendations(anomalyScore, riskLevel));
  }

  /** The three explanation lines of the URL analysis; the last names the domain. */
  function UrlExplanations(patterns: nat, anomalyScore: int, domain: string): (e: seq<string>)
    ensures |e| == 3 && e[2] == "Domain: " + domain
  {
    [
      "Detected " + NatToString(patterns) + " suspicious URL patterns",
      "Overall anomaly score: " + IntToString(anomalyScore) + "/100",
      "Domain: " + domain
    ]
  }

  /** The `forEach` over the URL rules: the evidence list and the total before the https check. */
  method ScoreUrlRules(url: string, test: (string, string) -> bool) returns (threats: seq<UrlThreat>, totalScore: nat)
    ensures totalScore == Total(Weights(UrlRules), UrlHits(url, test))
    ensures threats == Detections(UrlRules, UrlHits(url, test), UrlEntry)
  {
    ghost var c := UrlHits(url, test);
    threats := [];
    totalScore := 0;
    var i := 0;
    while i < |UrlRules|
      invariant 0 <= i <= |UrlRules|
      invariant totalScore == Total(Weights(UrlRules)[..i], c[..i])
      invariant threats == Detections(UrlRules[..i], c[..i], UrlEntry)
    {
      var item := UrlRules[i];
      assert Weights(UrlRules)[i] == item.weight && c[i] == (if test(item.pattern, url) then 1 else 0);
      TotalStep(Weights(UrlRules), c, i);
      DetectionsStep(UrlRules, c, UrlEntry, i);
      if test(item.pattern, url) {
        var severity := ScoreSeverity(item.weight);
        threats := threats + [UrlThreat(item.name, severity, item.weight)];
        totalScore := totalScore + item.weight;
      }
      i := i + 1;
    }
    assert Weights(UrlRules)[..i] == Weights(UrlRules) && c[..i] == c && UrlRules[..i] == UrlRules;
  }

  /** The non-https entry is present, and last, exactly for a URL not starting with `https://`. */
  lemma NonHttpsEntryIffNotHttps(url: string, test: (string, string) -> bool)
    ensures var d := UrlDetections(url, test);
            (exists k :: 0 <= k < |d| && d[k] == NonHttpsEntry) <==> !IsHttps(url)
    ensures var d := UrlDetections(url, test);
            !IsHttps(url) ==> d[|d| - 1] == NonHttpsEntry
  {
    RuleEntriesAreNotNonHttps(url, test);
    var p := Detections(UrlRules, UrlHits(url, test), UrlEntry);
    var d := UrlDetections(url, test);
    if !IsHttps(url) {
      assert d == p + [NonHttpsEntry];
      assert d[|d| - 1] == NonHttpsEntry;
    } else {
      assert d == p;
    }
  }

  /** No URL rule is named like the non-https entry. */
  lemma UrlRuleNamesDiffer()
    ensures forall i :: 0 <= i < |UrlRules| ==> UrlRules[i].name != NonHttpsEntry.threat
  {
  }

  /** The entries of the fired URL rules never carry the non-https name. */
  lemma RuleEntriesAreNotNonHttps(url: string, test: (string, string) -> bool)
    ensures forall k :: 0 <= k < |Detections(UrlRules, UrlHits(url, test), UrlEntry)| ==>
              Detections(UrlRules, UrlHits(url, test), UrlEntry)[k].threat != NonHttpsEntry.threat
  {
    DetectionsAreFiredRules(UrlRules, UrlHits(url, test), UrlEntry);
    UrlRuleNamesDiffer();
  }

  // ---------------------------------------------------------------------------
  // generateRecommendations
  // ---------------------------------------------------------------------------

  const BlockRecommendation: Recommendation :=
    Recommendation("BLOCK", "high", "High risk detected. Do not proceed.",
      ["Do not click any links or download attachments", "Report this to your security team immediately",
       "Run a full system scan"])
  const VerifyRecommendation: Recommendation :=
    Recommendation("VERIFY", "medium", "Medium risk detected. Verify before proceeding.",
      ["Contact sender through alternative channel", "Check official website for similar communications",
       "Look for security indicators (HTTPS, verified sender)"])
  const ProceedRecommendation: Recommendation :=
    Recommendation("PROCEED", "low", "Low risk detected. Content appears safe.",
      ["Continue normal operation", "Maintain security awareness", "Report any suspicious behavior"])

  /** generateRecommendations: exactly one entry; the tier or the score, whichever is higher, decides. */
  function GenerateRecommendations(score: int, riskLevel: string): (r: seq<Recommendation>)
    ensures |r| == 1
    ensures r[0].action == "BLOCK" <==> riskLevel == "high" || score > 60
    ensures r[0].action == "VERIFY" <==> !(riskLevel == "high" || score > 60) && (riskLevel == "medium" || score > 30)
    ensures r[0].action == "PROCEED" <==> riskLevel !in {"high", "medium"} && score <= 30
    ensures |r[0].steps| == 3
  {
    if riskLevel == "high" || score > 60 then [BlockRecommendation]
    else if riskLevel == "medium" || score > 30 then [VerifyRecommendation]
    else [ProceedRecommendation]
  }

  /**
   * Fed the URL tier, the URL thresholds (50, 25) take over from the score
   * thresholds: a URL scoring 55 is blocked and one scoring 26 is verified.
   */
  lemma UrlRecommendationFollowsTier(score: int)
    ensures var a := GenerateRecommendations(score, UrlRiskLevel(score))[0].action;
            (a == "BLOCK" <==> score > 50) && (a == "VERIFY" <==> 25 < score <= 50) && (a == "PROCEED" <==> score <= 25)
  {
  }

  /** Fed the text tier, the action follows the text thresholds 60 and 30. */
  lemma TextRecommendationFollowsTier(score: int)
    ensures var a := GenerateRecommendations(score, TextRiskLevel(score))[0].action;
            (a == "BLOCK" <==> score > 60) && (a == "VERIFY" <==> 30 < score <= 60) && (a == "PROCEED" <==> score <= 30)
  {
  }
}
