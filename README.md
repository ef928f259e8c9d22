# CyberAgiesX backend core in Dafny

CyberAgiesX is a Node.js security console. Its backend scores text and URLs against fixed tables of suspicious patterns, keeps a per-user behavioural baseline and runs a registry of simulated threats that analysts investigate, block, resolve or escalate. It also includes a SOC log analyser ("BlueSentinel") that triages log lines into threats, MITRE ATT&CK techniques and indicators of compromise, plus the ingestion paths for e-mail (Gmail) and phone calls (Twilio), which anonymise the parties, attach a trust score and store an event row.

This project models that core in Dafny and proves what each operation promises. There is one module per source file:

| Dafny file | module | models |
|---|---|---|
| `rule_engine.dfy` | `RuleEngine` | the shared shape of a rule table: the sum of weight × count over fired rules, the fired-rule entries in table order, and the severity bands |
| `ai_services.dfy` | `AiServices` | `backend/ai-services.js`: pattern scoring, the max combination with the classifier, risk tiers, recommendations, and the behavioural baseline with its fallback anomaly score |
| `server.dfy` | `Server` | `backend/server.js`: its own text/URL scorers and tiers, the comprehensive overall risk, the OTP and session store, settings, and the threat lifecycle handlers |
| `simple_server.dfy` | `SimpleServer` | `backend/simple-server.js`: the third copy of the scorers, the word sentiment score and its recommendations |
| `threat_simulator.dfy` | `ThreatSimulator` | `backend/threat-simulator.js`: weighted template selection, the five threat generators, packet and log evidence, and the active map with its append-only history |
| `trust_score.dfy` | `TrustScore` | `backend/utils/trustScore.js` |
| `bluesentinel.dfy` | `BlueSentinel` | `backend/bluesentinel-api.js` |
| `anonymize.dfy` | `Anonymize` | `backend/utils/anonymize.js` |
| `gmail.dfy` | `Gmail` | the header, recipient, MIME-walk, attachment and insert logic of `backend/utils/gmail.js` |
| `events.dfy` | `Events` | `backend/routes/events.js` and the `events` table the ingestion paths write |
| `webhooks.dfy` | `Webhooks` | `backend/routes/webhooks.js` |
| `common.dfy` | `Wrappers`, `Text` | `Option`, and the JavaScript string built-ins the core uses (`toLowerCase`, `split`, `trim`, `indexOf`, `startsWith`, `includes`, `slice`) |

## Conventions

- Regular expressions are parameters:
  - `countMatches(pattern, text)` is the length of `text.match(pattern)`;
  - `test(pattern, text)` is `pattern.test(text)`;
  - `matchAll(pattern, text)` is the match list.
- A pattern is named by its source text. The plain string built-ins are modelled concretely, with ASCII case mapping and ASCII whitespace (see "## Left out").
- Randomness, the clock and the hour of day are parameters:
  - `Math.random()` draws are values of `Unit` (reals in [0, 1));
  - `Date.now()` is `now`;
  - `new Date().getHours()` is `hour`.
- SHA-256, HMAC-SHA1 with base64, `randomBytes` and base64 decoding are parameters. Their results are only compared or stored.
- A JavaScript value that is only tested for truthiness (`null`, `undefined` or `''`) is the empty string.
- An object that the source mutates in place and shares by reference is a Dafny `class`. This applies to:
  - a simulated threat;
  - the simulator registry;
  - the OTP and session store;
  - the settings;
  - the IOC lists;
  - the events table;
  - the attachment accumulator.
- Rule tables, reports and rows are datatypes.
- Scores are integers where the source only adds integers. The trust score is a `real`, so its arithmetic is exact.

### Notes on the code

- The behavioural profile appends every login hour and never truncates its list (`backend/ai-services.js:378`). Only the fallback score reads `slice(-10)`; `extractBehavioralFeatures` averages every recorded hour. The model keeps the whole list. `AiServices.OnlyLastTenHoursCount` shows that older hours do not affect the fallback score, and `AiServices.FeaturesReadEveryHour` shows that they do move the feature vector's time deviation.
- The template probabilities sum to exactly 1 in the model. In IEEE doubles the running sum ends at 0.9999999999999999 = 1 − 2^-53, the largest double below 1, which is also the largest value `Math.random()` can return. So the phishing fallback (`backend/threat-simulator.js:420-421`) is unreachable in the source as well. The model keeps the fallback branch for draws the table does not cover, and `ThreatSimulator.EveryDrawSelects` shows that no draw in [0, 1) reaches it.

## Model

| member | source | states |
|---|---|---|
| RuleEngine.ScoreSeverity | backend/simple-server.js:139 | a rule entry's severity is "high" iff its score is above 40, "medium" iff it is in (20, 40], and "low" otherwise |
| RuleEngine.Fired | backend/ai-services.js:157-167 | the indices of the rules that fired: strictly increasing, each with a positive count, and every rule with a positive count is among them |
| RuleEngine.DetectionsAreFiredRules | backend/ai-services.js:157-167 | the pushed entries correspond one to one, in table order, to the fired rules, and each is built from its rule and match count |
| RuleEngine.TotalZeroIffNoneFired | backend/ai-services.js:154-170 | with positive weights, the accumulated total is 0 iff no rule fired |
| RuleEngine.TotalAtLeastTerm | backend/ai-services.js:157-167 | the total is at least the weight × count of any single rule |
| RuleEngine.TotalOfNoHits | backend/ai-services.js:154-170 | no matches give a total of 0 |
| RuleEngine.TotalOfOneHit | backend/ai-services.js:157-167 | when only one rule matches, the total is that rule's weight × count |
| RuleEngine.TotalOfHitsBounded | backend/ai-services.js:333-341 | when each rule counts at most once (URL rules), the total is at most the sum of all weights |
| RuleEngine.TotalStep | backend/ai-services.js:157-167 | one `forEach` step adds weight × count to the running total, or nothing when the rule did not fire |
| RuleEngine.DetectionsStep | backend/ai-services.js:157-167 | one `forEach` step pushes the rule's entry iff it fired |
| AiServices.AnalyzeTextPatterns | backend/ai-services.js:140-175 | the score is min(100, Σ weight × matches) over the rule table and lies in [0, 100]; the threats are the fired rules in table order; the score is 0 iff no threat is listed; `suspiciousWords` is the number of threats, and `wordCount` counts whitespace-separated words |
| AiServices.TextScoreZeroIffNoThreat | backend/ai-services.js:154-170 | the unclamped pattern total is 0 iff the threat list is empty |
| AiServices.TextThreatsAreFiredRules | backend/ai-services.js:157-167 | each listed threat is a rule that fired, in rule order, with its name, weight and positive match count |
| AiServices.DetermineRiskLevel | backend/ai-services.js:570-575 | "critical" iff the score is ≥ 80, "high" iff it is in [60, 80), "medium" iff it is in [30, 60), and "low" iff it is < 30 |
| AiServices.RiskLevelMonotone | backend/ai-services.js:570-575 | a higher score never yields a lower tier |
| AiServices.RiskLevelBoundaries | backend/ai-services.js:570-575 | 29→low, 30→medium, 59→medium, 60→high, 79→high, 80→critical |
| AiServices.GenerateAIRecommendations | backend/ai-services.js:460-499 | exactly one entry: BLOCK iff critical, VERIFY iff high, CAUTION iff medium, PROCEED for any other tier; the priority is high/high/medium/low respectively |
| AiServices.AiRecommendationFollowsScore | backend/ai-services.js:460-499 | applied to a tiered score, the action is BLOCK iff ≥ 80, VERIFY iff in [60, 80), CAUTION iff in [30, 60), PROCEED iff < 30 |
| AiServices.GenerateRecommendations | backend/ai-services.js:520-534 | block advice iff the score is > 70, sender verification iff it is in (40, 70], only the general caution iff it is ≤ 40; two entries above 40 |
| AiServices.GenerateURLRecommendations | backend/ai-services.js:554-568 | do-not-visit advice iff the score is > 70, sandbox advice iff it is in (40, 70], only the general caution iff it is ≤ 40; two entries above 40 |
| AiServices.CriticalGetsBlockingAdvice | backend/ai-services.js:520-534 | a critical text always gets the block advice; a score of 75 is "high" and still gets it |
| AiServices.GenerateExplanations | backend/ai-services.js:502-518 | one line for the classifier's explanation when present, then one for strongly negative sentiment (< -0.5), then one with the pattern count when patterns fired, in that order and no others |
| AiServices.AnalyzeTextWithAI | backend/ai-services.js:69-138 | the threat score is the max of the pattern score and the classifier score, never their sum: at least each, and equal to one of them; without a classifier it is the pattern score; tier, recommendations and explanations are derived from that score |
| AiServices.DomainOf | backend/ai-services.js:355 | the third '/'-separated field of the URL (absent when there is none), which never holds a '/' |
| AiServices.AnalyzeURLPatterns | backend/ai-services.js:320-358 | the score is min(100, Σ weights of matching patterns + 15 without https) and lies in [0, 100]; the entries are the matching rules, then the non-HTTPS entry; domain and protocol are the '/' and '://' fields |
| AiServices.NonHttpsEntryIffNotHttps | backend/ai-services.js:343-350 | a 15-point "Non-HTTPS connection" entry is listed iff the URL does not start with `https://`; it is then the last entry and appears only once |
| AiServices.RuleEntriesAreNotNonHttps | backend/ai-services.js:324-341 | no pattern rule produces an entry named like the non-HTTPS entry |
| AiServices.HttpIpAddressExample | backend/ai-services.js:324-353 | an `http://` URL that matches only the IP-address rule scores 30 + 15 = 45, which is "medium" |
| AiServices.ReputationScore | backend/ai-services.js:196-276 | the score from the reputation services is a non-negative maximum of their outputs |
| AiServices.GenerateURLExplanations | backend/ai-services.js:536-552 | a VirusTotal line when it flagged the URL, then a Safe Browsing line on a match, then the pattern count when patterns fired, in that order and no others |
| AiServices.AnalyzeURLWithAI | backend/ai-services.js:178-318 | the final anomaly score is the pattern score, because line 305 overwrites whatever the reputation services produced; tier, recommendations and explanations follow from it |
| AiServices.ReputationNeverReachesScore | backend/ai-services.js:303-311 | two analyses of the same URL with different reputation results give the same anomaly score, tier and recommendations |
| AiServices.LastTen | backend/ai-services.js:424 | `slice(-10)`: the last min(10, n) hours, as a suffix of the list |
| AiServices.FallbackScore | backend/ai-services.js:419-436 | the fallback score is one of 0, -0.3, -0.5 and -0.8, and it is < -0.5 iff the hour is unusual against the last ten hours and more than five anomalies were already counted |
| AiServices.FewAnomaliesNeverFlag | backend/ai-services.js:433 | with at most five anomalies recorded the fallback score is ≥ -0.5, so it never flags |
| AiServices.OnlyLastTenHoursCount | backend/ai-services.js:424-429 | login hours older than the last ten do not change the fallback score |
| AiServices.DistinctBounds | backend/ai-services.js:447 | the number of distinct actions is between 1 and the number of actions for a non-empty list |
| AiServices.ExtractBehavioralFeatures | backend/ai-services.js:438-457 | features exist iff both histories are non-empty (otherwise the source divides by zero); the time deviation is the distance of the hour from the mean of every recorded hour; pattern consistency is 1 − distinct/n, so it is in [0, 1) and is 0 iff all actions differ; hour, risk tolerance and anomaly count pass through |
| AiServices.FeaturesReadEveryHour | backend/ai-services.js:443-444 | the time deviation averages every recorded hour: one old login at 23 before ten at noon puts noon one hour off, while the fallback's last ten hours see no unusual hour |
| AiServices.BehaviourVerdict | backend/ai-services.js:397-413 | anomalous iff the score is < -0.5, and then the two fixed recommendations; none otherwise |
| AiServices.Record | backend/ai-services.js:377-379 | an observation appends exactly one hour and one action and leaves the counter alone |
| AiServices.Observe | backend/ai-services.js:374-399 | one observation grows each history by one and raises the counter by 1 iff the fallback score is < -0.5 |
| AiServices.FallbackCounterStaysZero | backend/ai-services.js:363-399 | starting from 0, any sequence of observations leaves the anomaly counter at 0 |
| AiServices.AiServicesState.AnalyzeBehavioralPatterns | backend/ai-services.js:361-417 | creates the profile lazily, updates only this user's profile by one observation, and returns the verdict of the fallback score; while every counter is 0, none is raised and no call reports an anomaly |
| Server.SeverityWeights | backend/server.js:206-211 | each rule's weight is its severity's score (low 10, medium 25, high 40, critical 60) |
| Server.TextRiskLevel | backend/server.js:226 | "critical" iff the total is > 60, "high" iff in (30, 60], "medium" iff in (10, 30], and "low" otherwise |
| Server.AnalyzeText | backend/server.js:188-234 | the score is min(100, Σ severity weight × matches) in [0, 100]; the tier is taken from the unclamped total; the threats are the fired rules in order |
| Server.TextThreatsScoreBySeverity | backend/server.js:203-222 | each entry is a fired rule with its threat, severity name, positive match count and score = severity weight × matches |
| Server.TextLowIffNoThreat | backend/server.js:203-226 | the total is 0 iff no rule fired iff the tier is "low" |
| Server.TextTierIgnoresClamp | backend/server.js:225-226 | the tier of the clamped score equals the tier of the unclamped total |
| Server.SingleScriptMatchIsHigh | backend/server.js:197-226 | a single match of the critical script rule scores 60, which is "high" (not above 60) |
| Server.UrlRiskLevel | backend/server.js:271 | "critical" iff the total is > 50, "high" iff in (25, 50], "medium" iff in (10, 25], and "low" otherwise |
| Server.AnalyzeURL | backend/server.js:236-279 | the score is min(100, Σ matching weights + 15 without https) in [0, 100]; the tier is taken from the unclamped total; entries, protocol and domain are as in the rule table |
| Server.UrlEntriesAreFiredRules | backend/server.js:259-267 | the non-HTTPS entry is listed iff the URL does not start with `https://`, and then it is last |
| Server.UrlEntrySeverities | backend/server.js:248-257 | each pattern entry is a fired rule with its weight as score and the 40/20 severity band of that weight |
| Server.UrlTierIgnoresClamp | backend/server.js:269-271 | the tier of the clamped score equals the tier of the unclamped total |
| Server.HttpIpAddressIsHigh | backend/server.js:240-271 | `http://` with only an IP address scores 45, which is "high" here although the AI service calls 45 "medium" |
| Server.PresentScores | backend/server.js:564-567 | the text score, the URL score and 80 for an anomalous behaviour, each iff present, in that order and nothing else |
| Server.MaxOrZero | backend/server.js:569 | `Math.max(...scores, 0)`: non-negative, at least every score, and either 0 or one of the scores |
| Server.OverallRiskIsDetermineRiskLevel | backend/server.js:570 | the inline tier expression is the AI service's 30/60/80 tiering |
| Server.Comprehensive | backend/server.js:564-576 | the overall score is the max over the present sources floored at 0; an anomalous behaviour forces "critical"; the tier and the one recommendation follow the 30/60/80 tiering |
| Server.OtpCode | backend/server.js:625 | the code has six decimal digits |
| Server.VerifyStep | backend/server.js:698-736 | the OTP verify step: no record iff missing; Expired iff the record is past its expiry; TooManyAttempts iff live with 3 attempts; success iff live, under 3 attempts and the code matches; a wrong code answers WrongCode(3 − attempts − 1) and keeps the record, with attempts + 1, iff that is still under 3; other records never change |
| Server.AtMostRemainingComparisons | backend/server.js:712-723 | over any sequence of guesses, an issued OTP is compared at most as many times as it has attempts left (at most 3) |
| Server.AuthStore.RequestOtp | backend/server.js:612-636 | 400 without an e-mail and phone, 400 for a malformed e-mail; otherwise a record with 0 attempts and a 5-minute expiry replaces any earlier one under the e-mail (or the phone), and the answer is the 300-second success; sessions are untouched |
| Server.BannerPadding | backend/server.js:663 | the banner's padding is negative iff the identifier is longer than 57 characters |
| Server.AuthStore.RequestOtpAsWritten | backend/server.js:612-696 | the same checks and store update as RequestOtp, but the answer is the 500 "Failed to send OTP" iff the identifier is longer than 57 characters, with the OTP already stored |
| Server.LongEmailFailsAfterStoring | backend/server.js:621-663 | a 58-character address passes the e-mail check and then makes the banner padding negative |
| Server.AuthStore.VerifyOtp | backend/server.js:698-748 | the store changes as the verify step says; on success exactly one session is added with a 24-hour expiry; otherwise sessions are untouched |
| Server.AuthStore.Authenticate | backend/server.js:586-609 | 401 without a token or for an unknown one; an expired session is deleted and rejected; otherwise the session is accepted unchanged and is live |
| Server.AuthStore.Logout | backend/server.js:764-767 | an authenticated logout deletes exactly that session; the OTP store is untouched |
| Server.SessionToken | backend/server.js:587-590 | a `Bearer ` header gives the rest of the header; otherwise the header token if set, else the query token if set, else the body token |
| Server.Settings.Update | backend/server.js:774-786 | each threshold is replaced only when given; notification and integration maps are merged key by key, keeping old keys |
| Server.BucketsCoverAll | backend/server.js:800-808 | critical, high and medium counts of registered threats add up to the total, since every template's severity is one of these |
| Server.InsertKeepsSorted | backend/server.js:809 | inserting a threat into a list sorted by descending score keeps it sorted |
| Server.SortByScore | backend/server.js:809 | the result is a permutation of the active threats, sorted by descending score |
| Server.ListActive | backend/server.js:796-811 | the per-severity counts and the total of the active threats, and the threats sorted by descending score |
| Server.Investigate | backend/server.js:824-850 | not-found for an inactive id; otherwise only the investigation record is set and the threat stays active |
| Server.Escalate | backend/server.js:903-927 | not-found for an inactive id; otherwise only the escalation record is set, with the default recipient and reason when they are not given |
| Server.Block | backend/server.js:852-877 | not-found for an inactive id; otherwise the threat is marked blocked and resolved as "blocked", and it leaves the active map but not the history |
| Server.Resolve | backend/server.js:879-901 | not-found for an inactive id; otherwise it is resolved with the given resolution (default "resolved") and leaves the active map but not the history |
| Server.GenerateThreat | backend/server.js:929-949 | a new threat is auto-blocked iff its score is ≤ the auto-block threshold; it is then resolved as "auto_blocked" and gone from the active map; below the simulator's floor of 45 (the default is 30) this never fires |
| SimpleServer.TextRiskLevel | backend/simple-server.js:99-100 | "high" iff the clamped score is > 60, "medium" iff it is in (30, 60], "low" otherwise; never "critical" |
| SimpleServer.SentimentCounts | backend/simple-server.js:88-97 | the sentiment is +1 per positive word and −2 per negative word, so it lies in [−2n, n] for n words |
| SimpleServer.Mentioned | backend/simple-server.js:109-110 | a word of the list is listed iff it occurs in the lowercased text |
| SimpleServer.MentionedConcat | backend/simple-server.js:109-110 | `filter` goes word by word: the result of a concatenated list is the concatenation, so list order is kept |
| SimpleServer.MentionedOne | backend/simple-server.js:109-110 | a single word is listed iff it occurs |
| SimpleServer.AnalyzeTextSimple | backend/simple-server.js:57-118 | the score is min(100, Σ weight × matches); the tier uses the clamped score; sentiment is computed on exact lowercased tokens; exactly three explanations; the recommendation follows score and tier |
| SimpleServer.ScoreTextRules | backend/simple-server.js:74-86 | the loop's total is the rule total and its entries are the fired rules in order |
| SimpleServer.SentimentScore | backend/simple-server.js:93-96 | the loop computes the +1/−2 sentiment of the words |
| SimpleServer.TextEntriesAreFiredRules | backend/simple-server.js:74-86 | each entry is a fired rule with its positive match count, its weight and the 40/20 severity band |
| SimpleServer.UrlRiskLevel | backend/simple-server.js:157-158 | "high" iff the clamped score is > 50, "medium" iff it is in (25, 50], "low" otherwise |
| SimpleServer.Domain | backend/simple-server.js:162 | the third '/'-separated field when there is one and it is not empty, otherwise "Unknown" |
| SimpleServer.Protocol | backend/simple-server.js:163 | the text before the first "://" when it is not empty, otherwise "Unknown" |
| SimpleServer.AnalyzeURLSimple | backend/simple-server.js:121-170 | the score is min(100, Σ matching weights + 15 without https), tiered at 50/25; domain, protocol, three explanations ending with the domain, and the recommendation follow |
| SimpleServer.ScoreUrlRules | backend/simple-server.js:135-144 | the loop's total and entries are those of the URL rule table |
| SimpleServer.NonHttpsEntryIffNotHttps | backend/simple-server.js:146-154 | the non-HTTPS entry is listed iff the URL does not start with `https://`, and then it is last |
| SimpleServer.GenerateRecommendations | backend/simple-server.js:173-213 | exactly one entry with three steps: BLOCK iff the tier is high or the score is > 60, else VERIFY iff the tier is medium or the score is > 30, else PROCEED |
| SimpleServer.UrlRecommendationFollowsTier | backend/simple-server.js:157-169 | for a URL: BLOCK iff the score is > 50, VERIFY iff it is in (25, 50], PROCEED iff it is ≤ 25 |
| SimpleServer.TextRecommendationFollowsTier | backend/simple-server.js:99-117 | for a text: BLOCK iff the score is > 60, VERIFY iff it is in (30, 60], PROCEED iff it is ≤ 30 |
| ThreatSimulator.Scaled | backend/threat-simulator.js:91 | `Math.floor(r × span) + base` lies in [base, base + span) |
| ThreatSimulator.SelectFrom | backend/threat-simulator.js:410-416 | the first template whose cumulative probability is ≥ the draw, or none when the draw exceeds every cumulative sum |
| ThreatSimulator.EveryDrawSelects | backend/threat-simulator.js:17-43 | the probabilities sum to 1, so every draw in [0, 1) selects a template |
| ThreatSimulator.SelectionIntervals | backend/threat-simulator.js:410-416 | for a draw in (0, 1), template i is chosen iff the draw lies in (cumulative(i), cumulative(i + 1)] |
| ThreatSimulator.CumulativeMonotone | backend/threat-simulator.js:17-43 | cumulative probabilities never decrease along the table |
| ThreatSimulator.SelectTemplate | backend/threat-simulator.js:410-419 | the loop chooses exactly the selected template |
| ThreatSimulator.PacketCount | backend/threat-simulator.js:253 | a capture reports between 50 and 149 packets |
| ThreatSimulator.PacketAt | backend/threat-simulator.js:255-266 | a packet's size is in [64, 1563], its sequence number is below 1000000, its protocol defaults to TCP, and it is timestamped 10 ms apart going back from now |
| ThreatSimulator.GeneratePacketCapture | backend/threat-simulator.js:251-274 | `totalPackets` is in [50, 149], but only the first 20 packets are returned; the hash covers all of them |
| ThreatSimulator.LogTemplatesFor | backend/threat-simulator.js:280-307 | six templates per event type, and any unknown type falls back to the phishing ones |
| ThreatSimulator.LogCount | backend/threat-simulator.js:307 | between 5 and 14 log entries |
| ThreatSimulator.GenerateSystemLogs | backend/threat-simulator.js:276-327 | 5 to 14 entries, each built for its index by the log rule |
| ThreatSimulator.LogsTagged | backend/threat-simulator.js:309-324 | every entry carries the threat id and the "ThreatDetection" component, and is timestamped 1 s apart going back from now |
| ThreatSimulator.ScoreFloor | backend/threat-simulator.js:208 | every template scores at least 45 |
| ThreatSimulator.GenerateDeepfakeThreat | backend/threat-simulator.js:47-106 | critical severity, a block action and a score in [70, 99]; the forensic hash covers the evidence bundle; RTP/RTCP packets and deepfake logs |
| ThreatSimulator.GenerateVoiceCloneThreat | backend/threat-simulator.js:109-173 | high severity, a verify action and a score in [65, 89]; the hash covers the evidence; voice-clone logs |
| ThreatSimulator.GeneratePhishingThreat | backend/threat-simulator.js:176-217 | medium severity, a warn action and a score in [45, 79]; the hash covers the evidence; SMTP packets and phishing logs |
| ThreatSimulator.GenerateBehavioralThreat | backend/threat-simulator.js:357-379 | medium severity, a monitor action and a score in [50, 79]; the forensic hash covers only the timestamp string; no packets or logs |
| ThreatSimulator.GenerateNetworkThreat | backend/threat-simulator.js:381-403 | high severity, a block action and a score in [70, 94]; the forensic hash covers only the timestamp string; TCP packets and no logs |
| ThreatSimulator.Without | backend/threat-simulator.js:441 | deleting a key from the Map's insertion order keeps every other key and only those |
| ThreatSimulator.WithoutKeepsDistinct | backend/threat-simulator.js:441 | the insertion order stays duplicate-free after a delete |
| ThreatSimulator.ThreatSimulatorState.constructor | backend/threat-simulator.js:7-14 | the registry starts with no active threats and an empty history |
| ThreatSimulator.ThreatSimulatorState.GetThreatDetails | backend/threat-simulator.js:430-432 | a threat is found iff its id is active; it then has that id, conforms to its template and is in the history |
| ThreatSimulator.ThreatSimulatorState.ActiveList | backend/threat-simulator.js:425-427 | the active threats in Map insertion order, one per active id, each conforming to its template |
| ThreatSimulator.ThreatSimulatorState.GetActiveThreats | backend/threat-simulator.js:425-427 | returns the active list |
| ThreatSimulator.ThreatSimulatorState.GenerateRandomThreat | backend/threat-simulator.js:406-422 | a selected threat, of the chosen template's kind, is added to the active map under its id and appended to the history; the fallback phishing threat is returned but neither registered nor logged |
| ThreatSimulator.ThreatSimulatorState.GenerateFromTemplate | backend/threat-simulator.js:17-43 | the chosen template's generator produces a threat of that kind that conforms to it |
| ThreatSimulator.ThreatSimulatorState.Register | backend/threat-simulator.js:414-415 | the threat is set in the active map (a new id goes last in the insertion order) and appended to the history |
| ThreatSimulator.ThreatSimulatorState.ResolveThreat | backend/threat-simulator.js:435-445 | an active threat is marked resolved with the resolution and time, leaves the active map and is returned, with the history unchanged; an unknown id returns null and changes nothing; afterwards the id is not found |
| ThreatSimulator.DistinctLength | backend/threat-simulator.js:425-427 | a duplicate-free insertion order has exactly one entry per active id |
| TrustScore.Clamp | backend/utils/trustScore.js:62 | the result lies in [0, 100] and leaves values already in range alone |
| TrustScore.Round1 | backend/utils/trustScore.js:64 | the result has one decimal place and is within 0.05 of the input |
| TrustScore.ComputeTrustScore | backend/utils/trustScore.js:11-65 | exactly 50 for a missing or empty bundle; otherwise the clamped sum of the deltas, rounded to one decimal; always in [0, 100] |
| TrustScore.RoundStaysInRange | backend/utils/trustScore.js:62-64 | rounding a clamped score stays in [0, 100] |
| TrustScore.RoundOfTenth | backend/utils/trustScore.js:64 | a multiple of 0.1 rounds to itself |
| TrustScore.AllChecksFailIsZero | backend/utils/trustScore.js:31-38 | failed SPF, DKIM and sender verification give 50 − 15 − 15 − 20 = 0 |
| TrustScore.GmailBundleIsNeutral | backend/utils/trustScore.js:31-38 | passing SPF and DKIM with an unverified sender gives 50 |
| TrustScore.UnrecognisedKeysAreNeutral | backend/utils/trustScore.js:16 | a non-empty bundle with no recognised key gives 50 |
| TrustScore.StyleAgree | backend/utils/trustScore.js:19-28 | the style delta depends only on `stylistic_score` and `behavior_score` |
| TrustScore.AuthAgree | backend/utils/trustScore.js:31-38 | the authentication delta depends only on the three flags |
| TrustScore.ArtifactAgree | backend/utils/trustScore.js:47-49 | the artifact delta depends only on the three artifact flags |
| TrustScore.PatternAgree | backend/utils/trustScore.js:52-54 | the behaviour-pattern delta depends only on `behavioralPattern` |
| TrustScore.FlagsNeedExactBooleans | backend/utils/trustScore.js:31-49 | a flag that is not exactly true or false counts as if it were absent |
| TrustScore.OnlyKnownBehaviourTags | backend/utils/trustScore.js:52-54 | a behaviour tag other than the three known ones counts as if it were absent |
| TrustScore.ClampMonotone | backend/utils/trustScore.js:62 | clamping preserves order |
| TrustScore.RoundMonotone | backend/utils/trustScore.js:64 | rounding preserves order |
| TrustScore.VoiceCloneNeverRaises | backend/utils/trustScore.js:57-64 | raising the voice-clone probability, all else fixed, never raises the score |
| BlueSentinel.LineHits | backend/bluesentinel-api.js:184-262 | a keyword group fires iff the lowercased line contains one of its keywords |
| BlueSentinel.LinePrefixIsDetections | backend/bluesentinel-api.js:184-262 | after the first k groups, the threats, techniques and risk are the fired groups' entries in order and the sum of their risks |
| BlueSentinel.PushIfFound | backend/bluesentinel-api.js:185-195 | a group that fires pushes its threat and its technique and adds its risk; otherwise nothing changes |
| BlueSentinel.AnalyzeLogLine | backend/bluesentinel-api.js:175-263 | the line's analysis is that of the six keyword groups (30, 50, 60, 25, 20, 25) on the lowercased line; threats and techniques have equal length and the risk is ≤ 210 |
| BlueSentinel.LineBounds | backend/bluesentinel-api.js:175-263 | each technique is its threat's technique; the risk is ≤ 210, and 0 iff no threat |
| BlueSentinel.AddUnseen | backend/bluesentinel-api.js:265-308 | appending only unseen values keeps the old list as a prefix, adds exactly the new values, and keeps the list duplicate-free |
| BlueSentinel.AddUnseenConcat | backend/bluesentinel-api.js:265-308 | adding two runs of items one after the other is adding their concatenation |
| BlueSentinel.AddUnseenIsDedupe | backend/bluesentinel-api.js:292-296 | on a duplicate-free list, adding unseen items is `[...new Set(list.concat(items))]`, so new items arrive in order of first appearance |
| BlueSentinel.FirstIndex | backend/bluesentinel-api.js:169 | the position of a value's first occurrence |
| BlueSentinel.DedupeFirstOccurrenceOrder | backend/bluesentinel-api.js:169 | `[...new Set(xs)]` lists values in the order of their first occurrence in `xs` |
| BlueSentinel.Dedupe | backend/bluesentinel-api.js:169 | `[...new Set(xs)]`: duplicate-free, with exactly the same members |
| BlueSentinel.DedupeOfDistinct | backend/bluesentinel-api.js:169 | a list without duplicates is unchanged, so the first-occurrence order is kept |
| BlueSentinel.DedupeIdempotent | backend/bluesentinel-api.js:169 | deduplicating twice equals deduplicating once |
| BlueSentinel.PushUnseen | backend/bluesentinel-api.js:292-296 | the loop appends exactly the unseen values |
| BlueSentinel.IocLists.ExtractIOCs | backend/bluesentinel-api.js:265-309 | each IOC list gains exactly the line's unseen matches, in order, and stays duplicate-free |
| BlueSentinel.KeepNonBlank | backend/bluesentinel-api.js:141 | the kept lines are exactly the lines that are not blank after trimming |
| BlueSentinel.KeepNonBlankConcat | backend/bluesentinel-api.js:141 | the filter works line by line: filtering a concatenation concatenates the filtered halves, so order and repeated lines are kept |
| BlueSentinel.KeepNonBlankOne | backend/bluesentinel-api.js:141 | a single line is kept iff it is not blank |
| BlueSentinel.CollectedIsDedupe | backend/bluesentinel-api.js:142-163 | each IOC list after all lines is `[...new Set(all matches)]`, in order of first appearance |
| BlueSentinel.ScanTimeline | backend/bluesentinel-api.js:143-162 | the timeline has one entry per processed line, in order |
| BlueSentinel.RiskSumBounded | backend/bluesentinel-api.js:143-151 | the summed risk is at most 210 per line |
| BlueSentinel.ScanLine | backend/bluesentinel-api.js:143-162 | one iteration extends threats, techniques, risk and timeline and collects the line's IOCs |
| BlueSentinel.AnalyzeLogs | backend/bluesentinel-api.js:126-173 | only non-blank lines are processed; the risk is min(100, sum), the techniques are deduplicated, the IOC lists hold each value once in order of first appearance, and the recommendations come from the unclamped sum |
| BlueSentinel.RecommendationIgnoresClamp | backend/bluesentinel-api.js:166-170 | computing the recommendation before the clamp gives the same result as after it |
| BlueSentinel.GenerateRecommendations | backend/bluesentinel-api.js:475-524 | exactly one entry: Critical iff the risk is > 80, High iff in (50, 80], Medium iff in (20, 50], Low otherwise |
| BlueSentinel.ListReputation | backend/bluesentinel-api.js:347-363 | Malicious iff on the malicious list, Suspicious iff only on the suspicious list, Clean otherwise |
| BlueSentinel.GetHashReputation | backend/bluesentinel-api.js:365-370 | Malicious iff the lowercased hash is on the list, otherwise Clean |
| BlueSentinel.HashReputationIgnoresCase | backend/bluesentinel-api.js:368 | hashes that differ only in case get the same reputation |
| BlueSentinel.ExtractedHashesAreClean | backend/bluesentinel-api.js:365-370 | the listed "malicious" hashes are short placeholders, so any real (≥ 32-character) hash is Clean |
| BlueSentinel.CheckIOCReputation | backend/bluesentinel-api.js:311-345 | ip, domain and hash use their lookups with confidence 85, 90 and 95; any other kind stays Unknown with confidence 0 and no sources or tags |
| BlueSentinel.MitrePrefixIsDetections | backend/bluesentinel-api.js:380-401 | after the first k rules, techniques and tactics are those of the fired rules, in order |
| BlueSentinel.MapToMitreAttack | backend/bluesentinel-api.js:372-405 | techniques and tactics grow in lockstep from the fired rules, each pair comes from one rule, and the confidence is 85 iff a technique was found, else 0 |
| BlueSentinel.MitrePairs | backend/bluesentinel-api.js:380-401 | the k-th technique and the k-th tactic come from the same rule |
| BlueSentinel.EnrichThreatIntelligence | backend/bluesentinel-api.js:407-428 | one enriched entry per IOC, in order, with its reputation and confidence; overall confidence 80 iff the input is non-empty, else 0 |
| BlueSentinel.SocTopic | backend/bluesentinel-api.js:438-468 | the branch taken: "analysis" iff the lowercased message mentions analyze or investigate, otherwise mitre, ioc or general |
| BlueSentinel.ProcessSOCQuery | backend/bluesentinel-api.js:430-473 | confidence 85 and no related threats; three suggestions for a recognised topic and four for a general one |
| Anonymize.GenerateAlias | backend/utils/anonymize.js:11-15 | "alias_0000" for no input; otherwise "alias_" and the first four hex digits of the hash of the lowercased input |
| Anonymize.AliasIgnoresCase | backend/utils/anonymize.js:13 | inputs differing only in case get the same alias |
| Anonymize.LocalPart | backend/utils/anonymize.js:33 | the text before the first '@', or "user" when that is empty; never empty and never holding '@' |
| Anonymize.AnonymizeEmail | backend/utils/anonymize.js:24-42 | "redacted@redacted" without an address; "name (org)" with both; the name alone with only a name; otherwise the local part at "redacted" |
| Anonymize.AnonymizeEmailIdempotent | backend/utils/anonymize.js:25-41 | without a display name, anonymizing twice equals anonymizing once |
| Anonymize.AnonymizePhone | backend/utils/anonymize.js:50-60 | "redacted" without a number; a display name wins; otherwise the number's alias |
| Anonymize.AnonymizeRecipient | backend/utils/anonymize.js:70-79 | the '@' test comes before the phone pattern; anything else is kept unchanged |
| Anonymize.AnonymizeRecipients | backend/utils/anonymize.js:67-80 | [] for a non-array; otherwise one display string per entry, in order |
| Anonymize.RecipientIdempotent | backend/utils/anonymize.js:70-79 | an anonymized entry is a fixed point: aliases hold no '@' and do not look like a phone number |
| Anonymize.RecipientsIdempotent | backend/utils/anonymize.js:67-80 | anonymizing a recipient list twice equals anonymizing it once |
| Anonymize.ExtractOrg | backend/utils/anonymize.js:87-93 | null without an '@'; otherwise the text after the first '@' up to the next '.' or '@', or null when that is empty |
| Gmail.GetHeader | backend/utils/gmail.js:183 | the value of the first header whose name matches case-insensitively, or "" when none does |
| Gmail.GetHeaderIgnoresCase | backend/utils/gmail.js:183 | names that differ only in case find the same value |
| Gmail.CleanEntriesMembers | backend/utils/gmail.js:192 | a kept entry is exactly a non-empty trimmed input entry |
| Gmail.CleanEntriesConcat | backend/utils/gmail.js:192 | trimming and dropping empty entries works piecewise on concatenated lists |
| Gmail.Recipients | backend/utils/gmail.js:192 | recipients are trimmed and hold no comma |
| Gmail.RecipientsAreToThenCc | backend/utils/gmail.js:192 | the recipients are the cleaned To entries followed by the cleaned Cc entries |
| Gmail.StripTags | backend/utils/gmail.js:217 | the result is no longer than the input and uses only its characters; text without '<' is unchanged; no complete tag remains |
| Gmail.FindPart | backend/utils/gmail.js:205-219 | the first part of the given MIME type with data, or the end of the list |
| Gmail.ExtractBody | backend/utils/gmail.js:202-221 | the first top-level text/plain part with data wins; otherwise the first HTML part with data, stripped of tags and cut to 500 characters |
| Gmail.NestedBody | backend/utils/gmail.js:222-227 | the first non-empty body of a part's sub-parts, in part order; "" iff all of them are empty |
| Gmail.NestedPriority | backend/utils/gmail.js:205-229 | without a plain-text or HTML part with data, the body is the first non-empty nested result in part order, or "" iff there is none |
| Gmail.ExtractBodyFromParts | backend/utils/gmail.js:202-204 | "" without parts |
| Gmail.BodyComesFromATextPart | backend/utils/gmail.js:202-230 | a non-empty body comes from some text part at any depth of the MIME tree |
| Gmail.NoTextNoBody | backend/utils/gmail.js:202-230 | with no text part carrying data anywhere in the tree, the body is "" |
| Gmail.FlattenHasTop | backend/utils/gmail.js:222-227 | every part and everything below it belongs to the tree's pre-order listing |
| Gmail.BodyPreview | backend/utils/gmail.js:199-236 | the snippet is preferred; otherwise the extracted body cut to 500 characters |
| Gmail.KeepAttachments | backend/utils/gmail.js:244-247 | only parts with both a filename and an attachment id are kept |
| Gmail.AttachmentsOf | backend/utils/gmail.js:239-258 | every collected part is an attachment |
| Gmail.AttachmentsAreTreeParts | backend/utils/gmail.js:239-258 | a part is collected iff it is an attachment somewhere in the tree |
| Gmail.AttachmentsStep | backend/utils/gmail.js:244-253 | one step of the walk: the part if it is an attachment, then everything found below it (pre-order) |
| Gmail.AttachmentCollector.ExtractAttachmentsFromParts | backend/utils/gmail.js:239-258 | the accumulator gains exactly the tree's attachments, in pre-order |
| Gmail.AttachmentKey | backend/utils/gmail.js:271 | every key starts with "attachments/" |
| Gmail.AttachmentKeyParses | backend/utils/gmail.js:271 | the key splits on '/' into "attachments", the date, the message id and the file name |
| Gmail.DateOfInstant | backend/utils/gmail.js:271 | the date part of an ISO instant is the text before 'T' |
| Gmail.UploadedKeys | backend/utils/gmail.js:261-278 | one key per successfully downloaded attachment, never more keys than attachments |
| Gmail.DownloadAttachments | backend/utils/gmail.js:261-278 | the loop collects exactly the keys of successful downloads; with no failure there is one key per attachment |
| Gmail.GmailTrustScore | backend/utils/gmail.js:281-285 | every Gmail event gets 50.0 |
| Gmail.GmailRow | backend/utils/gmail.js:305-328 | the stored row: source "gmail", the message id, the anonymized sender and recipients, the subject and preview (NULL when empty), the attachment keys and trust 50 |
| Gmail.ProcessGmailMessage | backend/utils/gmail.js:155-333 | nothing happens without a client; an already recorded message id returns null without inserting; otherwise exactly one row is inserted; afterwards the message is recorded |
| Events.NullIfEmpty | backend/utils/gmail.js:323-324 | the empty string is stored as NULL |
| Events.EventTable.Insert | backend/utils/gmail.js:305-332 | the row is added under its fresh id and nothing else changes |
| Events.EventTable.RecordAction | backend/routes/events.js:109-150 | 400 without an action and 404 for an unknown event, with no change; otherwise the action, by "system" unless an actor is given, is appended to the event's list and only that row changes |
| Events.RecordedActionsExtend | backend/routes/events.js:125-133 | the old actions stay a prefix of the new list and the new action is last |
| Events.Filters | backend/routes/events.js:36-44 | the since filter, then the event-type filter, each only when given |
| Events.BuildEventsQuery | backend/routes/events.js:29-49 | the parameters are the tenant, the filter values and the limit; the query text numbers its placeholders in that order |
| Events.PlaceholdersNumberParams | backend/routes/events.js:29-49 | placeholder $(k + 2) belongs to the k-th filter, and the LIMIT placeholder is the last parameter |
| Events.FilterOrder | backend/routes/events.js:36-48 | with both filters the text reads since $2, type $3, LIMIT $4 |
| Events.ListEventsQuery | backend/routes/events.js:20-60 | limit "25" and tenant "default" unless given |
| Events.ObjectUrl | backend/routes/events.js:157-176 | a URL is signed only for `presign=true`, always for 3600 seconds |
| Webhooks.StrLeTotal | backend/routes/webhooks.js:46 | the string order used by `sort()` is total |
| Webhooks.StrLeTrans | backend/routes/webhooks.js:46 | the string order is transitive |
| Webhooks.StrLeAntisym | backend/routes/webhooks.js:46 | the string order is antisymmetric |
| Webhooks.InsertSorted | backend/routes/webhooks.js:46 | inserting into a sorted list keeps it sorted |
| Webhooks.Sort | backend/routes/webhooks.js:46 | sorting keeps the same keys |
| Webhooks.SortSorted | backend/routes/webhooks.js:46 | the sorted keys are in ascending order |
| Webhooks.SortedUnique | backend/routes/webhooks.js:46 | two sorted lists with the same elements are equal |
| Webhooks.SortIgnoresOrder | backend/routes/webhooks.js:46 | sorting any arrangement of the same keys gives the same list |
| Webhooks.KeyOrdersAgree | backend/routes/webhooks.js:46 | two enumerations of one parameter object hold the same keys |
| Webhooks.SignatureString | backend/routes/webhooks.js:46-50 | the signed string starts with the URL, followed by key and value for each key in sorted order |
| Webhooks.SignatureIgnoresFieldOrder | backend/routes/webhooks.js:46-50 | the signed string does not depend on the order in which the parameters arrived |
| Webhooks.SignatureExample | backend/routes/webhooks.js:46-50 | for To=+2 and From=+1 the string is the URL followed by "From+1To+2" |
| Webhooks.VerifyTwilioSignatureAsWritten | backend/routes/webhooks.js:39-61 | accepted without a secret or signature; otherwise `timingSafeEqual` throws iff the signature's length differs from the 28-character digest, and it accepts iff the signature equals the digest |
| Webhooks.VerifyTwilioSignature | backend/routes/webhooks.js:39-61 | accepted iff there is no secret, no signature, or the signature equals the base64 HMAC of the signed string |
| Webhooks.ShortSignatureThrows | backend/routes/webhooks.js:57-60 | with a secret set, the signature "x" makes the comparison throw |
| Webhooks.FullLengthSignaturesAgree | backend/routes/webhooks.js:57-60 | for 28-character signatures the code as written and the corrected check agree |
| Webhooks.Field | backend/routes/webhooks.js:77-86 | a missing body field is "" |
| Webhooks.RecordingKey | backend/routes/webhooks.js:93 | no key iff there is no recording URL |
| Webhooks.RecordingKeyParses | backend/routes/webhooks.js:93 | the key splits on '/' into "recordings", the date and the call id with ".wav" |
| Webhooks.CallTrustScore | backend/routes/webhooks.js:106-108 | an empty bundle gives 50 |
| Webhooks.CallRow | backend/routes/webhooks.js:89-132 | the stored row: source "twilio", the call id, the anonymized caller and callee, the recording key, trust 50, no subject, preview or attachments |
| Webhooks.HandleTwilioCall | backend/routes/webhooks.js:67-142 | 401 and no change for a bad signature; otherwise exactly the call's row is inserted |
| Webhooks.GmailPushAction | backend/routes/webhooks.js:149-200 | 503 without Gmail; 400 without a message; polling "after:historyId" (50 results) iff the notification has both an address and a history id; otherwise processing iff a message id is given, and 400 "Invalid notification format" iff none is |
| Webhooks.HistoryWinsOverMessageId | backend/routes/webhooks.js:168-194 | a notification with address and history id polls, even when a message id is also given |
| Text.Lower | backend/bluesentinel-api.js:182 | `toLowerCase` on ASCII letters: each character is mapped on its own, so the length is kept |
| Text.LowerIdempotent | backend/utils/anonymize.js:13 | lowercasing twice equals lowercasing once |
| Text.Split | backend/utils/gmail.js:192 | `split(sep)`: the first field runs up to the first separator, and there are two or more fields iff the separator occurs |
| Text.SplitPartsFree | backend/utils/gmail.js:192 | no field of a split holds the separator |
| Text.SplitJoin | backend/utils/gmail.js:271 | splitting a '/'-joined key gives back its fields when none holds '/' |
| Text.Trim | backend/utils/gmail.js:192 | `trim()` leaves no whitespace at either end |
| Text.TrimEmptyIffBlank | backend/bluesentinel-api.js:141 | a line trims to "" iff it is all whitespace |
| Text.SplitWhitespace | backend/simple-server.js:91 | `split(/\s+/)`: as many fields as the word count, none containing whitespace |
| Text.WordCount | backend/ai-services.js:172 | between 1 and the length + 1 |

## Left out

- HTTP and Express plumbing is not modelled: routing, middleware, helmet and cors, the rate limiter and static files. The handlers' decisions are modelled; a status code becomes an outcome constructor.
- The WebSocket broadcasts and the `setInterval` monitoring loops in `backend/server.js` are not modelled. Their point is timers and concurrency.
- The `os` metrics and the `netstat` exec are not modelled. They are system I/O.
- OpenAI, `node-nlp`, `natural`, `Sentiment` and IsolationForest are foreign libraries and are not modelled. The classifier reply and the sentiment comparative are optional inputs. The isolation forest is taken as absent, so the fallback score always runs.
- The VirusTotal, URLScan, AbuseIPDB and Safe Browsing calls are network clients. Only their results are inputs, and line 305 discards them.
- Object storage, Postgres, SMTP, Gmail OAuth and its API calls are I/O:
  - the events table is a map;
  - a download's success is a predicate;
  - the list query is modelled up to its SQL text and parameters.
- `utils/storage.js`, `utils/database.js`, `utils/email.js`, `routes/gmail.js`, `routes/test-data.js` and `tools/gmail_poller.js` are not part of this model.
- Hashes, HMAC, `randomBytes`, base64 and regular expressions are parameters. Their own properties are not modelled.
- The simulator's evidence helpers (random IPs, MAC addresses, file names and the like) are draws, and are not modelled.
- `toFixed` formatting of evidence numbers and the float semantics of `sentiment.comparative` are not modelled.
- The threat simulator's `userProfiles`, `networkActivity` and `behavioralPatterns` fields are never read by the core, and are not modelled.
- The BlueSentinel timestamp regex is not modelled: `extractTimestamp` is the parameter `timestampOf`.
- Server.SortByScore: does not state that threats with equal scores keep their Map order, because stability of `Array.prototype.sort` was not proved.
- TrustScore.ComputeTrustScore: requires the numeric fields to hold numbers. JavaScript's coercion of numeric strings inside `>` and `-` is not modelled.
- AiServices.ExtractBehavioralFeatures: returns no features where the source produces NaN (an empty history). The average and the ratio are exact reals, not IEEE doubles.
- AiServices.ReputationScore: states only that the reputation score is non-negative, because line 305 discards it and its formula depends on the network replies.
- ThreatSimulator.ThreatSimulatorState.GenerateRandomThreat: the draw is any real, so the phishing fallback is reachable only for draws above 1. In the source no draw reaches it.
- BlueSentinel.ProcessSOCQuery: states the confidence and the number of suggestions, not the wording of the reply.
- Webhooks.VerifyTwilioSignatureAsWritten: compares lengths in characters. `Buffer.from` measures UTF-8 bytes, so in the source a 28-character signature with non-ASCII characters also throws.
- Text.Lower, Text.LowerIdempotent, Text.Trim, Text.TrimEmptyIffBlank, Text.SplitWhitespace: only ASCII letters are lowercased and only ASCII whitespace counts. JavaScript's `toLowerCase`, `trim` and `\s` are Unicode-aware: `"Ü"` lowercases to `"ü"`, `"İ"` to two characters, and `trim` also strips no-break and other Unicode spaces. So in the model `GenerateAlias` tells `"Ü@x.com"` and `"ü@x.com"` apart where the source does not.
- Webhooks.CallRow: an absent body field is "". The source interpolates `CallSid` into the recording key and stores it as `source_id`, so with a recording URL and no `CallSid` it builds `recordings/<date>/undefined.wav` and stores NULL, where the model builds `recordings/<date>/.wav` and stores "". Twilio always sends `CallSid`.
- Server.AuthStore.RequestOtpAsWritten: measures the identifier in characters; JavaScript's `length` counts UTF-16 units, so an identifier with characters outside the Basic Multilingual Plane makes the banner throw at fewer characters. The e-mail sending that precedes the throw is not modelled.
- Server.AuthStore.Logout: for an unauthenticated request states only that no session is added. The authentication step may still delete an expired session.

## Findings

| source | as written | input that shows it | evidently intended | confidence | as-written member | corrected member |
|---|---|---|---|---|---|---|
| backend/routes/webhooks.js:57-60 | `crypto.timingSafeEqual` throws when its two buffers differ in length, so a supplied signature that is not 28 characters long makes the Twilio route answer 500 instead of rejecting the request | a request with `X-Twilio-Signature: x` while `TWILIO_WEBHOOK_SECRET` is set | a signature of the wrong length is rejected like any other mismatch (401) | not executed | Webhooks.VerifyTwilioSignatureAsWritten, Webhooks.ShortSignatureThrows | Webhooks.VerifyTwilioSignature |
| backend/server.js:663 | `' '.repeat(70 - 13 - identifier.length)` (the identifier is the e-mail, else the phone) runs inside the request-otp `try` after the OTP is stored and the e-mail sent; for an identifier longer than 57 characters the count is negative, `repeat` throws a RangeError and the handler answers 500 | `email` = 46 × `a` + `@example.com` (58 characters), which passes the e-mail check | the request succeeds like any other (the banner is only console output) | not executed | Server.AuthStore.RequestOtpAsWritten, Server.LongEmailFailsAfterStoring | Server.AuthStore.RequestOtp |

Webhooks.HandleTwilioCall uses the corrected check, and Webhooks.FullLengthSignaturesAgree shows that the two agree on every 28-character signature.
