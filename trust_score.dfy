/**
 * backend/utils/trustScore.js: `computeTrustScore`, an additive model that
 * starts at 50, adds one delta per recognised signal, clamps to [0, 100] and
 * rounds to one decimal. Scores are exact reals here.
 */
module TrustScore {
  import opened Wrappers

  /** A JSON value as it may appear in a signal bundle. */
  datatype Value = Bool(b: bool) | Num(x: real) | Str(s: string) | Null

  type Signals = map<string, Value>

  /** The four numeric signals, which the source subtracts from and multiplies. */
  const NumericKeys: seq<string> := ["stylistic_score", "behavior_score", "writingStyleMatch", "voiceCloneProbability"]

  /** Every key the score looks at. */
  const RecognisedKeys: set<string> := {
    "stylistic_score", "behavior_score", "spfPass", "dkimPass", "senderVerified", "writingStyleMatch",
    "videoArtifacts", "audioArtifacts", "noArtifacts", "behavioralPattern", "voiceCloneProbability"
  }

  /** JavaScript's numeric coercion for the values the model admits in numeric fields. */
  function ToNumber(v: Value): real
    requires !v.Str?
  {
    match v
    case Num(x) => x
    case Bool(b) => if b then 1.0 else 0.0
    case Null => 0.0
  }

  /** The numeric signals, when present, are not strings (a string would coerce to NaN or to its parsed value). */
  predicate NumericFieldsCoerce(m: Signals) {
    forall k :: k in NumericKeys && k in m ==> !m[k].Str?
  }

  /** Whether `signals.k !== undefined`, for a numeric signal. */
  predicate Has(m: Signals, k: string) {
    k in m
  }

  /** The numeric value of a present numeric signal. */
  function Reading(m: Signals, k: string): real
    requires k in NumericKeys && NumericFieldsCoerce(m) && k in m
  {
    ToNumber(m[k])
  }

  /** `signals.k === b` */
  predicate Is(m: Signals, k: string, v: Value) {
    k in m && m[k] == v
  }

  function When(c: bool, d: real): real {
    if c then d else 0.0
  }

  /** Stylistic and behavioural scores, each in 0..1 around a neutral 0.5, weighted by 40. */
  function StyleDelta(m: Signals): real
    requires NumericFieldsCoerce(m)
  {
    (if Has(m, "stylistic_score") then (Reading(m, "stylistic_score") - 0.5) * 40.0 else 0.0)
    + (if Has(m, "behavior_score") then (Reading(m, "behavior_score") - 0.5) * 40.0 else 0.0)
  }

  /** SPF, DKIM and sender verification: rewards for `true`, penalties for `false`. */
  function AuthDelta(m: Signals): real {
    When(Is(m, "spfPass", Bool(true)), 10.0)
    + When(Is(m, "dkimPass", Bool(true)), 10.0)
    + When(Is(m, "spfPass", Bool(false)), -15.0)
    + When(Is(m, "dkimPass", Bool(false)), -15.0)
    + When(Is(m, "senderVerified", Bool(true)), 5.0)
    + When(Is(m, "senderVerified", Bool(false)), -20.0)
  }

  /** Writing-style match in 0..100 around a neutral 50, weighted by 0.3. */
  function MatchDelta(m: Signals): real
    requires NumericFieldsCoerce(m)
  {
    if Has(m, "writingStyleMatch") then (Reading(m, "writingStyleMatch") - 50.0) * 0.3 else 0.0
  }

  /** Video and audio artifacts, and their explicit absence. */
  function ArtifactDelta(m: Signals): real {
    When(Is(m, "videoArtifacts", Bool(true)), -25.0)
    + When(Is(m, "audioArtifacts", Bool(true)), -25.0)
    + When(Is(m, "noArtifacts", Bool(true)), 10.0)
  }

  /** The behavioural-pattern tag. */
  function PatternDelta(m: Signals): real {
    When(Is(m, "behavioralPattern", Str("normal")), 5.0)
    + When(Is(m, "behavioralPattern", Str("suspicious")), -20.0)
    + When(Is(m, "behavioralPattern", Str("anomalous")), -35.0)
  }

  /** Voice-clone probability in 0..100, halved and subtracted. */
  function VoiceDelta(m: Signals): real
    requires NumericFieldsCoerce(m)
  {
    if Has(m, "voiceCloneProbability") then Reading(m, "voiceCloneProbability") * 0.5 else 0.0
  }

  /** The score before clamping: 50 plus the delta of every recognised signal, in the source's order. */
  function Raw(m: Signals): real
    requires NumericFieldsCoerce(m)
  {
    50.0 + StyleDelta(m) + AuthDelta(m) + MatchDelta(m) + ArtifactDelta(m) + PatternDelta(m) - VoiceDelta(m)
  }

  /** Two bundles that agree on the key `k`: both lack it, or both hold the same value. */
  predicate AgreeOn(a: Signals, b: Signals, k: string) {
    (k in a <==> k in b) && (k in a ==> a[k] == b[k])
  }

  /** `Math.max(0, Math.min(100, x))` */
  function Clamp(x: real): (r: real)
    ensures 0.0 <= r <= 100.0
    ensures 0.0 <= x <= 100.0 ==> r == x
  {
    if x < 0.0 then 0.0 else if x > 100.0 then 100.0 else x
  }

  /** `Math.round(x * 10) / 10`; `Math.round` rounds halves upwards. */
  function Round1(x: real): (r: real)
    ensures (r * 10.0).Floor as real == r * 10.0
    ensures x - 0.05 < r <= x + 0.05
  {
    ((x * 10.0 + 0.5).Floor as real) / 10.0
  }

  /**
   * computeTrustScore. An absent or empty bundle is the neutral 50; otherwise
   * the clamped raw score, rounded to one decimal, which stays in [0, 100].
   */
  function ComputeTrustScore(signals: Option<Signals>): (r: real)
    requires signals.Some? ==> NumericFieldsCoerce(signals.value)
    ensures 0.0 <= r <= 100.0
    ensures (r * 10.0).Floor as real == r * 10.0
    ensures signals.None? || signals.value == map[] ==> r == 50.0
    ensures signals.Some? && signals.value != map[] ==>
              Clamp(Raw(signals.value)) - 0.05 < r <= Clamp(Raw(signals.value)) + 0.05
  {
    if signals.None? || |signals.value| == 0 then 50.0
    else
      var r := Round1(Clamp(Raw(signals.value)));
      RoundStaysInRange(Clamp(Raw(signals.value)));
      r
  }

  lemma RoundStaysInRange(x: real)
    requires 0.0 <= x <= 100.0
    ensures 0.0 <= Round1(x) <= 100.0
  {
    var y := x * 10.0 + 0.5;
    assert 0.5 <= y <= 1000.5;
    assert 0 <= y.Floor <= 1000;
  }

  /** Round1 of a value that already has one decimal leaves it unchanged. */
  lemma RoundOfTenth(n: int)
    ensures Round1(n as real / 10.0) == n as real / 10.0
  {
    var y := (n as real / 10.0) * 10.0 + 0.5;
    assert y == n as real + 0.5;
    assert y.Floor == n;
  }

  /** SPF, DKIM and sender verification all failing: 50 − 15 − 15 − 20 = 0. */
  lemma AllChecksFailIsZero()
    ensures ComputeTrustScore(Some(map["spfPass" := Bool(false), "dkimPass" := Bool(false), "senderVerified" := Bool(false)])) == 0.0
  {
    var m := map["spfPass" := Bool(false), "dkimPass" := Bool(false), "senderVerified" := Bool(false)];
    assert m.Keys == {"spfPass", "dkimPass", "senderVerified"};
    assert Raw(m) == 0.0;
    RoundOfTenth(0);
  }

  /** The bundle every Gmail event is scored with: 50 + 10 + 10 − 20 = 50. */
  lemma GmailBundleIsNeutral()
    ensures ComputeTrustScore(Some(map["spfPass" := Bool(true), "dkimPass" := Bool(true), "senderVerified" := Bool(false)])) == 50.0
  {
    var m := map["spfPass" := Bool(true), "dkimPass" := Bool(true), "senderVerified" := Bool(false)];
    assert m.Keys == {"spfPass", "dkimPass", "senderVerified"};
    assert Raw(m) == 50.0;
    RoundOfTenth(500);
  }

  /** A non-empty bundle none of whose keys the score knows is still exactly 50. */
  lemma UnrecognisedKeysAreNeutral(m: Signals)
    requires m.Keys !! RecognisedKeys
    ensures NumericFieldsCoerce(m)
    ensures ComputeTrustScore(Some(m)) == 50.0
  {
    if m != map[] {
      assert Raw(m) == 50.0;
      RoundOfTenth(500);
    }
  }

  lemma StyleAgree(a: Signals, b: Signals)
    requires NumericFieldsCoerce(a) && NumericFieldsCoerce(b)
    requires AgreeOn(a, b, "stylistic_score") && AgreeOn(a, b, "behavior_score")
    ensures StyleDelta(a) == StyleDelta(b)
  {
  }

  lemma AuthAgree(a: Signals, b: Signals)
    requires AgreeOn(a, b, "spfPass") && AgreeOn(a, b, "dkimPass") && AgreeOn(a, b, "senderVerified")
    ensures AuthDelta(a) == AuthDelta(b)
  {
  }

  lemma ArtifactAgree(a: Signals, b: Signals)
    requires AgreeOn(a, b, "videoArtifacts") && AgreeOn(a, b, "audioArtifacts") && AgreeOn(a, b, "noArtifacts")
    ensures ArtifactDelta(a) == ArtifactDelta(b)
  {
  }

  lemma PatternAgree(a: Signals, b: Signals)
    requires AgreeOn(a, b, "behavioralPattern")
    ensures PatternDelta(a) == PatternDelta(b)
  {
  }

  /** The keys whose value counts even when it is not a boolean. */
  const ValueKeys: set<string> := {"stylistic_score", "behavior_score", "writingStyleMatch", "voiceCloneProbability", "behavioralPattern"}

  /**
   * The boolean flags count only when they are exactly `true` or `false`:
   * any other key, the six flags included, set to a non-boolean scores as if
   * it were absent.
   */
  lemma FlagsNeedExactBooleans(m: Signals, k: string, v: Value)
    requires k !in ValueKeys
    requires NumericFieldsCoerce(m) && !v.Bool?
    ensures NumericFieldsCoerce(m[k := v]) && NumericFieldsCoerce(m - {k})
    ensures Raw(m[k := v]) == Raw(m - {k})
  {
    var a, b := m[k := v], m - {k};
    forall j | j in ValueKeys
      ensures AgreeOn(a, b, j)
    {
      assert j != k;
    }
    StyleAgree(a, b);
    PatternAgree(a, b);
    forall j, x: bool
      ensures Is(a, j, Bool(x)) == Is(b, j, Bool(x))
    {
    }
    assert AuthDelta(a) == AuthDelta(b);
    assert ArtifactDelta(a) == ArtifactDelta(b);
  }

  /** `behavioralPattern` counts only for the three exact tags. */
  lemma OnlyKnownBehaviourTags(m: Signals, v: Value)
    requires NumericFieldsCoerce(m)
    requires v !in {Str("normal"), Str("suspicious"), Str("anomalous")}
    ensures NumericFieldsCoerce(m["behavioralPattern" := v]) && NumericFieldsCoerce(m - {"behavioralPattern"})
    ensures Raw(m["behavioralPattern" := v]) == Raw(m - {"behavioralPattern"})
  {
    var k := "behavioralPattern";
    var a, b := m[k := v], m - {k};
    assert AgreeOn(a, b, "stylistic_score") && AgreeOn(a, b, "behavior_score");
    assert AgreeOn(a, b, "writingStyleMatch") && AgreeOn(a, b, "voiceCloneProbability");
    assert AgreeOn(a, b, "spfPass") && AgreeOn(a, b, "dkimPass") && AgreeOn(a, b, "senderVerified");
    assert AgreeOn(a, b, "videoArtifacts") && AgreeOn(a, b, "audioArtifacts") && AgreeOn(a, b, "noArtifacts");
    StyleAgree(a, b);
    AuthAgree(a, b);
    ArtifactAgree(a, b);
    assert MatchDelta(a) == MatchDelta(b);
    assert VoiceDelta(a) == VoiceDelta(b);
    assert PatternDelta(a) == PatternDelta(b) == 0.0;
  }

  lemma ClampMonotone(a: real, b: real)
    requires a <= b
    ensures Clamp(a) <= Clamp(b)
  {
  }

  lemma RoundMonotone(a: real, b: real)
    requires a <= b
    ensures Round1(a) <= Round1(b)
  {
    var x, y := a * 10.0 + 0.5, b * 10.0 + 0.5;
    assert x <= y;
    assert x.Floor as real <= x && y < y.Floor as real + 1.0;
    assert x.Floor <= y.Floor;
  }

  /** Raising the voice-clone probability, all else fixed, never raises the score. */
  lemma VoiceCloneNeverRaises(m: Signals, p: real, q: real)
    requires NumericFieldsCoerce(m) && p <= q
    ensures NumericFieldsCoerce(m["voiceCloneProbability" := Num(p)])
    ensures NumericFieldsCoerce(m["voiceCloneProbability" := Num(q)])
    ensures ComputeTrustScore(Some(m["voiceCloneProbability" := Num(q)]))
            <= ComputeTrustScore(Some(m["voiceCloneProbability" := Num(p)]))
  {
    var k := "voiceCloneProbability";
    var a, b := m[k := Num(p)], m[k := Num(q)];
    assert AgreeOn(a, b, "stylistic_score") && AgreeOn(a, b, "behavior_score");
    assert AgreeOn(a, b, "writingStyleMatch") && AgreeOn(a, b, "behavioralPattern");
    assert AgreeOn(a, b, "spfPass") && AgreeOn(a, b, "dkimPass") && AgreeOn(a, b, "senderVerified");
    assert AgreeOn(a, b, "videoArtifacts") && AgreeOn(a, b, "audioArtifacts") && AgreeOn(a, b, "noArtifacts");
    StyleAgree(a, b);
    AuthAgree(a, b);
    ArtifactAgree(a, b);
    PatternAgree(a, b);
    assert MatchDelta(a) == MatchDelta(b);
    assert VoiceDelta(a) == p * 0.5 && VoiceDelta(b) == q * 0.5;
    assert Raw(b) <= Raw(a);
    ClampMonotone(Raw(b), Raw(a));
    RoundMonotone(Clamp(Raw(b)), Clamp(Raw(a)));
  }
}
