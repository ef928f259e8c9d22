/**
 * What the three copies of the pattern scorer (ai-services.js, server.js and
 * simple-server.js) have in common: a fixed, ordered table of rules, a match
 * count per rule, a weighted sum of the counts, and the list of rules that
 * fired, in table order. Regular expressions are not modelled: a matcher is a
 * parameter that maps a pattern's source text and the input to a match count
 * (for `text.match(re)`) or to a truth value (for `re.test(url)`).
 */
module RuleEngine {

  /** One row of a detection table: the regular expression's source, the threat name, the weight. */
  datatype Rule = Rule(pattern: string, name: string, weight: nat)

  function Patterns(rules: seq<Rule>): (p: seq<string>)
    ensures |p| == |rules|
    ensures forall i :: 0 <= i < |rules| ==> p[i] == rules[i].pattern
  {
    seq(|rules|, i requires 0 <= i < |rules| => rules[i].pattern)
  }

  function Weights(rules: seq<Rule>): (w: seq<nat>)
    ensures |w| == |rules|
    ensures forall i :: 0 <= i < |rules| ==> w[i] == rules[i].weight
  {
    seq(|rules|, i requires 0 <= i < |rules| => rules[i].weight)
  }

  /** `text.match(re)?.length ?? 0` for every pattern of the table, in order. */
  function Counts(patterns: seq<string>, text: string, countMatches: (string, string) -> nat): (c: seq<nat>)
    ensures |c| == |patterns|
    ensures forall i :: 0 <= i < |patterns| ==> c[i] == countMatches(patterns[i], text)
  {
    seq(|patterns|, i requires 0 <= i < |patterns| => countMatches(patterns[i], text))
  }

  /** `re.test(s)` for every pattern of the table, as counts of 0 or 1: a URL rule adds its weight once. */
  function Hits(patterns: seq<string>, s: string, test: (string, string) -> bool): (c: seq<nat>)
    ensures |c| == |patterns|
    ensures forall i :: 0 <= i < |patterns| ==> c[i] == if test(patterns[i], s) then 1 else 0
  {
    seq(|patterns|, i requires 0 <= i < |patterns| => if test(patterns[i], s) then 1 else 0)
  }

  /** The accumulated `totalScore`: the sum of weight × count over the table. */
  function Total(w: seq<nat>, c: seq<nat>): nat
    requires |w| == |c|
  {
    if w == [] then 0 else Total(w[..|w| - 1], c[..|c| - 1]) + w[|w| - 1] * c[|c| - 1]
  }

  /** `Math.min(100, total)` */
  function Min100(total: int): int {
    if total < 100 then total else 100
  }

  /** The severity server.js and simple-server.js attach to a score: above 40 high, above 20 medium, else low. */
  function ScoreSeverity(score: nat): (sev: string)
    ensures sev == "high" <==> score > 40
    ensures sev == "medium" <==> 20 < score <= 40
    ensures sev == "low" <==> score <= 20
  {
    if score > 40 then "high" else if score > 20 then "medium" else "low"
  }

  /** The indices of the rules that fired (a non-zero count), in table order. */
  function Fired(c: seq<nat>): (r: seq<nat>)
    ensures forall k :: 0 <= k < |r| ==> r[k] < |c| && c[r[k]] > 0
    ensures forall i :: 0 <= i < |c| && c[i] > 0 ==> i in r
    ensures forall k, l :: 0 <= k < l < |r| ==> r[k] < r[l]
    ensures |r| <= |c|
  {
    if c == [] then []
    else
      var init := Fired(c[..|c| - 1]);
      assert forall i :: 0 <= i < |c| - 1 ==> c[..|c| - 1][i] == c[i];
      init + (if c[|c| - 1] > 0 then [|c| - 1] else [])
  }

  /** The evidence list the scorer pushes: one entry per rule that fired, built by `entry`. */
  function Detections<R, T>(rules: seq<R>, c: seq<nat>, entry: (R, nat) -> T): seq<T>
    requires |rules| == |c|
  {
    if rules == [] then []
    else
      Detections(rules[..|rules| - 1], c[..|c| - 1], entry)
      + (if c[|c| - 1] > 0 then [entry(rules[|rules| - 1], c[|c| - 1])] else [])
  }

  /**
   * The evidence list holds exactly the rules that fired, in table order, each
   * with its own count: its k-th entry is built from the k-th fired rule.
   */
  lemma {:induction false} DetectionsAreFiredRules<R, T>(rules: seq<R>, c: seq<nat>, entry: (R, nat) -> T)
    requires |rules| == |c|
    ensures |Detections(rules, c, entry)| == |Fired(c)|
    ensures forall k :: 0 <= k < |Fired(c)| ==>
              Fired(c)[k] < |rules| && Detections(rules, c, entry)[k] == entry(rules[Fired(c)[k]], c[Fired(c)[k]])
  {
    if rules != [] {
      var n := |rules| - 1;
      var rs, cs := rules[..n], c[..n];
      DetectionsAreFiredRules(rs, cs, entry);
      var f := Fired(cs);
      var d := Detections(rs, cs, entry);
      var tail := if c[n] > 0 then [entry(rules[n], c[n])] else [];
      assert Fired(c) == f + (if c[n] > 0 then [n] else []);
      assert Detections(rules, c, entry) == d + tail;
      forall k | 0 <= k < |Fired(c)|
        ensures Fired(c)[k] < |rules| && Detections(rules, c, entry)[k] == entry(rules[Fired(c)[k]], c[Fired(c)[k]])
      {
        if k < |f| {
          assert Fired(c)[k] == f[k] && f[k] < n;
          assert rs[f[k]] == rules[f[k]] && cs[f[k]] == c[f[k]];
        }
      }
    }
  }

  /** No rule fired exactly when the total is zero (every weight in the tables is positive). */
  lemma {:induction false} TotalZeroIffNoneFired(w: seq<nat>, c: seq<nat>)
    requires |w| == |c|
    requires forall i :: 0 <= i < |w| ==> w[i] > 0
    ensures Total(w, c) == 0 <==> Fired(c) == []
  {
    if w != [] {
      var n := |w| - 1;
      var ws, cs := w[..n], c[..n];
      assert forall i :: 0 <= i < n ==> ws[i] == w[i];
      TotalZeroIffNoneFired(ws, cs);
      TotalZeroStep(w, c);
      FiredEmptyStep(c);
    }
  }

  lemma TotalZeroStep(w: seq<nat>, c: seq<nat>)
    requires |w| == |c| && w != [] && w[|w| - 1] > 0
    ensures Total(w, c) == 0 <==> Total(w[..|w| - 1], c[..|c| - 1]) == 0 && c[|c| - 1] == 0
  {
    MulZeroIff(w[|w| - 1], c[|c| - 1]);
  }

  lemma FiredEmptyStep(c: seq<nat>)
    requires c != []
    ensures Fired(c) == [] <==> Fired(c[..|c| - 1]) == [] && c[|c| - 1] == 0
  {
    assert Fired(c) == Fired(c[..|c| - 1]) + (if c[|c| - 1] > 0 then [|c| - 1] else []);
  }

  /** The total is at least the contribution of any single rule. */
  lemma {:induction false} TotalAtLeastTerm(w: seq<nat>, c: seq<nat>, i: nat)
    requires |w| == |c| && i < |w|
    ensures Total(w, c) >= w[i] * c[i]
  {
    var n := |w| - 1;
    if i < n {
      TotalAtLeastTerm(w[..n], c[..n], i);
      assert w[..n][i] == w[i] && c[..n][i] == c[i];
    }
  }

  /** With no rule firing the total is zero. */
  lemma {:induction false} TotalOfNoHits(w: seq<nat>, c: seq<nat>)
    requires |w| == |c|
    requires forall j :: 0 <= j < |c| ==> c[j] == 0
    ensures Total(w, c) == 0
  {
    if w != [] {
      var n := |w| - 1;
      assert forall j :: 0 <= j < n ==> c[..n][j] == c[j];
      TotalOfNoHits(w[..n], c[..n]);
    }
  }

  /** With only rule `i` firing, the total is that rule's contribution. */
  lemma {:induction false} TotalOfOneHit(w: seq<nat>, c: seq<nat>, i: nat)
    requires |w| == |c| && i < |w|
    requires forall j :: 0 <= j < |c| && j != i ==> c[j] == 0
    ensures Total(w, c) == w[i] * c[i]
  {
    var n := |w| - 1;
    var ws, cs := w[..n], c[..n];
    assert forall j :: 0 <= j < n ==> cs[j] == c[j];
    if i == n {
      TotalOfNoHits(ws, cs);
    } else {
      assert ws[i] == w[i] && cs[i] == c[i];
      TotalOfOneHit(ws, cs, i);
    }
  }

  lemma MulZeroIff(a: nat, b: nat)
    requires a > 0
    ensures a * b == 0 <==> b == 0
  {
  }

  lemma MulPositive(a: nat, b: nat)
    requires a > 0 && b > 0
    ensures a * b > 0
  {
  }

  /** With counts of 0 or 1, the total is at most the sum of all weights. */
  lemma {:induction false} TotalOfHitsBounded(w: seq<nat>, c: seq<nat>)
    requires |w| == |c|
    requires forall i :: 0 <= i < |c| ==> c[i] <= 1
    ensures Total(w, c) <= Total(w, seq(|w|, i => 1))
  {
    if w != [] {
      var n := |w| - 1;
      var ones := seq(|w|, i => 1);
      assert ones[..n] == seq(n, i => 1);
      TotalOfHitsBounded(w[..n], c[..n]);
    }
  }

  /** One loop step: extending the prefix by rule `i` adds that rule's contribution. */
  lemma TotalStep(w: seq<nat>, c: seq<nat>, i: nat)
    requires |w| == |c| && i < |w|
    ensures Total(w[..i + 1], c[..i + 1]) == Total(w[..i], c[..i]) + w[i] * c[i]
    ensures Total(w[..i + 1], c[..i + 1]) == Total(w[..i], c[..i]) + (if c[i] > 0 then w[i] * c[i] else 0)
  {
    assert w[..i + 1][..i] == w[..i];
    assert c[..i + 1][..i] == c[..i];
  }

  /** One loop step of the evidence list. */
  lemma DetectionsStep<R, T>(rules: seq<R>, c: seq<nat>, entry: (R, nat) -> T, i: nat)
    requires |rules| == |c| && i < |rules|
    ensures Detections(rules[..i + 1], c[..i + 1], entry)
            == Detections(rules[..i], c[..i], entry) + (if c[i] > 0 then [entry(rules[i], c[i])] else [])
  {
    assert rules[..i + 1][..i] == rules[..i];
    assert c[..i + 1][..i] == c[..i];
  }
}
