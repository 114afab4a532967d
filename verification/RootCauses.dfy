/** Normalized evidence and the ranking of root causes; scores are real numbers here. */
module RootCauses {

  datatype EvidenceType = METRIC | PROCESS | LOG | PORT | SERVICE | CONFIG

  /** `words` are the words of title, source and tags; `conflict` tells that the tag "conflict" is there. */
  datatype Evidence = Evidence(
    id: string, evidenceType: EvidenceType, words: set<string>, conflict: bool, anomaly: real, temporal: real)

  datatype Rule = Rule(title: string, keywords: set<string>, weight: real)

  const RULES := [
    Rule("disk_pressure", {"disk", "space", "large_file"}, 0.9),
    Rule("high_cpu", {"cpu", "load", "process"}, 0.85),
    Rule("zombie_process", {"zombie", "process"}, 0.8),
    Rule("service_failure", {"service", "failed", "journal"}, 0.85),
    Rule("config_drift", {"config", "drift"}, 0.8)]
  const RULE_COUNT := 5
  const DISK_PRESSURE := 0

  // ---------- normalization ----------

  function Min(a: real, b: real): real {
    if a <= b then a else b
  }

  function Max(a: real, b: real): real {
    if a >= b then a else b
  }

  /** Below the warning level the score grows to 0.3, above it from there to 1. */
  function LowScore(share: real): real {
    Max(0.0, share * 0.3)
  }

  function HighScore(share: real): real {
    Min(1.0, 0.3 + share * 0.7)
  }

  function RatioScore(value: real, warning: real, critical: real): real
    requires 0.0 < warning < critical
  {
    if value <= warning then LowScore(value / warning) else HighScore((value - warning) / (critical - warning))
  }

  /** `_item`: the anomaly is cut to [0, 1]. */
  function Item(id: string, t: EvidenceType, words: set<string>, conflict: bool, anomaly: real): Evidence {
    Evidence(id, t, words, conflict, Max(0.0, Min(1.0, anomaly)), 0.8)
  }

  /** `_disk_usage_scan` */
  function DiskUsage(id: string, total: real, used: real): Evidence {
    var percent := if total > 0.0 then used / total * 100.0 else 0.0;
    Item(id, METRIC, {"disk", "space", "disk_usage_scan"}, false, RatioScore(percent, 70.0, 95.0))
  }

  lemma {:induction false} DivideMonotone(a: real, b: real, d: real)
    requires a <= b && d > 0.0
    ensures a / d <= b / d
  {
  }

  lemma {:induction false} RatioScoreMonotone(a: real, b: real, warning: real, critical: real)
    requires 0.0 < warning < critical && a <= b
    ensures RatioScore(a, warning, critical) <= RatioScore(b, warning, critical)
  {
    if b <= warning {
      DivideMonotone(a, b, warning);
    } else if a > warning {
      DivideMonotone(a - warning, b - warning, critical - warning);
    } else {
      DivideMonotone(a, warning, warning);
      DivideMonotone(0.0, b - warning, critical - warning);
      assert LowScore(a / warning) <= 0.3 && 0.3 <= HighScore((b - warning) / (critical - warning));
    }
  }

  /** More space in use never lowers the anomaly of a disk scan. */
  lemma {:induction false} DiskUsageMonotone(id: string, total: real, used: real, more: real)
    requires used <= more
    ensures 0.0 <= DiskUsage(id, total, used).anomaly <= DiskUsage(id, total, more).anomaly <= 1.0
    ensures DiskUsage(id, total, more) == DiskUsage(id, total, used).(anomaly := DiskUsage(id, total, more).anomaly)
  {
    if total > 0.0 {
      DivideMonotone(used, more, total);
      RatioScoreMonotone(used / total * 100.0, more / total * 100.0, 70.0, 95.0);
    }
  }

  // ---------- scoring ----------

  predicate HitsRule(e: Evidence, r: nat)
    requires r < RULE_COUNT
  {
    RULES[r].keywords * e.words != {}
  }

  function Hits(evidence: seq<Evidence>, r: nat): seq<Evidence>
    requires r < RULE_COUNT
  {
    if evidence == [] then []
    else
      var n := |evidence| - 1;
      Hits(evidence[..n], r) + if HitsRule(evidence[n], r) then [evidence[n]] else []
  }

  function SumAnomaly(items: seq<Evidence>): real {
    if items == [] then 0.0 else SumAnomaly(items[..|items| - 1]) + items[|items| - 1].anomaly
  }

  function SumTemporal(items: seq<Evidence>): real {
    if items == [] then 0.0 else SumTemporal(items[..|items| - 1]) + items[|items| - 1].temporal
  }

  function Penalty(items: seq<Evidence>): real {
    if items == [] then 0.0 else Penalty(items[..|items| - 1]) + if items[|items| - 1].conflict then 0.1 else 0.0
  }

  function Types(items: seq<Evidence>): set<EvidenceType> {
    set i | 0 <= i < |items| :: items[i].evidenceType
  }

  /** Round half to even. */
  function RoundEven(x: real): int {
    var f := x.Floor;
    var d := x - f as real;
    if d < 0.5 then f else if d > 0.5 then f + 1 else if f % 2 == 0 then f else f + 1
  }

  function Round3(x: real): real {
    RoundEven(x * 1000.0) as real / 1000.0
  }

  function Score(weight: real, anomaly: real, temporal: real): real {
    weight * (0.55 * anomaly + 0.25 * temporal + 0.2)
  }

  function Raw(weight: real, items: seq<Evidence>): real
    requires items != []
  {
    var n := |items| as real;
    var bonus := Min(|Types(items)| as real * 0.08, 0.24);
    Score(weight, SumAnomaly(items) / n, SumTemporal(items) / n) + bonus - Penalty(items)
  }

  function Confidence(weight: real, items: seq<Evidence>): real
    requires items != []
  {
    Round3(Max(0.0, Min(1.0, Raw(weight, items))))
  }

  lemma {:induction false} RoundEvenMonotone(x: real, y: real)
    requires x <= y
    ensures RoundEven(x) <= RoundEven(y)
  {
  }

  lemma {:induction false} Round3Monotone(x: real, y: real)
    requires x <= y
    ensures Round3(x) <= Round3(y)
  {
    RoundEvenMonotone(x * 1000.0, y * 1000.0);
    DivideMonotone(RoundEven(x * 1000.0) as real, RoundEven(y * 1000.0) as real, 1000.0);
  }

  lemma {:induction false} ConfidenceInRange(weight: real, items: seq<Evidence>)
    requires items != []
    ensures 0.0 <= Confidence(weight, items) <= 1.0
  {
    hide Raw, Round3;
    var x := Max(0.0, Min(1.0, Raw(weight, items)));
    Round3Monotone(0.0, x);
    Round3Monotone(x, 1.0);
    Round3Ends();
  }

  lemma {:induction false} Round3Ends()
    ensures Round3(0.0) == 0.0 && Round3(1.0) == 1.0
  {
  }

  /** The same evidence, with anomalies at least as high. */
  ghost predicate Raised(a: seq<Evidence>, b: seq<Evidence>) {
    |a| == |b| && forall i :: 0 <= i < |a| ==> a[i].anomaly <= b[i].anomaly && b[i] == a[i].(anomaly := b[i].anomaly)
  }

  lemma {:induction false} RaisedHits(a: seq<Evidence>, b: seq<Evidence>, r: nat)
    requires Raised(a, b) && r < RULE_COUNT
    ensures Raised(Hits(a, r), Hits(b, r))
    decreases |a|
  {
    if a != [] {
      var n := |a| - 1;
      RaisedHits(a[..n], b[..n], r);
      assert HitsRule(a[n], r) == HitsRule(b[n], r);
      hide HitsRule;
    }
  }

  lemma {:induction false} RaisedSums(a: seq<Evidence>, b: seq<Evidence>)
    requires Raised(a, b)
    ensures SumAnomaly(a) <= SumAnomaly(b) && SumTemporal(a) == SumTemporal(b) && Penalty(a) == Penalty(b)
    decreases |a|
  {
    if a != [] {
      RaisedSums(a[..|a| - 1], b[..|b| - 1]);
    }
  }

  lemma {:induction false} RaisedTypes(a: seq<Evidence>, b: seq<Evidence>)
    requires Raised(a, b)
    ensures Types(a) == Types(b)
  {
    assert forall i :: 0 <= i < |a| ==> a[i].evidenceType == b[i].evidenceType;
  }

  lemma {:induction false} ScoreMonotone(weight: real, a: real, b: real, temporal: real)
    requires a <= b && weight > 0.0
    ensures Score(weight, a, temporal) <= Score(weight, b, temporal)
  {
  }

  /** Higher anomalies never lower a confidence. */
  lemma {:induction false} RaisedConfidence(weight: real, a: seq<Evidence>, b: seq<Evidence>)
    requires weight > 0.0 && Raised(a, b) && a != []
    ensures Confidence(weight, a) <= Confidence(weight, b)
  {
    RaisedSums(a, b);
    RaisedTypes(a, b);
    var n := |a| as real;
    DivideMonotone(SumAnomaly(a), SumAnomaly(b), n);
    hide Round3, SumAnomaly, SumTemporal, Penalty, Types, Score;
    ScoreMonotone(weight, SumAnomaly(a) / n, SumAnomaly(b) / n, SumTemporal(a) / n);
    Round3Monotone(Max(0.0, Min(1.0, Raw(weight, a))), Max(0.0, Min(1.0, Raw(weight, b))));
  }

  // ---------- ranking ----------

  datatype Candidate = Candidate(rule: nat, confidence: real, evidenceIds: seq<string>)

  /** The rules that an item hits and that are not in the order yet are added in the order of the table. */
  function AddHits(order: seq<nat>, e: Evidence, r: nat): seq<nat>
    requires r <= RULE_COUNT
    decreases RULE_COUNT - r
  {
    if r == RULE_COUNT then order
    else AddHits(if HitsRule(e, r) && r !in order then order + [r] else order, e, r + 1)
  }

  /** The rules in the order in which they were first hit: the order of the keys of the grouped dictionary. */
  function HitOrder(evidence: seq<Evidence>): seq<nat> {
    if evidence == [] then [] else AddHits(HitOrder(evidence[..|evidence| - 1]), evidence[|evidence| - 1], 0)
  }

  function Ids(items: seq<Evidence>): seq<string> {
    seq(|items|, i requires 0 <= i < |items| => items[i].id)
  }

  ghost predicate RulesOnly(order: seq<nat>) {
    forall i :: 0 <= i < |order| ==> order[i] < RULE_COUNT
  }

  ghost predicate DistinctRules(order: seq<nat>) {
    forall i, j :: 0 <= i < j < |order| ==> order[i] != order[j]
  }

  lemma {:induction false} AppendRule(order: seq<nat>, r: nat)
    requires r < RULE_COUNT && RulesOnly(order) && DistinctRules(order) && r !in order
    ensures RulesOnly(order + [r]) && DistinctRules(order + [r])
    ensures forall q: nat :: q in order + [r] <==> q in order || q == r
  {
  }

  lemma {:induction false} AddHitsRules(order: seq<nat>, e: Evidence, r: nat)
    requires r <= RULE_COUNT && RulesOnly(order) && DistinctRules(order)
    ensures RulesOnly(AddHits(order, e, r)) && DistinctRules(AddHits(order, e, r))
    ensures forall q: nat :: q in AddHits(order, e, r) <==> q in order || (r <= q < RULE_COUNT && HitsRule(e, q))
    decreases RULE_COUNT - r
  {
    hide HitsRule, RulesOnly, DistinctRules;
    if r < RULE_COUNT {
      if HitsRule(e, r) && r !in order {
        AppendRule(order, r);
        AddHitsRules(order + [r], e, r + 1);
      } else {
        AddHitsRules(order, e, r + 1);
      }
    }
  }

  /** A rule is in the order exactly when some evidence hits it. */
  lemma {:induction false} HitOrderRules(evidence: seq<Evidence>)
    ensures RulesOnly(HitOrder(evidence)) && DistinctRules(HitOrder(evidence))
    ensures forall q: nat :: q < RULE_COUNT ==> (q in HitOrder(evidence) <==> Hits(evidence, q) != [])
    decreases |evidence|
  {
    hide HitsRule;
    if evidence != [] {
      var n := |evidence| - 1;
      HitOrderRules(evidence[..n]);
      AddHitsRules(HitOrder(evidence[..n]), evidence[n], 0);
      hide AddHits;
    }
  }

  lemma {:induction false} RaisedAddHits(order: seq<nat>, a: Evidence, b: Evidence, r: nat)
    requires r <= RULE_COUNT && a.words == b.words
    ensures AddHits(order, a, r) == AddHits(order, b, r)
    decreases RULE_COUNT - r
  {
    if r < RULE_COUNT {
      RaisedAddHits(if HitsRule(a, r) && r !in order then order + [r] else order, a, b, r + 1);
    }
  }

  /** The order depends on the words alone. */
  lemma {:induction false} RaisedOrder(a: seq<Evidence>, b: seq<Evidence>)
    requires Raised(a, b)
    ensures HitOrder(a) == HitOrder(b)
    decreases |a|
  {
    if a != [] {
      var n := |a| - 1;
      RaisedOrder(a[..n], b[..n]);
      RaisedAddHits(HitOrder(a[..n]), a[n], b[n], 0);
      hide AddHits;
    }
  }

  /** The stable sort by falling confidence, by insertion. */
  function InsertCandidate(c: Candidate, sorted: seq<Candidate>): seq<Candidate> {
    if sorted == [] then [c]
    else if sorted[|sorted| - 1].confidence < c.confidence then
      InsertCandidate(c, sorted[..|sorted| - 1]) + [sorted[|sorted| - 1]]
    else sorted + [c]
  }

  function SortCandidates(cs: seq<Candidate>): seq<Candidate> {
    if cs == [] then [] else InsertCandidate(cs[|cs| - 1], SortCandidates(cs[..|cs| - 1]))
  }

  function Top3(cs: seq<Candidate>): seq<Candidate> {
    var sorted := SortCandidates(cs);
    if |sorted| <= 3 then sorted else sorted[..3]
  }

  function CandidatesOf(evidence: seq<Evidence>, order: seq<nat>): (cs: seq<Candidate>)
    requires forall i :: 0 <= i < |order| ==> order[i] < RULE_COUNT && Hits(evidence, order[i]) != []
    ensures |cs| == |order|
  {
    seq(|order|, i requires 0 <= i < |order| =>
      Candidate(order[i], Confidence(RULES[order[i]].weight, Hits(evidence, order[i])), Ids(Hits(evidence, order[i]))))
  }

  /** How many candidates come before the one at `x`: a higher confidence, or the same and an earlier place. */
  function Ahead(cs: seq<Candidate>, x: nat): nat
    requires x < |cs|
  {
    CountAhead(cs, x, |cs|)
  }

  predicate Before(cs: seq<Candidate>, y: nat, x: nat)
    requires x < |cs| && y < |cs|
  {
    cs[y].confidence > cs[x].confidence || (cs[y].confidence == cs[x].confidence && y < x)
  }

  function CountAhead(cs: seq<Candidate>, x: nat, n: nat): nat
    requires x < |cs| && n <= |cs|
  {
    if n == 0 then 0 else CountAhead(cs, x, n - 1) + if Before(cs, n - 1, x) then 1 else 0
  }

  ghost predicate Falling(cs: seq<Candidate>) {
    forall i, j :: 0 <= i < j < |cs| ==> cs[i].confidence >= cs[j].confidence
  }

  function AtLeast(cs: seq<Candidate>, v: real): (n: nat)
    ensures n <= |cs|
  {
    if cs == [] then 0 else AtLeast(cs[..|cs| - 1], v) + if cs[|cs| - 1].confidence >= v then 1 else 0
  }

  lemma {:induction false} AtLeastAll(cs: seq<Candidate>, v: real)
    requires forall k :: 0 <= k < |cs| ==> cs[k].confidence >= v
    ensures AtLeast(cs, v) == |cs|
  {
    if cs != [] {
      AtLeastAll(cs[..|cs| - 1], v);
    }
  }

  /** `after` is `sorted` with `c` at place `q`. */
  ghost predicate InsertedAt(c: Candidate, sorted: seq<Candidate>, q: nat, after: seq<Candidate>) {
    && q <= |sorted| && |after| == |sorted| + 1 && after[q] == c
    && (forall k :: 0 <= k < q ==> after[k] == sorted[k])
    && (forall k :: q < k < |after| ==> after[k] == sorted[k - 1])
  }

  /** An insertion puts a candidate behind everything that is as high. */
  lemma {:induction false} InsertPlace(c: Candidate, sorted: seq<Candidate>)
    requires Falling(sorted)
    ensures InsertedAt(c, sorted, AtLeast(sorted, c.confidence), InsertCandidate(c, sorted))
  {
    if sorted == [] || sorted[|sorted| - 1].confidence >= c.confidence {
      AtLeastAll(sorted, c.confidence);
    } else {
      var init := sorted[..|sorted| - 1];
      InsertPlace(c, init);
      hide Falling, InsertCandidate;
      assert forall k :: 0 <= k < |init| ==> init[k] == sorted[k];
    }
  }

  lemma {:induction false} InsertFalls(c: Candidate, sorted: seq<Candidate>)
    requires Falling(sorted)
    ensures Falling(InsertCandidate(c, sorted))
  {
    if sorted == [] || sorted[|sorted| - 1].confidence >= c.confidence {
    } else {
      var init, last := sorted[..|sorted| - 1], sorted[|sorted| - 1];
      InsertFalls(c, init);
      InsertPlace(c, init);
      var after := InsertCandidate(c, init);
      assert forall k :: 0 <= k < |after| ==> after[k].confidence >= last.confidence by {
        hide InsertCandidate, AtLeast;
      }
      assert InsertCandidate(c, sorted) == after + [last];
    }
  }

  lemma {:induction false} InsertCounts(c: Candidate, sorted: seq<Candidate>, v: real)
    ensures AtLeast(InsertCandidate(c, sorted), v) == AtLeast(sorted, v) + if c.confidence >= v then 1 else 0
  {
    if sorted == [] {
      assert [c][..0] == [];
    } else if sorted[|sorted| - 1].confidence < c.confidence {
      var init, last := sorted[..|sorted| - 1], sorted[|sorted| - 1];
      InsertCounts(c, init, v);
      assert (InsertCandidate(c, init) + [last])[..|InsertCandidate(c, init)|] == InsertCandidate(c, init);
    } else {
      assert (sorted + [c])[..|sorted|] == sorted;
    }
  }

  lemma {:induction false} SortFalls(cs: seq<Candidate>, v: real)
    ensures Falling(SortCandidates(cs)) && |SortCandidates(cs)| == |cs|
    ensures AtLeast(SortCandidates(cs), v) == AtLeast(cs, v)
  {
    if cs != [] {
      var n := |cs| - 1;
      SortFalls(cs[..n], v);
      hide Falling, InsertCandidate;
      InsertFalls(cs[n], SortCandidates(cs[..n]));
      InsertCounts(cs[n], SortCandidates(cs[..n]), v);
      InsertPlace(cs[n], SortCandidates(cs[..n]));
    }
  }

  lemma {:induction false} CountAheadInit(cs: seq<Candidate>, x: nat, n: nat)
    requires cs != [] && x < |cs| - 1 && n < |cs|
    ensures CountAhead(cs, x, n) == CountAhead(cs[..|cs| - 1], x, n)
  {
    if n > 0 {
      CountAheadInit(cs, x, n - 1);
    }
  }

  lemma {:induction false} CountAheadLast(cs: seq<Candidate>, n: nat)
    requires cs != [] && n < |cs|
    ensures CountAhead(cs, |cs| - 1, n) == AtLeast(cs[..n], cs[|cs| - 1].confidence)
  {
    if n > 0 {
      CountAheadLast(cs, n - 1);
      assert cs[..n][..n - 1] == cs[..n - 1];
    }
  }

  /** What the last candidate does to the list that the others are sorted into. */
  lemma {:induction false} LastInserted(cs: seq<Candidate>)
    requires cs != []
    ensures var n := |cs| - 1;
            var q := AtLeast(cs[..n], cs[n].confidence);
            && InsertedAt(cs[n], SortCandidates(cs[..n]), q, SortCandidates(cs)) && |SortCandidates(cs[..n])| == n
            && Ahead(cs, n) == q && Falling(SortCandidates(cs[..n]))
            && (forall k :: 0 <= k < q ==> SortCandidates(cs[..n])[k].confidence >= cs[n].confidence)
            && (forall k :: q <= k < n ==> SortCandidates(cs[..n])[k].confidence < cs[n].confidence)
  {
    var n := |cs| - 1;
    SortFalls(cs[..n], cs[n].confidence);
    InsertPlace(cs[n], SortCandidates(cs[..n]));
    CountAheadLast(cs, n);
    AtLeastSplits(SortCandidates(cs[..n]), cs[n].confidence);
  }

  lemma {:induction false} AtLeastSplits(sorted: seq<Candidate>, v: real)
    requires Falling(sorted)
    ensures forall k :: 0 <= k < AtLeast(sorted, v) ==> sorted[k].confidence >= v
    ensures forall k :: AtLeast(sorted, v) <= k < |sorted| ==> sorted[k].confidence < v
  {
    if sorted != [] {
      if sorted[|sorted| - 1].confidence >= v {
        AtLeastAll(sorted, v);
      } else {
        AtLeastSplits(sorted[..|sorted| - 1], v);
      }
    }
  }

  /** In the sorted list a candidate has exactly as many others in front of it as come before it. */
  lemma {:induction false} PlaceIsAhead(cs: seq<Candidate>, x: nat)
    requires x < |cs|
    ensures |SortCandidates(cs)| == |cs| && Ahead(cs, x) < |cs| && SortCandidates(cs)[Ahead(cs, x)] == cs[x]
    decreases |cs|
  {
    hide SortCandidates, AtLeast, Falling;
    var n := |cs| - 1;
    LastInserted(cs);
    if x < n {
      PlaceIsAhead(cs[..n], x);
      CountAheadInit(cs, x, n);
    }
  }

  /** Every place of the sorted list belongs to some candidate. */
  lemma {:induction false} PlaceHasOwner(cs: seq<Candidate>, p: nat) returns (x: nat)
    requires p < |cs| == |SortCandidates(cs)|
    ensures x < |cs| && Ahead(cs, x) == p && SortCandidates(cs)[p] == cs[x]
    decreases |cs|
  {
    hide SortCandidates, AtLeast, Falling;
    var n := |cs| - 1;
    LastInserted(cs);
    var q := AtLeast(cs[..n], cs[n].confidence);
    if p == q {
      x := n;
    } else {
      x := PlaceHasOwner(cs[..n], if p < q then p else p - 1);
      CountAheadInit(cs, x, n);
    }
  }

  // ---------- the analysis ----------

  function Analysis(evidence: seq<Evidence>): seq<Candidate> {
    HitOrderRules(evidence);
    Top3(CandidatesOf(evidence, HitOrder(evidence)))
  }

  /** The dictionary yields the empty list for a rule that was not hit. */
  function GroupAt(grouped: map<nat, seq<Evidence>>, r: nat): seq<Evidence> {
    if r in grouped then grouped[r] else []
  }

  ghost predicate Groups(grouped: map<nat, seq<Evidence>>, evidence: seq<Evidence>) {
    forall r: nat :: r < RULE_COUNT ==> GroupAt(grouped, r) == Hits(evidence, r)
  }

  ghost predicate PartlyGrouped(grouped: map<nat, seq<Evidence>>, evidence: seq<Evidence>, e: Evidence, r: nat) {
    forall q: nat :: q < RULE_COUNT ==>
      GroupAt(grouped, q) == Hits(evidence, q) + if q < r && HitsRule(e, q) then [e] else []
  }

  lemma {:induction false} NothingGrouped(grouped: map<nat, seq<Evidence>>, evidence: seq<Evidence>, e: Evidence)
    requires Groups(grouped, evidence)
    ensures PartlyGrouped(grouped, evidence, e, 0)
  {
    hide HitsRule, Hits, GroupAt;
    forall q: nat | q < RULE_COUNT
      ensures Hits(evidence, q) + [] == Hits(evidence, q)
    {
    }
  }

  lemma {:induction false} RuleGrouped(grouped: map<nat, seq<Evidence>>, evidence: seq<Evidence>, e: Evidence, r: nat)
    requires r < RULE_COUNT && PartlyGrouped(grouped, evidence, e, r)
    ensures PartlyGrouped(if HitsRule(e, r) then grouped[r := GroupAt(grouped, r) + [e]] else grouped, evidence, e,
      r + 1)
  {
    hide HitsRule, Hits;
  }

  method GroupItem(order: seq<nat>, grouped: map<nat, seq<Evidence>>, ghost evidence: seq<Evidence>, e: Evidence)
    returns (order': seq<nat>, grouped': map<nat, seq<Evidence>>)
    requires Groups(grouped, evidence)
    ensures order' == AddHits(order, e, 0) && PartlyGrouped(grouped', evidence, e, RULE_COUNT)
  {
    hide HitsRule, Hits, Groups, PartlyGrouped, GroupAt;
    order', grouped' := order, grouped;
    NothingGrouped(grouped, evidence, e);
    var r := 0;
    while r < RULE_COUNT
      invariant 0 <= r <= RULE_COUNT
      invariant AddHits(order', e, r) == AddHits(order, e, 0)
      invariant PartlyGrouped(grouped', evidence, e, r)
    {
      RuleGrouped(grouped', evidence, e, r);
      if HitsRule(e, r) {
        if r !in order' {
          order' := order' + [r];
        }
        grouped' := grouped'[r := GroupAt(grouped', r) + [e]];
      }
      r := r + 1;
    }
  }

  /** The evidence is grouped by rule, each group is scored, and the three best groups are returned. */
  method Analyze(evidence: seq<Evidence>) returns (top: seq<Candidate>)
    ensures top == Analysis(evidence)
    ensures |top| <= 3
  {
    hide HitsRule, Confidence, SortCandidates, AddHits;
    var order: seq<nat> := [];
    var grouped: map<nat, seq<Evidence>> := map[];
    var i := 0;
    while i < |evidence|
      invariant 0 <= i <= |evidence| && order == HitOrder(evidence[..i]) && Groups(grouped, evidence[..i])
    {
      order, grouped := GroupItem(order, grouped, evidence[..i], evidence[i]);
      assert evidence[..i + 1][..i] == evidence[..i];
      i := i + 1;
    }
    assert evidence[..i] == evidence;
    HitOrderRules(evidence);
    var candidates := ScoreGroups(evidence, order, grouped);
    top := Top3(candidates);
  }

  method ScoreGroups(ghost evidence: seq<Evidence>, order: seq<nat>, grouped: map<nat, seq<Evidence>>)
    returns (candidates: seq<Candidate>)
    requires Groups(grouped, evidence)
    requires forall i :: 0 <= i < |order| ==> order[i] < RULE_COUNT && Hits(evidence, order[i]) != []
    ensures candidates == CandidatesOf(evidence, order)
  {
    hide Confidence, Hits;
    candidates := [];
    for k := 0 to |order|
      invariant |candidates| == k
      invariant forall m :: 0 <= m < k ==> candidates[m] == CandidatesOf(evidence, order)[m]
    {
      var items := GroupAt(grouped, order[k]);
      assert items == Hits(evidence, order[k]);
      candidates := candidates + [Candidate(order[k], Confidence(RULES[order[k]].weight, items), Ids(items))];
    }
  }

  ghost predicate Ranks(top: seq<Candidate>, r: nat) {
    exists p :: 0 <= p < |top| && top[p].rule == r
  }

  lemma {:induction false} AheadFalls(a: seq<Candidate>, b: seq<Candidate>, x: nat, n: nat)
    requires |a| == |b| && x < |a| && n <= |a|
    requires forall y :: 0 <= y < |a| && y != x ==> a[y].confidence == b[y].confidence
    requires a[x].confidence <= b[x].confidence
    ensures CountAhead(b, x, n) <= CountAhead(a, x, n)
  {
    if n > 0 {
      AheadFalls(a, b, x, n - 1);
    }
  }

  /** A candidate whose confidence alone grows stays among the three best. */
  lemma {:induction false} RaisedStaysOnTop(a: seq<Candidate>, b: seq<Candidate>, x: nat)
    requires |a| == |b| && x < |a|
    requires forall y :: 0 <= y < |a| ==> a[y].rule == b[y].rule
    requires forall y, z :: 0 <= y < z < |a| ==> a[y].rule != a[z].rule
    requires forall y :: 0 <= y < |a| && y != x ==> a[y].confidence == b[y].confidence
    requires a[x].confidence <= b[x].confidence && Ranks(Top3(a), a[x].rule)
    ensures Ranks(Top3(b), a[x].rule)
  {
    hide SortCandidates, CountAhead;
    var p :| 0 <= p < |Top3(a)| && Top3(a)[p].rule == a[x].rule;
    PlaceIsAhead(a, x);
    PlaceIsAhead(b, x);
    var y := PlaceHasOwner(a, p);
    assert y == x;
    AheadFalls(a, b, x, |a|);
    assert Top3(b)[Ahead(b, x)] == b[x];
  }

  /** A disk scan is evidence for disk pressure alone. */
  lemma {:induction false} DiskHitsOneRule(id: string, total: real, used: real, r: nat)
    requires r < RULE_COUNT
    ensures HitsRule(DiskUsage(id, total, used), r) <==> r == DISK_PRESSURE
  {
    var words := {"disk", "space", "disk_usage_scan"};
    assert "disk" in RULES[0].keywords * words;
    assert r != DISK_PRESSURE ==> RULES[r].keywords * words == {};
  }

  lemma {:induction false} OtherHits(a: seq<Evidence>, b: seq<Evidence>, i: nat, r: nat)
    requires |a| == |b| && i < |a| && r < RULE_COUNT && (forall k :: 0 <= k < |a| && k != i ==> a[k] == b[k])
    requires !HitsRule(a[i], r) && !HitsRule(b[i], r)
    ensures Hits(a, r) == Hits(b, r)
    decreases |a|
  {
    hide HitsRule;
    var n := |a| - 1;
    if i == n {
      assert a[..n] == b[..n];
    } else {
      OtherHits(a[..n], b[..n], i, r);
    }
  }

  /**
   When a disk scan reports more space in use and all other evidence stays, the confidence of disk pressure does not
   fall, and disk pressure does not leave the three causes that are returned.
   */
  lemma {:induction false} MoreUseKeepsDiskPressure(
      evidence: seq<Evidence>, i: nat, id: string, total: real, used: real, more: real)
    requires i < |evidence| && evidence[i] == DiskUsage(id, total, used) && used <= more
    ensures var later := evidence[i := DiskUsage(id, total, more)];
            && Hits(evidence, DISK_PRESSURE) != [] && Hits(later, DISK_PRESSURE) != []
            && 0.0 <= Confidence(0.9, Hits(evidence, DISK_PRESSURE))
            && Confidence(0.9, Hits(evidence, DISK_PRESSURE)) <= Confidence(0.9, Hits(later, DISK_PRESSURE)) <= 1.0
            && (Ranks(Analysis(evidence), DISK_PRESSURE) ==> Ranks(Analysis(later), DISK_PRESSURE))
  {
    hide Confidence, DiskUsage, HitsRule, AddHits, Top3, Ids;
    var later := evidence[i := DiskUsage(id, total, more)];
    DiskUsageMonotone(id, total, used, more);
    assert Raised(evidence, later);
    RaisedHits(evidence, later, DISK_PRESSURE);
    RaisedOrder(evidence, later);
    HitOrderRules(evidence);
    HitOrderRules(later);
    DiskHitsOneRule(id, total, used, DISK_PRESSURE);
    HitsMember(evidence, i, DISK_PRESSURE);
    RaisedConfidence(0.9, Hits(evidence, DISK_PRESSURE), Hits(later, DISK_PRESSURE));
    ConfidenceInRange(0.9, Hits(evidence, DISK_PRESSURE));
    ConfidenceInRange(0.9, Hits(later, DISK_PRESSURE));
    var order := HitOrder(evidence);
    var x :| 0 <= x < |order| && order[x] == DISK_PRESSURE;
    var a, b := CandidatesOf(evidence, order), CandidatesOf(later, order);
    forall y | 0 <= y < |a| && y != x
      ensures a[y].confidence == b[y].confidence
    {
      DiskHitsOneRule(id, total, used, order[y]);
      DiskHitsOneRule(id, total, more, order[y]);
      OtherHits(evidence, later, i, order[y]);
    }
    if Ranks(Analysis(evidence), DISK_PRESSURE) {
      RaisedStaysOnTop(a, b, x);
    }
  }

  lemma {:induction false} HitsMember(evidence: seq<Evidence>, i: nat, r: nat)
    requires i < |evidence| && r < RULE_COUNT && HitsRule(evidence[i], r)
    ensures Hits(evidence, r) != []
    decreases |evidence|
  {
    hide HitsRule;
    if i < |evidence| - 1 {
      HitsMember(evidence[..|evidence| - 1], i, r);
    }
  }
}
