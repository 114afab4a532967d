/** What a returned root cause says: its rule, its confidence and its evidence, in numbers. */
module RootCauseScores {
  import opened RootCauses

  // ---------- rules and weights ----------

  /** The words that make an item evidence for a rule. */
  predicate Concerns(words: set<string>, r: nat) {
    match r
    case 0 => "disk" in words || "space" in words || "large_file" in words
    case 1 => "cpu" in words || "load" in words || "process" in words
    case 2 => "zombie" in words || "process" in words
    case 3 => "service" in words || "failed" in words || "journal" in words
    case 4 => "config" in words || "drift" in words
    case _ => false
  }

  function Weight(r: nat): real {
    match r
    case 0 => 0.9
    case 1 => 0.85
    case 2 => 0.8
    case 3 => 0.85
    case _ => 0.8
  }

  lemma {:induction false} HitsExactly(e: Evidence, r: nat)
    requires r < RULE_COUNT
    ensures HitsRule(e, r) <==> Concerns(e.words, r)
    ensures RULES[r].weight == Weight(r)
  {
    var common := RULES[r].keywords * e.words;
    if HitsRule(e, r) {
      var word :| word in common;
      assert word in RULES[r].keywords && word in e.words;
    }
    if Concerns(e.words, r) {
      var word :| word in e.words && word in RULES[r].keywords;
      assert word in common;
    }
  }

  /** The items that concern the rule, in the order in which they came. */
  function About(evidence: seq<Evidence>, r: nat): seq<Evidence> {
    if evidence == [] then []
    else (if Concerns(evidence[0].words, r) then [evidence[0]] else []) + About(evidence[1..], r)
  }

  lemma {:induction false} AboutLast(evidence: seq<Evidence>, e: Evidence, r: nat)
    ensures About(evidence + [e], r) == About(evidence, r) + if Concerns(e.words, r) then [e] else []
  {
    if evidence == [] {
      assert [e][1..] == [];
    } else {
      assert (evidence + [e])[1..] == evidence[1..] + [e];
      AboutLast(evidence[1..], e, r);
    }
  }

  lemma {:induction false} HitsAreAbout(evidence: seq<Evidence>, r: nat)
    requires r < RULE_COUNT
    ensures Hits(evidence, r) == About(evidence, r)
    decreases |evidence|
  {
    hide Concerns, HitsRule;
    if evidence != [] {
      var n := |evidence| - 1;
      HitsAreAbout(evidence[..n], r);
      HitsExactly(evidence[n], r);
      AboutLast(evidence[..n], evidence[n], r);
      assert evidence == evidence[..n] + [evidence[n]];
    }
  }

  // ---------- the confidence ----------

  /** How many items are in conflict with others. */
  function Conflicts(items: seq<Evidence>): nat {
    if items == [] then 0 else Conflicts(items[1..]) + if items[0].conflict then 1 else 0
  }

  lemma {:induction false} ConflictsLast(items: seq<Evidence>, e: Evidence)
    ensures Conflicts(items + [e]) == Conflicts(items) + if e.conflict then 1 else 0
  {
    if items == [] {
      assert [e][1..] == [];
    } else {
      assert (items + [e])[1..] == items[1..] + [e];
      ConflictsLast(items[1..], e);
    }
  }

  lemma {:induction false} PenaltyCounts(items: seq<Evidence>)
    ensures Penalty(items) == Conflicts(items) as real * 0.1
    decreases |items|
  {
    if items != [] {
      var n := |items| - 1;
      PenaltyCounts(items[..n]);
      ConflictsLast(items[..n], items[n]);
      assert items == items[..n] + [items[n]];
    }
  }

  /** One kind of evidence counts 0.08, two count 0.16, more count 0.24. */
  function Variety(items: seq<Evidence>): real {
    var kinds := |set e | e in items :: e.evidenceType|;
    if kinds == 0 then 0.0 else if kinds == 1 then 0.08 else if kinds == 2 then 0.16 else 0.24
  }

  lemma {:induction false} VarietyIsBonus(items: seq<Evidence>)
    ensures Min(|Types(items)| as real * 0.08, 0.24) == Variety(items)
  {
    assert Types(items) == set e | e in items :: e.evidenceType;
  }

  /** The nearest thousandth, of two the even one. */
  ghost predicate Rounds(x: real, r: real) {
    var thousandths := x * 1000.0;
    exists n :: Nearest(thousandths, n) && r == n as real / 1000.0
  }

  predicate Nearest(x: real, n: int) {
    && -0.5 <= x - n as real <= 0.5
    && (x - n as real == 0.5 || x - n as real == -0.5 ==> n % 2 == 0)
  }

  lemma {:induction false} RoundsTo(x: real)
    ensures Rounds(x, Round3(x))
  {
    var n := RoundEven(x * 1000.0);
    assert Nearest(x * 1000.0, n);
  }

  function Sum(items: seq<Evidence>, f: Evidence -> real): real {
    if items == [] then 0.0 else f(items[0]) + Sum(items[1..], f)
  }

  lemma {:induction false} SumLast(items: seq<Evidence>, e: Evidence, f: Evidence -> real)
    ensures Sum(items + [e], f) == Sum(items, f) + f(e)
  {
    if items == [] {
      assert [e][1..] == [];
    } else {
      assert (items + [e])[1..] == items[1..] + [e];
      SumLast(items[1..], e, f);
    }
  }

  function Anomaly(e: Evidence): real { e.anomaly }

  function Temporal(e: Evidence): real { e.temporal }

  lemma {:induction false} SumsAre(items: seq<Evidence>)
    ensures SumAnomaly(items) == Sum(items, Anomaly) && SumTemporal(items) == Sum(items, Temporal)
    decreases |items|
  {
    if items != [] {
      var n := |items| - 1;
      SumsAre(items[..n]);
      SumLast(items[..n], items[n], Anomaly);
      SumLast(items[..n], items[n], Temporal);
      assert items == items[..n] + [items[n]];
    }
  }

  /** The mean anomaly counts 0.55, the mean temporal score 0.25; variety adds to it, each conflict takes 0.1. */
  function Estimate(r: nat, items: seq<Evidence>): real
    requires items != []
  {
    var n := |items| as real;
    Weight(r) * (0.55 * (Sum(items, Anomaly) / n) + 0.25 * (Sum(items, Temporal) / n) + 0.2)
    + Variety(items) - Conflicts(items) as real * 0.1
  }

  /** The confidence is the estimate, cut to [0, 1] and rounded. */
  ghost predicate ConfidenceFor(r: nat, items: seq<Evidence>, confidence: real)
    requires items != []
  {
    var x := Estimate(r, items);
    Rounds(if x < 0.0 then 0.0 else if x > 1.0 then 1.0 else x, confidence)
  }

  lemma {:induction false} ConfidenceIs(r: nat, items: seq<Evidence>)
    requires r < RULE_COUNT && items != []
    ensures ConfidenceFor(r, items, Confidence(RULES[r].weight, items))
  {
    hide Rounds, Round3, Conflicts, Penalty, Types, Sum, SumAnomaly, SumTemporal, Variety;
    WeightIs(r);
    PenaltyCounts(items);
    VarietyIsBonus(items);
    SumsAre(items);
    RoundsTo(Max(0.0, Min(1.0, Raw(Weight(r), items))));
  }

  lemma {:induction false} WeightIs(r: nat)
    requires r < RULE_COUNT
    ensures RULES[r].weight == Weight(r)
  {
  }

  // ---------- the causes that are returned ----------

  /** The cause names a rule that some evidence concerns, all of this evidence, and its confidence. */
  ghost predicate Explains(evidence: seq<Evidence>, c: Candidate) {
    && c.rule < 5 && About(evidence, c.rule) != []
    && ConfidenceFor(c.rule, About(evidence, c.rule), c.confidence)
    && |c.evidenceIds| == |About(evidence, c.rule)|
    && forall i :: 0 <= i < |c.evidenceIds| ==> c.evidenceIds[i] == About(evidence, c.rule)[i].id
  }

  /** Every cause that is returned explains itself, they fall in confidence, and none is returned twice. */
  lemma {:induction false} AnalysisExplains(evidence: seq<Evidence>)
    ensures forall p :: 0 <= p < |Analysis(evidence)| ==> Explains(evidence, Analysis(evidence)[p])
    ensures Falling(Analysis(evidence))
    ensures |Analysis(evidence)| == if |HitOrder(evidence)| < 3 then |HitOrder(evidence)| else 3
  {
    hide Confidence, HitOrder, SortCandidates, Explains;
    HitOrderRules(evidence);
    var order := HitOrder(evidence);
    var cs := CandidatesOf(evidence, order);
    SortFalls(cs, 0.0);
    forall p | 0 <= p < |Analysis(evidence)|
      ensures Explains(evidence, Analysis(evidence)[p])
    {
      var x := PlaceHasOwner(cs, p);
      CandidateExplains(evidence, order, x);
    }
  }

  lemma {:induction false} CandidateExplains(evidence: seq<Evidence>, order: seq<nat>, x: nat)
    requires forall i :: 0 <= i < |order| ==> order[i] < RULE_COUNT && Hits(evidence, order[i]) != []
    requires x < |order|
    ensures Explains(evidence, CandidatesOf(evidence, order)[x])
  {
    hide Confidence, ConfidenceFor, Hits, About;
    HitsAreAbout(evidence, order[x]);
    ConfidenceIs(order[x], About(evidence, order[x]));
  }

  // ---------- the disk scan ----------

  /** Nothing in use is no anomaly, 70 percent is one of 0.3, and from 95 percent on it is complete. */
  lemma {:induction false} DiskUsageAt(id: string, total: real, used: real)
    requires total > 0.0
    ensures used <= 0.0 ==> DiskUsage(id, total, used).anomaly == 0.0
    ensures used == total * 0.35 ==> DiskUsage(id, total, used).anomaly == 0.15
    ensures used == total * 0.7 ==> DiskUsage(id, total, used).anomaly == 0.3
    ensures used == total * 0.825 ==> DiskUsage(id, total, used).anomaly == 0.65
    ensures used >= total * 0.95 ==> DiskUsage(id, total, used).anomaly == 1.0
    ensures DiskUsage(id, total, used).temporal == 0.8 && !DiskUsage(id, total, used).conflict
    ensures DiskUsage(id, total, used).evidenceType == METRIC && DiskUsage(id, total, used).id == id
  {
    if used <= 0.0 {
      DivideMonotone(used, 0.0, total);
    }
    if used >= total * 0.95 {
      Percent(total, total * 0.95, 0.95);
      DivideMonotone(total * 0.95, used, total);
      DivideMonotone(25.0, used / total * 100.0 - 70.0, 25.0);
    }
    if used == total * 0.7 {
      Percent(total, used, 0.7);
    }
    if used == total * 0.35 {
      Percent(total, used, 0.35);
    }
    if used == total * 0.825 {
      Percent(total, used, 0.825);
    }
  }

  lemma {:induction false} Percent(total: real, used: real, share: real)
    requires total > 0.0 && used == total * share
    ensures used / total == share
  {
  }
}
