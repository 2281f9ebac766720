/**
 * The two fallback leads of the command-line demo and the report the demo asks
 * for. The first lead sits exactly on the threshold and so stays "nurture"
 * although the demo labels it "qualified".
 */
module Demo {
  import opened Text
  import opened Crm
  import opened Domain
  import opened Enricher
  import opened Scoring
  import opened Orchestration
  import opened Evaluation
  import opened SalesPipeline

  const AcmePay := Lead("L1", "AcmePay", "Ali", "ali@acmepay.com", "acmepay.com", "Series A")
  const ShopRight := Lead("L2", "ShopRight", "Ayesha", "ayesha@shopright.pk", "shopright.pk", "")
  const DemoLeads := [AcmePay, ShopRight]
  const DemoLabels := map["L1" := "qualified", "L2" := "nurture"]

  /** A name with no "f" or "F" does not contain "fin" once lowered. */
  lemma NoFin(name: string)
    requires 'f' !in name && 'F' !in name
    ensures !Contains(Lower(name), "fin")
  {
    if Contains(Lower(name), "fin") {
      ContainsFirstChar(Lower(name), "fin");
    }
  }

  /** Neither company name contains "fin" once lowered. */
  lemma NoFinInNames()
    ensures !Contains(Lower(AcmePay.companyName), "fin")
    ensures !Contains(Lower(ShopRight.companyName), "fin")
  {
    NoFin(AcmePay.companyName);
    NoFin(ShopRight.companyName);
  }

  /** AcmePay is SaaS with 75 people and a Series A: 30 + 20 is exactly 50, not
      above it. */
  lemma AcmePayOnThreshold()
    ensures Qualify(EnrichLead(AcmePay)).score == 50
  {
    var e := EnrichLead(AcmePay);
    NoFinInNames();
    assert Contains("Series A", "Series A");
    assert e.industry == "SaaS" && e.employeeCount == 75 && e.recentNews == "Series A";
    ScoreByRuleTable(e);
  }

  /** ShopRight is a 12-person SaaS company with no news: no rule fires. */
  lemma ShopRightScoresZero()
    ensures Qualify(EnrichLead(ShopRight)).score == 0
  {
    var e := EnrichLead(ShopRight);
    NoFinInNames();
    assert e.industry == "SaaS" && e.employeeCount == 12 && e.recentNews == "";
    ScoreByRuleTable(e);
  }

  /** After the sequential stage over the demo batch, both leads are "nurture". */
  lemma DemoStatuses(es: seq<EnrichedLead>)
    requires es == EnrichAll(DemoLeads)
    ensures Predicted(AfterAll(map[], es), "L1") == Str("nurture")
    ensures Predicted(AfterAll(map[], es), "L2") == Str("nurture")
  {
    NoFinInNames();
    assert es[0].id == "L1" && es[0].industry == "SaaS";
    assert es[1].id == "L2" && es[1].industry == "SaaS";
    TwoSaaS(es);
    NurtureUnlessQualified(map[], es, "L1");
    NurtureUnlessQualified(map[], es, "L2");
  }

  /** In a batch of two SaaS leads, no lead clears the threshold. */
  lemma TwoSaaS(es: seq<EnrichedLead>)
    requires |es| == 2 && es[0].industry == "SaaS" && es[1].industry == "SaaS"
    ensures forall leadId :: !SomeQualifies(es, leadId)
  {
    assert !IndustryFires(es[0]) && !IndustryFires(es[1]);
    forall leadId, i | 0 <= i < |es|
      ensures !QualifiesAs(es[i], leadId)
    {
      assert i == 0 || i == 1;
    }
  }

  /** Against the demo labels, a store where both leads are "nurture" gives one
      false negative (L1) and one true negative (L2), so precision and recall
      are both 0.0. */
  lemma DemoReport(db: Store)
    requires Predicted(db, "L1") == Str("nurture") && Predicted(db, "L2") == Str("nurture")
    ensures Evaluate(DemoLabels, db) == Metrics(0.0, 0.0, 0, 0, 1, 1)
  {
    var labeled := DemoLabels;
    assert labeled.Keys == {"L1", "L2"} && labeled["L1"] == "qualified" && labeled["L2"] == "nurture";
    MissedAndRejected(labeled, db, "L1", "L2");
  }

  /** Two labeled leads, neither predicted "qualified", the first labeled
      "qualified" and the second not: one false negative and one true negative. */
  lemma MissedAndRejected(labeled: map<string, string>, db: Store, a: string, b: string)
    requires labeled.Keys == {a, b} && a != b
    requires labeled[a] == "qualified" && labeled[b] != "qualified"
    requires Predicted(db, a) != Str("qualified") && Predicted(db, b) != Str("qualified")
    ensures Evaluate(labeled, db) == Metrics(0.0, 0.0, 0, 0, 1, 1)
  {
    CellsOfTwo(labeled, db, a, b);
    assert Cell(labeled, db, TruePositive) == {} && Cell(labeled, db, FalsePositive) == {};
    assert Cell(labeled, db, TrueNegative) == {b} && Cell(labeled, db, FalseNegative) == {a};
    EvaluationFromCounts(labeled, db, 0, 0, 1, 1);
  }

  /** With exactly two labeled leads, each cell holds those of the two whose
      prediction and label select it. */
  lemma CellsOfTwo(labeled: map<string, string>, db: Store, a: string, b: string)
    requires labeled.Keys == {a, b}
    ensures forall o ::
      Cell(labeled, db, o)
      == (if Classify(Predicted(db, a), labeled[a]) == o then {a} else {})
         + (if Classify(Predicted(db, b), labeled[b]) == o then {b} else {})
  {
  }

  /** The report of the demo run: the lead the demo labels "qualified" scores
      exactly 50 and so counts as a false negative. */
  lemma DemoMetrics(es: seq<EnrichedLead>)
    requires es == EnrichAll(DemoLeads)
    ensures Evaluate(DemoLabels, AfterAll(map[], es)) == Metrics(0.0, 0.0, 0, 0, 1, 1)
  {
    DemoStatuses(es);
    DemoReport(AfterAll(map[], es));
  }
}
