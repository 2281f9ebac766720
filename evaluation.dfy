/**
 * `evaluate_predictions`: compares each labeled lead's CRM status with its
 * ground-truth label in a 2x2 confusion matrix, and derives precision and recall.
 */
module Evaluation {
  import opened Crm

  datatype Outcome = TruePositive | FalsePositive | TrueNegative | FalseNegative

  /** `{precision, recall, tp, fp, tn, fn}`. */
  datatype Metrics = Metrics(precision: real, recall: real, tp: nat, fp: nat, tn: nat, fn: nat)

  /** `crm.get(lead_id).get("status", "nurture")`. */
  function Predicted(db: Store, leadId: string): (v: Value)
    ensures "status" in Lookup(db, leadId) ==> v == Lookup(db, leadId)["status"]
    ensures "status" !in Lookup(db, leadId) ==> v == Str("nurture")
  {
    var rec := Lookup(db, leadId);
    if "status" in rec then rec["status"] else Str("nurture")
  }

  /** The cell of the matrix one labeled lead falls in: "positive" is a prediction
      of "qualified", "true" is agreement with the truth. */
  function Classify(predicted: Value, truth: string): (o: Outcome)
    ensures o == TruePositive <==> predicted == Str("qualified") && truth == "qualified"
    ensures o == FalsePositive <==> predicted == Str("qualified") && truth != "qualified"
    ensures o == TrueNegative <==> predicted != Str("qualified") && truth != "qualified"
    ensures o == FalseNegative <==> predicted != Str("qualified") && truth == "qualified"
  {
    if predicted == Str("qualified") then
      (if truth == "qualified" then TruePositive else FalsePositive)
    else
      (if truth == "qualified" then FalseNegative else TrueNegative)
  }

  /** The labeled leads that fall in cell `o`. */
  ghost function Cell(labeled: map<string, string>, db: Store, o: Outcome): (c: set<string>)
    ensures c <= labeled.Keys
  {
    set leadId | leadId in labeled && Classify(Predicted(db, leadId), labeled[leadId]) == o
  }

  /** The four cells partition the labeled leads, so their sizes add up to the
      number of labels. */
  lemma CellsPartition(labeled: map<string, string>, db: Store)
    ensures |Cell(labeled, db, TruePositive)| + |Cell(labeled, db, FalsePositive)|
            + |Cell(labeled, db, TrueNegative)| + |Cell(labeled, db, FalseNegative)| == |labeled|
  {
    var tp, fp := Cell(labeled, db, TruePositive), Cell(labeled, db, FalsePositive);
    var tn, fn := Cell(labeled, db, TrueNegative), Cell(labeled, db, FalseNegative);
    assert tp !! fp;
    assert (tp + fp) !! tn;
    assert (tp + fp + tn) !! fn;
    CellsCover(labeled, db);
  }

  /** Every labeled lead falls in one of the four cells. */
  lemma CellsCover(labeled: map<string, string>, db: Store)
    ensures labeled.Keys == Cell(labeled, db, TruePositive) + Cell(labeled, db, FalsePositive)
                            + Cell(labeled, db, TrueNegative) + Cell(labeled, db, FalseNegative)
  {
    forall k | k in labeled
      ensures k in Cell(labeled, db, Classify(Predicted(db, k), labeled[k]))
    {
    }
  }

  /** `num / den if den > 0 else 0.0`. */
  function Ratio(num: nat, den: nat): (r: real)
    ensures den == 0 ==> r == 0.0
    ensures num <= den ==> 0.0 <= r <= 1.0
    ensures 0 < den && num == den ==> r == 1.0
    ensures 0 < den ==> r * den as real == num as real
  {
    if den > 0 then num as real / den as real else 0.0
  }

  /** What `evaluate_predictions` reports: one count per cell, precision and
      recall falling back to zero on an empty denominator. */
  ghost function Evaluate(labeled: map<string, string>, db: Store): (m: Metrics)
    ensures m.tp + m.fp + m.tn + m.fn == |labeled|
    ensures 0.0 <= m.precision <= 1.0 && 0.0 <= m.recall <= 1.0
    ensures m.tp + m.fp == 0 ==> m.precision == 0.0
    ensures m.tp + m.fn == 0 ==> m.recall == 0.0
  {
    CellsPartition(labeled, db);
    var tp := |Cell(labeled, db, TruePositive)|;
    var fp := |Cell(labeled, db, FalsePositive)|;
    var tn := |Cell(labeled, db, TrueNegative)|;
    var fn := |Cell(labeled, db, FalseNegative)|;
    Metrics(Ratio(tp, tp + fp), Ratio(tp, tp + fn), tp, fp, tn, fn)
  }

  /** The report is determined by the four cell sizes. */
  lemma EvaluationFromCounts(labeled: map<string, string>, db: Store, tp: nat, fp: nat, tn: nat, fn: nat)
    requires tp == |Cell(labeled, db, TruePositive)| && fp == |Cell(labeled, db, FalsePositive)|
    requires tn == |Cell(labeled, db, TrueNegative)| && fn == |Cell(labeled, db, FalseNegative)|
    ensures Evaluate(labeled, db) == Metrics(Ratio(tp, tp + fp), Ratio(tp, tp + fn), tp, fp, tn, fn)
  {
  }

  /** Taking one more element out of the unvisited set grows the visited part of
      `s` by one exactly when the element belongs to `s`. */
  lemma VisitOne(s: set<string>, todo: set<string>, k: string)
    requires k in todo
    ensures |s - (todo - {k})| == |s - todo| + (if k in s then 1 else 0)
  {
    if k in s {
      assert s - (todo - {k}) == (s - todo) + {k};
    } else {
      assert s - (todo - {k}) == s - todo;
    }
  }

  /** The counters hold the sizes of the four cells restricted to the leads
      already visited, that is, those not in `todo`. */
  ghost predicate Tally(labeled: map<string, string>, db: Store, todo: set<string>, tp: nat, fp: nat, tn: nat, fn: nat)
  {
    && tp == |Cell(labeled, db, TruePositive) - todo|
    && fp == |Cell(labeled, db, FalsePositive) - todo|
    && tn == |Cell(labeled, db, TrueNegative) - todo|
    && fn == |Cell(labeled, db, FalseNegative) - todo|
  }

  /** Before any lead is visited, every counter is zero. */
  lemma TallyStart(labeled: map<string, string>, db: Store)
    ensures Tally(labeled, db, labeled.Keys, 0, 0, 0, 0)
  {
    assert Cell(labeled, db, TruePositive) - labeled.Keys == {};
    assert Cell(labeled, db, FalsePositive) - labeled.Keys == {};
    assert Cell(labeled, db, TrueNegative) - labeled.Keys == {};
    assert Cell(labeled, db, FalseNegative) - labeled.Keys == {};
  }

  /** Visiting one more labeled lead bumps exactly one counter, the one its
      predicted status and its label select. */
  lemma TallyVisit(labeled: map<string, string>, db: Store, todo: set<string>, leadId: string,
                   tp: nat, fp: nat, tn: nat, fn: nat)
    requires leadId in todo && leadId in labeled
    requires Tally(labeled, db, todo, tp, fp, tn, fn)
    ensures var p, t := Predicted(db, leadId) == Str("qualified"), labeled[leadId] == "qualified";
            Tally(labeled, db, todo - {leadId},
                  tp + (if p && t then 1 else 0), fp + (if p && !t then 1 else 0),
                  tn + (if !p && !t then 1 else 0), fn + (if !p && t then 1 else 0))
  {
    VisitOne(Cell(labeled, db, TruePositive), todo, leadId);
    VisitOne(Cell(labeled, db, FalsePositive), todo, leadId);
    VisitOne(Cell(labeled, db, TrueNegative), todo, leadId);
    VisitOne(Cell(labeled, db, FalseNegative), todo, leadId);
  }

  /** Once every lead is visited, the counters are the report's counts. */
  lemma TallyDone(labeled: map<string, string>, db: Store, tp: nat, fp: nat, tn: nat, fn: nat)
    requires Tally(labeled, db, {}, tp, fp, tn, fn)
    ensures Evaluate(labeled, db) == Metrics(Ratio(tp, tp + fp), Ratio(tp, tp + fn), tp, fp, tn, fn)
  {
    EvaluationFromCounts(labeled, db, tp, fp, tn, fn);
  }

  /** `evaluate_predictions(crm, labeled)`: visits every labeled lead once and bumps
      the counter of its cell; reads the CRM and changes nothing. */
  method EvaluatePredictions(crm: CRMTool, labeled: map<string, string>) returns (m: Metrics)
    ensures m == Evaluate(labeled, crm.db)
    ensures m.tp + m.fp + m.tn + m.fn == |labeled|
  {
    ghost var db := crm.db;
    var tp, fp, tn, fn := 0, 0, 0, 0;
    var todo := labeled.Keys;
    TallyStart(labeled, db);
    while todo != {}
      invariant todo <= labeled.Keys
      invariant Tally(labeled, db, todo, tp, fp, tn, fn)
      decreases todo
    {
      var leadId :| leadId in todo;
      var truth := labeled[leadId];
      var rec := crm.Get(leadId);
      var predicted := if "status" in rec then rec["status"] else Str("nurture");
      TallyVisit(labeled, db, todo, leadId, tp, fp, tn, fn);
      assert predicted == Predicted(db, leadId);
      var predictedQualified := predicted == Str("qualified");
      var labeledQualified := truth == "qualified";
      if predictedQualified && labeledQualified { tp := tp + 1; }
      if predictedQualified && !labeledQualified { fp := fp + 1; }
      if !predictedQualified && !labeledQualified { tn := tn + 1; }
      if !predictedQualified && labeledQualified { fn := fn + 1; }
      todo := todo - {leadId};
    }
    m := Metrics(Ratio(tp, tp + fp), Ratio(tp, tp + fn), tp, fp, tn, fn);
    TallyDone(labeled, db, tp, fp, tn, fn);
  }

  /** One lead labeled "qualified" and stored as "qualified" is a single true
      positive with perfect precision and recall. */
  lemma SingleTruePositive(db: Store)
    requires db == map["L1" := map["status" := Str("qualified")]]
    ensures Evaluate(map["L1" := "qualified"], db) == Metrics(1.0, 1.0, 1, 0, 0, 0)
  {
    var labeled := map["L1" := "qualified"];
    assert Classify(Predicted(db, "L1"), "qualified") == TruePositive;
    assert Cell(labeled, db, TruePositive) == {"L1"};
    assert Cell(labeled, db, FalsePositive) == {};
    assert Cell(labeled, db, TrueNegative) == {};
    assert Cell(labeled, db, FalseNegative) == {};
  }

  /** With no labels at all, every count is zero and so are precision and recall. */
  lemma NoLabels(db: Store)
    ensures Evaluate(map[], db) == Metrics(0.0, 0.0, 0, 0, 0, 0)
  {
  }
}
