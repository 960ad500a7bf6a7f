/** The two evaluation reports: the baseline's predictions and the AI's diagnoses against
    the hidden ground truth. Both fold the same confusion matrix and amounts. */
module Metrics {
  import opened Identity
  import opened Domain
  import opened Dataset
  import opened Decision
  import opened Rates
  import opened Totals
  import opened Collections

  /** What both evaluators score: a case, its amount, and whether it was judged
      recoverable. A diagnosis may leave that open. */
  datatype Assessed = Assessed(caseId: Option<Uuid>, amount: int, verdict: Option<bool>)

  datatype Prediction = Prediction(caseId: Uuid, amountAtRiskMinor: int, predictedRecoverable: bool,
                                   evidence: seq<string>)

  datatype DiagnosisResult = DiagnosisResult(
    caseId: Option<Uuid>,
    amountMinor: int,
    status: DiagnosisStatus,
    category: Category,
    evidenceSources: seq<string>,
    recoverabilityAssessment: Option<bool>)

  function AssessedPrediction(p: Prediction): Assessed {
    Assessed(Some(p.caseId), p.amountAtRiskMinor, Some(p.predictedRecoverable))
  }

  function AssessedDiagnosis(d: DiagnosisResult): Assessed {
    Assessed(d.caseId, d.amountMinor, d.recoverabilityAssessment)
  }

  /** The ground truth by case id; of two entries for one case the later one counts. */
  function Index(truths: seq<GroundTruth>): map<Uuid, GroundTruth> {
    IndexBy(TruthCase, truths)
  }

  predicate Known(index: map<Uuid, GroundTruth>, id: Option<Uuid>) {
    id.Some? && id.value in index
  }

  predicate Judged(a: Assessed, verdict: bool) {
    a.verdict.Some? && a.verdict.value == verdict
  }

  /** Counts the cases judged `verdict` whose truth is `truth`. */
  function Cell(index: map<Uuid, GroundTruth>, verdict: bool, truth: bool): Assessed -> int {
    (a: Assessed) =>
      if Known(index, a.caseId) && Judged(a, verdict) && index[a.caseId.value].recoverable == truth then 1 else 0
  }

  function CellAmount(index: map<Uuid, GroundTruth>, verdict: bool, truth: bool): Assessed -> int {
    (a: Assessed) => if Known(index, a.caseId) && Judged(a, verdict) && index[a.caseId.value].recoverable == truth
         then a.amount else 0
  }

  function AtRisk(index: map<Uuid, GroundTruth>): Assessed -> int {
    (a: Assessed) => if Known(index, a.caseId) then a.amount else 0
  }

  function RecoverableAmount(index: map<Uuid, GroundTruth>): Assessed -> int {
    (a: Assessed) => if Known(index, a.caseId) && index[a.caseId.value].recoverable then a.amount else 0
  }

  /** The recoverable money of the cases that were left open. */
  function OpenAmount(index: map<Uuid, GroundTruth>): Assessed -> int {
    (a: Assessed) =>
      if Known(index, a.caseId) && index[a.caseId.value].recoverable && a.verdict.None? then a.amount else 0
  }

  datatype Confusion = Confusion(
    tp: int,
    fp: int,
    tn: int,
    fn: int,
    atRisk: int,
    captured: int,
    missed: int,
    falseIntervention: int,
    recoverable: int)

  function ConfusionOf(index: map<Uuid, GroundTruth>, cases: seq<Assessed>): Confusion {
    Confusion(
      Total(cases, Cell(index, true, true)),
      Total(cases, Cell(index, true, false)),
      Total(cases, Cell(index, false, false)),
      Total(cases, Cell(index, false, true)),
      Total(cases, AtRisk(index)),
      Total(cases, CellAmount(index, true, true)),
      Total(cases, CellAmount(index, false, true)),
      Total(cases, CellAmount(index, true, false)),
      Total(cases, RecoverableAmount(index)))
  }

  datatype Scores = Scores(precision: int, recall: int, f1: int, accuracy: int, captureRate: int)

  function ScoresOf(c: Confusion): Scores {
    Scores(Bps(c.tp, c.tp + c.fp), Bps(c.tp, c.tp + c.fn), F1(Bps(c.tp, c.tp + c.fp), Bps(c.tp, c.tp + c.fn)),
           Bps(c.tp + c.tn, c.tp + c.fp + c.tn + c.fn), Bps(c.captured, c.recoverable))
  }

  /** Precision is measured over the positive verdicts, recall over the recoverable cases,
      accuracy over all judged cases, capture over the recoverable money. */
  predicate ScoresTell(c: Confusion, s: Scores) {
    && RateIs(s.precision, c.tp, c.tp + c.fp)
    && RateIs(s.recall, c.tp, c.tp + c.fn)
    && RateIs(s.accuracy, c.tp + c.tn, c.tp + c.tn + c.fp + c.fn)
    && RateIs(s.captureRate, c.captured, c.recoverable)
    && MeanIs(s.f1, s.precision, s.recall)
  }

  lemma ScoresToldExactly(c: Confusion)
    ensures ScoresTell(c, ScoresOf(c))
  {
    BpsIs(c.tp, c.tp + c.fp);
    BpsIs(c.tp, c.tp + c.fn);
    BpsIs(c.tp + c.tn, c.tp + c.fp + c.tn + c.fn);
    BpsIs(c.captured, c.recoverable);
    F1Is(Bps(c.tp, c.tp + c.fp), Bps(c.tp, c.tp + c.fn));
    hide Bps, F1, RateIs, MeanIs;
  }

  /** The matrix and the amounts, case by case: from nothing, each case of known truth adds
      itself to one cell and its money to what that cell means. */
  lemma OneCaseScored(index: map<Uuid, GroundTruth>, cases: seq<Assessed>, a: Assessed)
    ensures ConfusionOf(index, []) == NO_CASES
    ensures var c, d := ConfusionOf(index, cases), ConfusionOf(index, cases + [a]);
            if a.caseId.None? || a.caseId.value !in index then d == c
            else
              var truth, x := index[a.caseId.value].recoverable, a.amount;
              var seen := c.(atRisk := c.atRisk + x, recoverable := c.recoverable + (if truth then x else 0));
              d == if a.verdict.None? then seen
                   else if a.verdict.value && truth then seen.(tp := c.tp + 1, captured := c.captured + x)
                   else if a.verdict.value then seen.(fp := c.fp + 1, falseIntervention := c.falseIntervention + x)
                   else if truth then seen.(fn := c.fn + 1, missed := c.missed + x)
                   else seen.(tn := c.tn + 1)
  {
    ConfusionAppend(index, cases, a);
  }

  function Fires(index: map<Uuid, GroundTruth>, code: string): Prediction -> int {
    (p: Prediction) => if p.caseId in index then multiset(p.evidence)[code] else 0
  }

  datatype EvaluationMetrics = EvaluationMetrics(
    evaluated: int,
    confusion: Confusion,
    scores: Scores,
    ruleCounts: map<string, int>)

  ghost predicate CountsRules(counts: map<string, int>, index: map<Uuid, GroundTruth>, predictions: seq<Prediction>) {
    forall code :: (if code in counts then counts[code] else 0) == Total(predictions, Fires(index, code))
                   && (code in counts ==> counts[code] > 0)
  }

  /** What the baseline's report has to say, whatever the inputs. */
  ghost predicate Reports(predictions: seq<Prediction>, truths: seq<GroundTruth>, m: EvaluationMetrics) {
    var c := ConfusionOf(Index(truths), Map(AssessedPrediction, predictions));
    && m.confusion == c
    && m.evaluated == c.tp + c.fp + c.tn + c.fn
    && m.scores == ScoresOf(c) && ScoresTell(c, m.scores)
    && CountsRules(m.ruleCounts, Index(truths), predictions)
  }

  const NO_CASES := Confusion(0, 0, 0, 0, 0, 0, 0, 0, 0)

  /** One case added to the matrix, as both loops do it. */
  lemma ConfusionAppend(index: map<Uuid, GroundTruth>, cases: seq<Assessed>, a: Assessed)
    ensures var c := ConfusionOf(index, cases);
            ConfusionOf(index, cases + [a]) ==
              Confusion(c.tp + Cell(index, true, true)(a), c.fp + Cell(index, true, false)(a),
                        c.tn + Cell(index, false, false)(a), c.fn + Cell(index, false, true)(a),
                        c.atRisk + AtRisk(index)(a), c.captured + CellAmount(index, true, true)(a),
                        c.missed + CellAmount(index, false, true)(a),
                        c.falseIntervention + CellAmount(index, true, false)(a),
                        c.recoverable + RecoverableAmount(index)(a))
  {
    hide Cell, CellAmount, AtRisk, RecoverableAmount, Total;
    TotalAppend(cases, a, Cell(index, true, true));
    TotalAppend(cases, a, Cell(index, true, false));
    TotalAppend(cases, a, Cell(index, false, false));
    TotalAppend(cases, a, Cell(index, false, true));
    TotalAppend(cases, a, AtRisk(index));
    TotalAppend(cases, a, CellAmount(index, true, true));
    TotalAppend(cases, a, CellAmount(index, false, true));
    TotalAppend(cases, a, CellAmount(index, true, false));
    TotalAppend(cases, a, RecoverableAmount(index));
  }

  lemma MapAppend<T, U>(f: T -> U, xs: seq<T>, i: nat)
    requires i < |xs|
    ensures Map(f, xs[..i + 1]) == Map(f, xs[..i]) + [f(xs[i])]
  {
  }

  lemma {:induction false} UnknownCasesCountNothing(predictions: seq<Prediction>)
    ensures ConfusionOf(map[], Map(AssessedPrediction, predictions)) == NO_CASES
    ensures CountsRules(map[], map[], predictions)
  {
    if predictions == [] {
      assert Map(AssessedPrediction, predictions) == [];
    } else {
      var n := |predictions| - 1;
      UnknownCasesCountNothing(predictions[..n]);
      MapAppend(AssessedPrediction, predictions, n);
      assert predictions[..n + 1] == predictions;
      ConfusionAppend(map[], Map(AssessedPrediction, predictions[..n]), AssessedPrediction(predictions[n]));
    }
  }

  /** Each piece of evidence of a prediction whose case is known counts once for its rule. */
  lemma OnePredictionFires(index: map<Uuid, GroundTruth>, before: seq<Prediction>, p: Prediction, code: string)
    ensures Total(before + [p], Fires(index, code))
         == Total(before, Fires(index, code)) + (if p.caseId in index then multiset(p.evidence)[code] else 0)
  {
    TotalAppend(before, p, Fires(index, code));
    hide Total;
  }

  /** Counts the evidence of one prediction. */
  method CountEvidence(counts: map<string, int>, evidence: seq<string>) returns (r: map<string, int>)
    requires forall code :: code in counts ==> counts[code] > 0
    ensures forall code :: (if code in r then r[code] else 0)
                        == (if code in counts then counts[code] else 0) + multiset(evidence)[code]
    ensures forall code :: code in r ==> r[code] > 0
  {
    r := counts;
    for i := 0 to |evidence|
      invariant forall code :: (if code in r then r[code] else 0)
                            == (if code in counts then counts[code] else 0) + multiset(evidence[..i])[code]
      invariant forall code :: code in r ==> r[code] > 0
    {
      assert evidence[..i + 1] == evidence[..i] + [evidence[i]];
      r := r[evidence[i] := (if evidence[i] in r then r[evidence[i]] else 0) + 1];
    }
    assert evidence[..|evidence|] == evidence;
  }

  lemma RulesCounted(counts: map<string, int>, counts': map<string, int>, index: map<Uuid, GroundTruth>,
                     before: seq<Prediction>, p: Prediction)
    requires CountsRules(counts, index, before) && p.caseId in index
    requires forall code :: (if code in counts' then counts'[code] else 0)
                         == (if code in counts then counts[code] else 0) + multiset(p.evidence)[code]
    requires forall code :: code in counts' ==> counts'[code] > 0
    ensures CountsRules(counts', index, before + [p])
  {
  }

  lemma RulesSkipped(counts: map<string, int>, index: map<Uuid, GroundTruth>, before: seq<Prediction>, p: Prediction)
    requires CountsRules(counts, index, before) && p.caseId !in index
    ensures CountsRules(counts, index, before + [p])
  {
  }

  /** The early return for empty inputs meets the same contract as the loop. */
  method CalculateEvaluationMetrics(predictions: seq<Prediction>, truths: seq<GroundTruth>)
    returns (m: EvaluationMetrics)
    ensures Reports(predictions, truths, m)
  {
    hide ConfusionOf, CountsRules, ScoresOf, ScoresTell, Index, Total;
    if |predictions| == 0 || |truths| == 0 {
      m := EvaluationMetrics(0, NO_CASES, Scores(0, 0, 0, 0, 0), map[]);
      NothingToEvaluate(predictions, truths);
      ScoresToldExactly(NO_CASES);
      return;
    }
    var index := Index(truths);
    var tp, fp, tn, fn := 0, 0, 0, 0;
    var atRisk, captured, missed, falseIntervention, recoverable := 0, 0, 0, 0, 0;
    var ruleCounts: map<string, int> := map[];
    NothingYet(index);
    for i := 0 to |predictions|
      invariant ConfusionOf(index, Map(AssessedPrediction, predictions[..i]))
             == Confusion(tp, fp, tn, fn, atRisk, captured, missed, falseIntervention, recoverable)
      invariant CountsRules(ruleCounts, index, predictions[..i])
    {
      var p := predictions[i];
      assert predictions[..i + 1] == predictions[..i] + [p];
      MapAppend(AssessedPrediction, predictions, i);
      ConfusionAppend(index, Map(AssessedPrediction, predictions[..i]), AssessedPrediction(p));
      if p.caseId !in index {
        RulesSkipped(ruleCounts, index, predictions[..i], p);
        continue;
      }
      var truth := index[p.caseId].recoverable;
      atRisk := atRisk + p.amountAtRiskMinor;
      if truth {
        recoverable := recoverable + p.amountAtRiskMinor;
      }
      PositiveCounts(ruleCounts, index, predictions[..i]);
      var counts := CountEvidence(ruleCounts, p.evidence);
      RulesCounted(ruleCounts, counts, index, predictions[..i], p);
      ruleCounts := counts;
      if p.predictedRecoverable && truth {
        tp, captured := tp + 1, captured + p.amountAtRiskMinor;
      } else if p.predictedRecoverable && !truth {
        fp, falseIntervention := fp + 1, falseIntervention + p.amountAtRiskMinor;
      } else if !p.predictedRecoverable && !truth {
        tn := tn + 1;
      } else if !p.predictedRecoverable && truth {
        fn, missed := fn + 1, missed + p.amountAtRiskMinor;
      }
    }
    assert predictions[..|predictions|] == predictions;
    var confusion := Confusion(tp, fp, tn, fn, atRisk, captured, missed, falseIntervention, recoverable);
    ScoresToldExactly(confusion);
    m := EvaluationMetrics(tp + fp + tn + fn, confusion, ScoresOf(confusion), ruleCounts);
  }

  lemma PositiveCounts(counts: map<string, int>, index: map<Uuid, GroundTruth>, before: seq<Prediction>)
    requires CountsRules(counts, index, before)
    ensures forall code :: code in counts ==> counts[code] > 0
  {
  }

  lemma NothingYet(index: map<Uuid, GroundTruth>)
    ensures ConfusionOf(index, Map(AssessedPrediction, [])) == NO_CASES
    ensures ConfusionOf(index, Map(AssessedDiagnosis, [])) == NO_CASES
    ensures CountsRules(map[], index, [])
  {
  }

  lemma NothingToEvaluate(predictions: seq<Prediction>, truths: seq<GroundTruth>)
    requires predictions == [] || truths == []
    ensures ConfusionOf(Index(truths), Map(AssessedPrediction, predictions)) == NO_CASES
    ensures CountsRules(map[], Index(truths), predictions) && ScoresOf(NO_CASES) == Scores(0, 0, 0, 0, 0)
  {
    if predictions == [] {
      NothingYet(Index(truths));
    } else {
      UnknownCasesCountNothing(predictions);
    }
  }

  // ---------------------------------------------------------------------------
  // Diagnoses
  // ---------------------------------------------------------------------------

  datatype BenchmarkReport = BenchmarkReport(
    evaluated: int,
    successful: int,
    failed: int,
    schemaValidityBps: int,
    groundingBps: int,
    confusion: Confusion,
    scores: Scores,
    categoryCounts: map<Category, int>,
    agreements: int,
    agreementBps: int)

  function Succeeded(index: map<Uuid, GroundTruth>): DiagnosisResult -> int {
    (d: DiagnosisResult) => if Known(index, d.caseId) && d.status == DiagnosisSucceeded then 1 else 0
  }

  function FailedOnes(index: map<Uuid, GroundTruth>): DiagnosisResult -> int {
    (d: DiagnosisResult) => if Known(index, d.caseId) && d.status != DiagnosisSucceeded then 1 else 0
  }

  /** Every piece of evidence names where it came from, and there is some. */
  predicate Grounded(d: DiagnosisResult) {
    d.evidenceSources != [] && forall i :: 0 <= i < |d.evidenceSources| ==> d.evidenceSources[i] != ""
  }

  function GroundedOnes(index: map<Uuid, GroundTruth>): DiagnosisResult -> int {
    (d: DiagnosisResult) => if Known(index, d.caseId) && d.status == DiagnosisSucceeded && Grounded(d) then 1 else 0
  }

  function OfCategory(index: map<Uuid, GroundTruth>, c: Category): DiagnosisResult -> int {
    (d: DiagnosisResult) => if Known(index, d.caseId) && d.category == c then 1 else 0
  }

  /** The category that fits a scenario; two scenarios have none. */
  function Fitting(s: Scenario): Option<Category> {
    match s
    case SubscriptionFailure => Some(SubscriptionBillingIssue)
    case RepeatedFailure => Some(PersistentIssuerDecline)
    case HighProbabilityRecoverable | TemporaryFailureAfterSuccess => Some(TransientSystemError)
    case NewCustomerDrop => Some(FirstTimeUserDrop)
    case LowProbabilityRecoverable => Some(BalanceOrLimitDeficit)
    case ClearlyNonRecoverable | HighValueFailure => None
  }

  /** Which scenario and category belong together. */
  lemma FittingExactly(s: Scenario, c: Category)
    ensures Fitting(s) == Some(c) <==>
              || (s == SubscriptionFailure && c == SubscriptionBillingIssue)
              || (s == RepeatedFailure && c == PersistentIssuerDecline)
              || (s in {HighProbabilityRecoverable, TemporaryFailureAfterSuccess} && c == TransientSystemError)
              || (s == NewCustomerDrop && c == FirstTimeUserDrop)
              || (s == LowProbabilityRecoverable && c == BalanceOrLimitDeficit)
  {
  }

  function Agreeing(index: map<Uuid, GroundTruth>): DiagnosisResult -> int {
    (d: DiagnosisResult) =>
      if Known(index, d.caseId) && Fitting(index[d.caseId.value].scenario) == Some(d.category) then 1 else 0
  }

  ghost predicate CountsCategories(counts: map<Category, int>, index: map<Uuid, GroundTruth>,
                                   diagnoses: seq<DiagnosisResult>) {
    forall c :: (if c in counts then counts[c] else 0) == Total(diagnoses, OfCategory(index, c))
                && (c in counts ==> counts[c] > 0)
  }

  ghost predicate ReportsDiagnoses(diagnoses: seq<DiagnosisResult>, truths: seq<GroundTruth>, r: BenchmarkReport) {
    var index := Index(truths);
    && r.evaluated == |diagnoses|
    && r.successful == Total(diagnoses, Succeeded(index))
    && r.failed == Total(diagnoses, FailedOnes(index))
    && r.schemaValidityBps == Bps(r.successful, |diagnoses|)
    && r.groundingBps == Bps(Total(diagnoses, GroundedOnes(index)), r.successful)
    && r.confusion == ConfusionOf(index, Map(AssessedDiagnosis, diagnoses))
    && r.scores == ScoresOf(r.confusion) && ScoresTell(r.confusion, r.scores)
    && CountsCategories(r.categoryCounts, index, diagnoses)
    && r.agreements == Total(diagnoses, Agreeing(index))
    && r.agreementBps == Bps(r.agreements, |diagnoses|)
  }

  lemma DiagnosisAppend(index: map<Uuid, GroundTruth>, before: seq<DiagnosisResult>, d: DiagnosisResult)
    ensures Total(before + [d], Succeeded(index)) == Total(before, Succeeded(index)) + Succeeded(index)(d)
    ensures Total(before + [d], FailedOnes(index)) == Total(before, FailedOnes(index)) + FailedOnes(index)(d)
    ensures Total(before + [d], GroundedOnes(index)) == Total(before, GroundedOnes(index)) + GroundedOnes(index)(d)
    ensures Total(before + [d], Agreeing(index)) == Total(before, Agreeing(index)) + Agreeing(index)(d)
  {
  }

  /** What one diagnosis adds to the counts of the report. */
  lemma OneDiagnosisCounted(index: map<Uuid, GroundTruth>, before: seq<DiagnosisResult>, d: DiagnosisResult,
                            c: Category)
    ensures var known := d.caseId.Some? && d.caseId.value in index;
            var success := known && d.status == DiagnosisSucceeded;
            && Total(before + [d], Succeeded(index)) == Total(before, Succeeded(index)) + (if success then 1 else 0)
            && Total(before + [d], FailedOnes(index))
               == Total(before, FailedOnes(index)) + (if known && !success then 1 else 0)
            && Total(before + [d], GroundedOnes(index))
               == Total(before, GroundedOnes(index))
                  + (if success && d.evidenceSources != [] && "" !in d.evidenceSources then 1 else 0)
            && Total(before + [d], Agreeing(index))
               == Total(before, Agreeing(index))
                  + (if known && Fitting(index[d.caseId.value].scenario) == Some(d.category) then 1 else 0)
            && Total(before + [d], OfCategory(index, c))
               == Total(before, OfCategory(index, c)) + (if known && d.category == c then 1 else 0)
  {
    DiagnosisAppend(index, before, d);
    TotalAppend(before, d, OfCategory(index, c));
    hide Total, Fitting;
  }

  lemma CategoryCounted(counts: map<Category, int>, index: map<Uuid, GroundTruth>, before: seq<DiagnosisResult>,
                        d: DiagnosisResult)
    requires CountsCategories(counts, index, before)
    ensures CountsCategories(if Known(index, d.caseId)
                             then counts[d.category := (if d.category in counts then counts[d.category] else 0) + 1]
                             else counts, index, before + [d])
  {
  }

  method IsGrounded(d: DiagnosisResult) returns (r: bool)
    ensures r == Grounded(d)
  {
    if |d.evidenceSources| == 0 {
      return false;
    }
    for i := 0 to |d.evidenceSources|
      invariant forall j :: 0 <= j < i ==> d.evidenceSources[j] != ""
    {
      if d.evidenceSources[i] == "" {
        return false;
      }
    }
    return true;
  }

  method EvaluateDiagnoses(diagnoses: seq<DiagnosisResult>, truths: seq<GroundTruth>) returns (r: BenchmarkReport)
    ensures ReportsDiagnoses(diagnoses, truths, r)
  {
    hide ConfusionOf, CountsCategories, ScoresOf, ScoresTell, Grounded, Total, Fitting;
    var index := Index(truths);
    var successful, failed, grounded, agreements := 0, 0, 0, 0;
    var tp, fp, tn, fn := 0, 0, 0, 0;
    var atRisk, captured, missed, falseIntervention, recoverable := 0, 0, 0, 0, 0;
    var categoryCounts: map<Category, int> := map[];
    NothingYet(index);
    NoDiagnosesYet(index);
    for i := 0 to |diagnoses|
      invariant ConfusionOf(index, Map(AssessedDiagnosis, diagnoses[..i]))
             == Confusion(tp, fp, tn, fn, atRisk, captured, missed, falseIntervention, recoverable)
      invariant successful == Total(diagnoses[..i], Succeeded(index))
                && failed == Total(diagnoses[..i], FailedOnes(index))
      invariant grounded == Total(diagnoses[..i], GroundedOnes(index))
      invariant agreements == Total(diagnoses[..i], Agreeing(index))
      invariant CountsCategories(categoryCounts, index, diagnoses[..i])
    {
      var d := diagnoses[i];
      assert diagnoses[..i + 1] == diagnoses[..i] + [d];
      MapAppend(AssessedDiagnosis, diagnoses, i);
      ConfusionAppend(index, Map(AssessedDiagnosis, diagnoses[..i]), AssessedDiagnosis(d));
      DiagnosisAppend(index, diagnoses[..i], d);
      CategoryCounted(categoryCounts, index, diagnoses[..i], d);
      if d.caseId.None? || d.caseId.value !in index {
        continue;
      }
      var truth := index[d.caseId.value];
      atRisk := atRisk + d.amountMinor;
      if truth.recoverable {
        recoverable := recoverable + d.amountMinor;
      }
      categoryCounts :=
          categoryCounts[d.category := (if d.category in categoryCounts then categoryCounts[d.category] else 0) + 1];
      if d.status == DiagnosisSucceeded {
        successful := successful + 1;
        var isGrounded := IsGrounded(d);
        if isGrounded {
          grounded := grounded + 1;
        }
      } else {
        failed := failed + 1;
      }
      if Fitting(truth.scenario) == Some(d.category) {
        agreements := agreements + 1;
      }
      if d.recoverabilityAssessment.Some? {
        var verdict := d.recoverabilityAssessment.value;
        if verdict && truth.recoverable {
          tp, captured := tp + 1, captured + d.amountMinor;
        } else if verdict && !truth.recoverable {
          fp, falseIntervention := fp + 1, falseIntervention + d.amountMinor;
        } else if !verdict && !truth.recoverable {
          tn := tn + 1;
        } else if !verdict && truth.recoverable {
          fn, missed := fn + 1, missed + d.amountMinor;
        }
      }
    }
    assert diagnoses[..|diagnoses|] == diagnoses;
    var confusion := Confusion(tp, fp, tn, fn, atRisk, captured, missed, falseIntervention, recoverable);
    ScoresToldExactly(confusion);
    r := BenchmarkReport(|diagnoses|, successful, failed, Bps(successful, |diagnoses|), Bps(grounded, successful),
                         confusion, ScoresOf(confusion), categoryCounts, agreements, Bps(agreements, |diagnoses|));
  }

  lemma NoDiagnosesYet(index: map<Uuid, GroundTruth>)
    ensures forall weight: DiagnosisResult -> int :: Total([], weight) == 0
    ensures CountsCategories(map[], index, [])
  {
  }

  // ---------------------------------------------------------------------------
  // Laws of the reports
  // ---------------------------------------------------------------------------

  lemma ConfusionPermutes(index: map<Uuid, GroundTruth>, xs: seq<Assessed>, ys: seq<Assessed>)
    requires multiset(xs) == multiset(ys)
    ensures ConfusionOf(index, xs) == ConfusionOf(index, ys)
  {
    hide Cell, CellAmount, AtRisk, RecoverableAmount, Total;
    TotalOfPermutation(xs, ys, Cell(index, true, true));
    TotalOfPermutation(xs, ys, Cell(index, true, false));
    TotalOfPermutation(xs, ys, Cell(index, false, false));
    TotalOfPermutation(xs, ys, Cell(index, false, true));
    TotalOfPermutation(xs, ys, AtRisk(index));
    TotalOfPermutation(xs, ys, CellAmount(index, true, true));
    TotalOfPermutation(xs, ys, CellAmount(index, false, true));
    TotalOfPermutation(xs, ys, CellAmount(index, true, false));
    TotalOfPermutation(xs, ys, RecoverableAmount(index));
  }

  /** The order of the predictions does not show in the report. */
  lemma {:induction false} MetricsIgnoreOrder(ps: seq<Prediction>, qs: seq<Prediction>, truths: seq<GroundTruth>,
                           m: EvaluationMetrics, n: EvaluationMetrics)
    requires multiset(ps) == multiset(qs)
    requires Reports(ps, truths, m) && Reports(qs, truths, n)
    ensures m == n
  {
    var index := Index(truths);
    MapPermutes(AssessedPrediction, ps, qs);
    ConfusionPermutes(index, Map(AssessedPrediction, ps), Map(AssessedPrediction, qs));
    SameRuleCounts(index, ps, qs, m.ruleCounts, n.ruleCounts);
  }

  lemma SameRuleCounts(index: map<Uuid, GroundTruth>, ps: seq<Prediction>, qs: seq<Prediction>,
                       a: map<string, int>, b: map<string, int>)
    requires multiset(ps) == multiset(qs) && CountsRules(a, index, ps) && CountsRules(b, index, qs)
    ensures a == b
  {
    forall code ensures (if code in a then a[code] else 0) == (if code in b then b[code] else 0) {
      TotalOfPermutation(ps, qs, Fires(index, code));
    }
  }

  lemma {:induction false} DiagnosesIgnoreOrder(ps: seq<DiagnosisResult>, qs: seq<DiagnosisResult>,
                                                truths: seq<GroundTruth>,
                                                m: BenchmarkReport, n: BenchmarkReport)
    requires multiset(ps) == multiset(qs)
    requires ReportsDiagnoses(ps, truths, m) && ReportsDiagnoses(qs, truths, n)
    ensures m == n
  {
    var index := Index(truths);
    MapPermutes(AssessedDiagnosis, ps, qs);
    ConfusionPermutes(index, Map(AssessedDiagnosis, ps), Map(AssessedDiagnosis, qs));
    TotalOfPermutation(ps, qs, Succeeded(index));
    TotalOfPermutation(ps, qs, FailedOnes(index));
    TotalOfPermutation(ps, qs, GroundedOnes(index));
    TotalOfPermutation(ps, qs, Agreeing(index));
    assert |ps| == |multiset(ps)| == |multiset(qs)| == |qs|;
    forall c ensures (if c in m.categoryCounts then m.categoryCounts[c] else 0)
                  == (if c in n.categoryCounts then n.categoryCounts[c] else 0) {
      TotalOfPermutation(ps, qs, OfCategory(index, c));
    }
  }

  /** The two loops, written apart, agree: diagnoses that judge the same cases like some
      predictions, in any order, get the same matrix, amounts and scores. */
  lemma {:induction false} EvaluatorsAgree(ps: seq<Prediction>, ds: seq<DiagnosisResult>, truths: seq<GroundTruth>,
                        m: EvaluationMetrics, r: BenchmarkReport)
    requires multiset(Map(AssessedPrediction, ps)) == multiset(Map(AssessedDiagnosis, ds))
    requires Reports(ps, truths, m) && ReportsDiagnoses(ds, truths, r)
    ensures m.confusion == r.confusion && m.scores == r.scores
  {
    ConfusionPermutes(Index(truths), Map(AssessedPrediction, ps), Map(AssessedDiagnosis, ds));
  }

  /** The order of the ground truth does not matter either, when no case has two entries. */
  lemma TruthOrderIsIrrelevant(a: seq<GroundTruth>, b: seq<GroundTruth>)
    requires Unique(TruthCase, a) && Unique(TruthCase, b)
    requires multiset(a) == multiset(b)
    ensures Index(a) == Index(b)
  {
    IndexWithin(a, b);
    IndexWithin(b, a);
  }

  lemma IndexWithin(a: seq<GroundTruth>, b: seq<GroundTruth>)
    requires Unique(TruthCase, b) && multiset(a) == multiset(b)
    ensures forall id :: id in Index(a) ==> id in Index(b) && Index(b)[id] == Index(a)[id]
  {
    forall id | id in Index(a) ensures id in Index(b) && Index(b)[id] == Index(a)[id] {
      assert Index(a)[id] in multiset(b);
      var k :| 0 <= k < |b| && b[k] == Index(a)[id];
      IndexFinds(TruthCase, b, k);
    }
  }

  /** Recoverable money is captured, missed, or belongs to a case left open. */
  lemma RecoverableMoneySplits(index: map<Uuid, GroundTruth>, cases: seq<Assessed>)
    ensures var c := ConfusionOf(index, cases);
            c.captured + c.missed + Total(cases, OpenAmount(index)) == c.recoverable
    ensures (forall a :: a in cases ==> a.verdict.Some?) ==>
              ConfusionOf(index, cases).captured + ConfusionOf(index, cases).missed
                  == ConfusionOf(index, cases).recoverable
    ensures (forall a :: a in cases ==> a.amount >= 0) ==>
              ConfusionOf(index, cases).captured + ConfusionOf(index, cases).missed
                  <= ConfusionOf(index, cases).recoverable
  {
  }

  lemma MatrixNotNegative(index: map<Uuid, GroundTruth>, cases: seq<Assessed>)
    ensures var c := ConfusionOf(index, cases);
            c.tp >= 0 && c.fp >= 0 && c.tn >= 0 && c.fn >= 0
    ensures (forall a :: a in cases ==> a.amount >= 0) ==>
              ConfusionOf(index, cases).captured >= 0 && ConfusionOf(index, cases).missed >= 0
  {
    TotalNotNegative(cases, Cell(index, true, true));
    TotalNotNegative(cases, Cell(index, true, false));
    TotalNotNegative(cases, Cell(index, false, false));
    TotalNotNegative(cases, Cell(index, false, true));
    if forall a :: a in cases ==> a.amount >= 0 {
      TotalNotNegative(cases, CellAmount(index, true, true));
      TotalNotNegative(cases, CellAmount(index, false, true));
    }
  }

  /** For amounts that are not negative every score is a rate between 0 and 10000, the F1
      lies between precision and recall, and it is less than three basis points below the
      exact F1 and never above it. */
  lemma ScoresAreRates(index: map<Uuid, GroundTruth>, cases: seq<Assessed>)
    requires forall a :: a in cases ==> a.amount >= 0
    ensures var c := ConfusionOf(index, cases);
            var s := ScoresOf(c);
            && 0 <= s.precision <= 10000 && 0 <= s.recall <= 10000 && 0 <= s.f1 <= 10000
            && 0 <= s.accuracy <= 10000 && 0 <= s.captureRate <= 10000
            && ScoresTell(c, s)
            && Min(s.precision, s.recall) <= s.f1 <= Max(s.precision, s.recall)
            && (2 * c.tp + c.fp + c.fn > 0 ==>
                  && s.f1 <= 20000 * c.tp / (2 * c.tp + c.fp + c.fn)
                  && 20000 * c.tp < (s.f1 + 3) * (2 * c.tp + c.fp + c.fn))
  {
    var c := ConfusionOf(index, cases);
    MatrixNotNegative(index, cases);
    RecoverableMoneySplits(index, cases);
    ScoresToldExactly(c);
    hide ConfusionOf, Bps, F1, ScoresTell;
    BpsInRange(c.tp, c.tp + c.fp);
    BpsInRange(c.tp, c.tp + c.fn);
    BpsInRange(c.tp + c.tn, c.tp + c.fp + c.tn + c.fn);
    BpsInRange(c.captured, c.recoverable);
    F1Between(ScoresOf(c).precision, ScoresOf(c).recall);
    if 2 * c.tp + c.fp + c.fn > 0 {
      F1Accuracy(c.tp, c.fp, c.fn);
    }
  }

  /** The shares of a benchmark report are rates too. */
  lemma {:induction false} DiagnosisRatesInRange(diagnoses: seq<DiagnosisResult>, truths: seq<GroundTruth>,
                                                 r: BenchmarkReport)
    requires ReportsDiagnoses(diagnoses, truths, r)
    ensures 0 <= r.successful && 0 <= r.failed && r.successful + r.failed <= r.evaluated
    ensures 0 <= r.schemaValidityBps <= 10000 && 0 <= r.groundingBps <= 10000 && 0 <= r.agreementBps <= 10000
  {
    var index := Index(truths);
    TotalNotNegative(diagnoses, Succeeded(index));
    TotalNotNegative(diagnoses, FailedOnes(index));
    TotalNotNegative(diagnoses, GroundedOnes(index));
    TotalNotNegative(diagnoses, Agreeing(index));
    var matched: DiagnosisResult -> int := d => Succeeded(index)(d) + FailedOnes(index)(d);
    TotalsAddUp(diagnoses, Succeeded(index), FailedOnes(index), matched);
    var one: DiagnosisResult -> int := d => 1;
    TotalAtMost(diagnoses, matched, one);
    TotalAtMost(diagnoses, GroundedOnes(index), Succeeded(index));
    TotalAtMost(diagnoses, Agreeing(index), one);
    TotalOfOnes(diagnoses, one);
    BpsInRange(r.successful, |diagnoses|);
    BpsInRange(Total(diagnoses, GroundedOnes(index)), r.successful);
    BpsInRange(r.agreements, |diagnoses|);
  }

  lemma {:induction false} TotalOfOnes<T>(xs: seq<T>, one: T -> int)
    requires forall x :: x in xs ==> one(x) == 1
    ensures Total(xs, one) == |xs|
  {
    if xs != [] {
      TotalOfOnes(xs[..|xs| - 1], one);
    }
  }
}
