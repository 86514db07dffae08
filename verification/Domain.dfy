/** Values that every part of the model shares. */
module Prelude {
  datatype Option<+T> = None | Some(value: T)
}

/** The drill life cycle, recovery objectives and recovery assessment
    (backend/internal/domain/model.go and recovery.go). */
module Domain {
  import opened Prelude

  datatype DrillStatus =
    | Queued | Preparing | Restoring | Validating | Finalizing
    | Succeeded | Failed | Cancelled | Inconclusive

  datatype Assessment = Verified | PartiallyVerified | AssessmentFailed | AssessmentUnknown
  datatype Confidence = High | Medium | Low
  /** `Unset` is the empty string a measurement returns when it could be taken. */
  datatype PolicyResult = Unset | PolicyPass | PolicyFail | PolicyInconclusive
  datatype ValidationStatus = ValidationPass | ValidationFail | ValidationWarning | ValidationInconclusive
  datatype ValidationOutcome = ValidationOutcome(status: ValidationStatus, required: bool)

  // ---------------------------------------------------------------- life cycle

  predicate Terminal(s: DrillStatus) {
    s.Succeeded? || s.Failed? || s.Cancelled? || s.Inconclusive?
  }

  /** The transition table. */
  function Successors(from: DrillStatus): set<DrillStatus> {
    match from
    case Queued => {Preparing, Cancelled}
    case Preparing => {Restoring, Failed, Cancelled, Inconclusive}
    case Restoring => {Validating, Failed, Cancelled, Inconclusive}
    case Validating => {Finalizing, Failed, Cancelled, Inconclusive}
    case Finalizing => {Succeeded, Failed, Cancelled, Inconclusive}
    case _ => {}
  }

  predicate CanTransition(from: DrillStatus, to: DrillStatus) {
    to in Successors(from)
  }

  /** The place of a status on the way to success. */
  function Rank(s: DrillStatus): nat {
    match s
    case Queued => 0
    case Preparing => 1
    case Restoring => 2
    case Validating => 3
    case Finalizing => 4
    case Succeeded => 5
    case _ => 6
  }

  /** The edges of the table: one stage on, or out of an open drill to CANCELLED, or to FAILED
      and INCONCLUSIVE once it has left the queue. */
  lemma EdgesExactly(from: DrillStatus, to: DrillStatus)
    ensures CanTransition(from, to)
       <==> !Terminal(from)
            && (|| Rank(to) == Rank(from) + 1 <= 5
                || to == Cancelled
                || (from != Queued && (to == Failed || to == Inconclusive)))
  {}

  /** A history of statuses in which every change is an edge of the table. */
  ghost predicate LegalPath(path: seq<DrillStatus>) {
    forall i :: 0 <= i < |path| - 1 ==> CanTransition(path[i], path[i + 1])
  }

  /** The table rejects skips: the only way from QUEUED to SUCCEEDED passes through
      every intermediate status, once, in order. */
  lemma OnlyRouteToSucceeded(path: seq<DrillStatus>)
    requires |path| > 0 && path[0] == Queued && path[|path| - 1] == Succeeded
    requires LegalPath(path)
    ensures path == [Queued, Preparing, Restoring, Validating, Finalizing, Succeeded]
  {
    var order := [Queued, Preparing, Restoring, Validating, Finalizing, Succeeded];
    assert |path| > 1;
    RouteStep(path, 0, order);
    RouteStep(path, 1, order);
    RouteStep(path, 2, order);
    RouteStep(path, 3, order);
    RouteStep(path, 4, order);
    assert |path| > 6 ==> CanTransition(path[5], path[5 + 1]);
  }

  lemma RouteStep(path: seq<DrillStatus>, i: nat, order: seq<DrillStatus>)
    requires order == [Queued, Preparing, Restoring, Validating, Finalizing, Succeeded]
    requires i < 5 && i + 1 < |path| && path[|path| - 1] == Succeeded && LegalPath(path)
    requires path[i] == order[i]
    ensures path[i + 1] == order[i + 1]
    ensures i < 4 ==> i + 2 < |path|
  {
    assert CanTransition(path[i], path[i + 1]);
    if i + 2 < |path| {
      assert CanTransition(path[i + 1], path[i + 2]);
    }
  }

  // ---------------------------------------------------------- recovery objectives

  /** Times are nanoseconds; 0 is Go's zero time. */
  const SECOND := 1_000_000_000

  /** `MeasureRPO`: the age of the snapshot when the drill started. */
  function MeasureRPO(drillTime: int, snapshotTime: int): (int, PolicyResult) {
    if snapshotTime == 0 || snapshotTime > drillTime then (0, PolicyInconclusive)
    else ((drillTime - snapshotTime) / SECOND, Unset)
  }

  /** `MeasureRTO`: the time from the start of the drill to a usable system. */
  function MeasureRTO(startedAt: int, readyAt: int): (int, PolicyResult) {
    if startedAt == 0 || readyAt == 0 || readyAt < startedAt then (0, PolicyInconclusive)
    else ((readyAt - startedAt) / SECOND, Unset)
  }

  function EvaluatePolicy(measured: int, measurement: PolicyResult, target: int): PolicyResult {
    if measurement == PolicyInconclusive || measured < 0 || target <= 0 then PolicyInconclusive
    else if measured <= target then PolicyPass
    else PolicyFail
  }

  function RPOVerdict(drillTime: int, snapshotTime: int, target: int): PolicyResult {
    var (seconds, state) := MeasureRPO(drillTime, snapshotTime);
    EvaluatePolicy(seconds, state, target)
  }

  function RTOVerdict(startedAt: int, readyAt: int, target: int): PolicyResult {
    var (seconds, state) := MeasureRTO(startedAt, readyAt);
    EvaluatePolicy(seconds, state, target)
  }

  lemma FloorAgainstTarget(duration: int, target: int)
    requires duration >= 0
    ensures duration / SECOND <= target <==> duration < (target + 1) * SECOND
    ensures duration / SECOND >= 0
  {
    var q := duration / SECOND;
    assert q * SECOND <= duration < (q + 1) * SECOND;
  }

  /** Measurement followed by policy, decided exactly: a result is inconclusive exactly
      when a time is missing, the times are reversed or no target is set; otherwise it
      passes exactly when the age is below the target plus one second. */
  lemma RPOVerdictExact(drillTime: int, snapshotTime: int, target: int)
    ensures RPOVerdict(drillTime, snapshotTime, target) == PolicyInconclusive
       <==> snapshotTime == 0 || snapshotTime > drillTime || target <= 0
    ensures RPOVerdict(drillTime, snapshotTime, target) == PolicyPass
       <==> snapshotTime != 0 && snapshotTime <= drillTime && target > 0
            && drillTime - snapshotTime < (target + 1) * SECOND
    ensures RPOVerdict(drillTime, snapshotTime, target) != Unset
  {
    if snapshotTime <= drillTime {
      FloorAgainstTarget(drillTime - snapshotTime, target);
    }
  }

  lemma RTOVerdictExact(startedAt: int, readyAt: int, target: int)
    ensures RTOVerdict(startedAt, readyAt, target) == PolicyInconclusive
       <==> startedAt == 0 || readyAt == 0 || readyAt < startedAt || target <= 0
    ensures RTOVerdict(startedAt, readyAt, target) == PolicyPass
       <==> startedAt != 0 && readyAt != 0 && startedAt <= readyAt && target > 0
            && readyAt - startedAt < (target + 1) * SECOND
    ensures RTOVerdict(startedAt, readyAt, target) != Unset
  {
    if startedAt <= readyAt {
      FloorAgainstTarget(readyAt - startedAt, target);
    }
  }

  /** A fresher snapshot, an earlier readiness or a looser target never turns a pass
      into a failure. */
  lemma ObjectivesMonotone(drillTime: int, older: int, fresher: int, early: int, late: int, tight: int, loose: int)
    requires older <= fresher && early <= late && tight <= loose
    ensures RPOVerdict(drillTime, older, tight) == PolicyPass ==> RPOVerdict(drillTime, fresher, loose) != PolicyFail
    ensures RTOVerdict(drillTime, late, tight) == PolicyPass ==> RTOVerdict(drillTime, early, loose) != PolicyFail
  {
    RPOVerdictExact(drillTime, older, tight);
    RPOVerdictExact(drillTime, fresher, loose);
    RTOVerdictExact(drillTime, late, tight);
    RTOVerdictExact(drillTime, early, loose);
  }

  // ------------------------------------------------------------------ assessment

  predicate RequiredFailure(o: ValidationOutcome) {
    o.required && o.status == ValidationFail
  }

  predicate Limitation(o: ValidationOutcome) {
    o.status == ValidationWarning || o.status == ValidationInconclusive
    || (!o.required && o.status == ValidationFail)
  }

  function ConfidenceIn(a: Assessment): Confidence {
    match a
    case Verified => High
    case PartiallyVerified => Medium
    case _ => Low
  }

  /** What an assessment means, stated over the set of outcomes alone. */
  function Assessed(restorePassed: bool, results: seq<ValidationOutcome>, integrity: bool): Assessment {
    if !restorePassed then AssessmentFailed
    else if results == [] then AssessmentUnknown
    else if exists o | o in results :: RequiredFailure(o) then AssessmentFailed
    else if !integrity || exists o | o in results :: Limitation(o) then PartiallyVerified
    else Verified
  }

  /** The loop of `Assess` computes the declarative assessment, with the matching confidence. */
  method Assess(restorePassed: bool, results: seq<ValidationOutcome>, integrity: bool)
    returns (assessment: Assessment, confidence: Confidence)
    ensures assessment == Assessed(restorePassed, results, integrity)
    ensures confidence == ConfidenceIn(assessment)
  {
    if !restorePassed { return AssessmentFailed, Low; }
    if |results| == 0 { return AssessmentUnknown, Low; }
    var requiredFailed, limited := false, false;
    for i := 0 to |results|
      invariant requiredFailed <==> exists o | o in results[..i] :: RequiredFailure(o)
      invariant limited <==> exists o | o in results[..i] :: Limitation(o)
    {
      var result := results[i];
      assert results[..i + 1] == results[..i] + [result];
      assert forall o :: o in results[..i + 1] <==> o in results[..i] || o == result;
      assert result in results[..i + 1];
      if result.required && result.status == ValidationFail {
        requiredFailed := true;
      }
      if result.status == ValidationWarning || result.status == ValidationInconclusive
         || (!result.required && result.status == ValidationFail) {
        limited := true;
      }
    }
    assert results[..|results|] == results;
    if requiredFailed { return AssessmentFailed, Low; }
    if limited || !integrity { return PartiallyVerified, Medium; }
    return Verified, High;
  }

  /** The four assessments on the outcomes themselves: one failed required check is enough for
      FAILED, and VERIFIED needs a pass everywhere, so that a warning, an inconclusive check or
      a failed optional one leaves PARTIALLY_VERIFIED. */
  lemma AssessedExactly(restorePassed: bool, results: seq<ValidationOutcome>, integrity: bool)
    ensures var a := Assessed(restorePassed, results, integrity);
      && (a == AssessmentFailed
          <==> !restorePassed || ValidationOutcome(ValidationFail, true) in results)
      && (a == AssessmentUnknown <==> restorePassed && results == [])
      && (a == Verified
          <==> restorePassed && integrity && results != []
               && forall i :: 0 <= i < |results| ==> results[i].status == ValidationPass)
      && (ConfidenceIn(a) == High <==> a == Verified) && (ConfidenceIn(a) == Medium <==> a == PartiallyVerified)
  {
    forall o | o in results
      ensures RequiredFailure(o) <==> o == ValidationOutcome(ValidationFail, true)
      ensures Limitation(o) || RequiredFailure(o) <==> o.status != ValidationPass
    {}
    forall i | 0 <= i < |results| ensures results[i] in results {}
  }

  /** Order and repetition of outcomes never matter. */
  lemma AssessedByContents(restorePassed: bool, xs: seq<ValidationOutcome>, ys: seq<ValidationOutcome>, integrity: bool)
    requires forall o :: o in xs <==> o in ys
    ensures Assessed(restorePassed, xs, integrity) == Assessed(restorePassed, ys, integrity)
  {
    if xs != [] { assert xs[0] in ys; }
    if ys != [] { assert ys[0] in xs; }
  }

  function Severity(a: Assessment): nat {
    match a
    case Verified => 0
    case PartiallyVerified => 1
    case AssessmentUnknown => 2
    case AssessmentFailed => 3
  }

  function Worse(a: Assessment, b: Assessment): Assessment {
    if Severity(a) >= Severity(b) then a else b
  }

  /** Assessing two batches of outcomes together gives the worse of their assessments. */
  lemma AssessedConcat(restorePassed: bool, xs: seq<ValidationOutcome>, ys: seq<ValidationOutcome>, integrity: bool)
    requires xs != [] && ys != []
    ensures Assessed(restorePassed, xs + ys, integrity)
         == Worse(Assessed(restorePassed, xs, integrity), Assessed(restorePassed, ys, integrity))
  {
    forall o ensures o in xs + ys <==> o in xs || o in ys {}
    assert (exists o | o in xs + ys :: RequiredFailure(o))
      <==> (exists o | o in xs :: RequiredFailure(o)) || (exists o | o in ys :: RequiredFailure(o));
    assert (exists o | o in xs + ys :: Limitation(o))
      <==> (exists o | o in xs :: Limitation(o)) || (exists o | o in ys :: Limitation(o));
  }

  // ---------------------------------------------------- the verdict inlined in `run`

  const CONNECTIVITY := "POSTGRES_CONNECTIVITY"

  /** The required checks for which `run` has no typed profile, in order. */
  function Unsupported(required: seq<string>): seq<string> {
    if required == [] then []
    else (if required[0] != CONNECTIVITY then [required[0]] else []) + Unsupported(required[1..])
  }

  lemma {:induction false} UnsupportedSnoc(required: seq<string>, check: string)
    ensures Unsupported(required + [check])
         == Unsupported(required) + (if check != CONNECTIVITY then [check] else [])
  {
    if required != [] {
      UnsupportedSnoc(required[1..], check);
      assert (required + [check])[1..] == required[1..] + [check];
    }
  }

  lemma {:induction false} AllSupported(required: seq<string>)
    ensures Unsupported(required) == [] <==> forall check :: check in required ==> check == CONNECTIVITY
  {
    if required != [] {
      AllSupported(required[1..]);
      assert |Unsupported(required)|
          == (if required[0] != CONNECTIVITY then 1 else 0) + |Unsupported(required[1..])|;
      assert required[0] in required && forall check :: check in required[1..] ==> check in required;
      assert forall check :: check in required ==> check == required[0] || check in required[1..];
    }
  }

  /** The verdict `run` records on success. */
  function Verdict(required: seq<string>): Assessment {
    if |Unsupported(required)| > 0 then PartiallyVerified else Verified
  }

  /** VERIFIED exactly when nothing but the connectivity check is required. */
  lemma VerdictExactly(required: seq<string>)
    ensures Verdict(required) == Verified
       <==> forall i :: 0 <= i < |required| ==> required[i] == "POSTGRES_CONNECTIVITY"
    ensures Verdict(required) == Verified || Verdict(required) == PartiallyVerified
  {
    AllSupported(required);
    forall i | 0 <= i < |required| ensures required[i] in required {}
  }

  method WorkerVerdict(required: seq<string>)
    returns (assessment: Assessment, confidence: Confidence, limitations: seq<string>)
    ensures limitations == Unsupported(required)
    ensures assessment == Verdict(required) && confidence == ConfidenceIn(assessment)
  {
    limitations := [];
    for i := 0 to |required|
      invariant limitations == Unsupported(required[..i])
    {
      assert required[..i + 1] == required[..i] + [required[i]];
      UnsupportedSnoc(required[..i], required[i]);
      if required[i] != CONNECTIVITY {
        limitations := limitations + [required[i]];
      }
    }
    assert required[..|required|] == required;
    assessment, confidence := Verified, High;
    if |limitations| > 0 {
      assessment, confidence := PartiallyVerified, Medium;
    }
  }

  /** One inconclusive required outcome for every check `run` could not perform. */
  function Skipped(required: seq<string>): seq<ValidationOutcome> {
    seq(|Unsupported(required)|, _ => ValidationOutcome(ValidationInconclusive, true))
  }

  /** The worker's inlined verdict is what `Assess` says of a passed connectivity check
      followed by one inconclusive outcome per other required check. */
  lemma VerdictIsAssessed(required: seq<string>)
    ensures Verdict(required)
         == Assessed(true, [ValidationOutcome(ValidationPass, true)] + Skipped(required), true)
  {
    var outcomes := [ValidationOutcome(ValidationPass, true)] + Skipped(required);
    forall o | o in outcomes
      ensures !RequiredFailure(o)
      ensures Limitation(o) ==> |Unsupported(required)| > 0
    {}
    if |Unsupported(required)| > 0 {
      assert outcomes[1] in outcomes && Limitation(outcomes[1]);
    }
  }
}
