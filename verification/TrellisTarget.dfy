/**
 * A Trellis step that names no card or document takes one from the nearest earlier Trellis step. Filling the steps
 * one at a time, in place, with this one-step lookback is compared with a scan over the whole plan.
 */
module TrellisTarget {

  /** A parameter value; undefined and null are both Null, which is all the code distinguishes with `??` and `== null`. */
  datatype Value = Null | Text(text: string) | Number(n: int)

  datatype Params = NoParams | Params(card: Value, document: Value)

  datatype Step = Step(plugin: string, params: Params)

  /** The shape of a step's result as far as its card goes: no object, an object card with an id, an integer, or else. */
  datatype Report = NoObject | CardObject(id: Value) | CardInteger(n: int) | OtherCard

  datatype StepResult = StepResult(stepNumber: nat, result: Report)

  const TRELLIS := "trellis-notes"

  predicate Blank(v: Value) {
    v == Null || v == Text("")
  }

  function ReportedCard(r: Report): Value {
    match r
    case NoObject => Null
    case CardObject(id) => id
    case CardInteger(n) => Number(n)
    case OtherCard => Null
  }

  function CardOf(s: Step): Value {
    if s.params.Params? then s.params.card else Null
  }

  function DocumentOf(s: Step): Value {
    if s.params.Params? then s.params.document else Null
  }

  // ---------------------------------------------------------------- the one-step lookback

  /** The nearest Trellis step before i, or -1. */
  function Previous(steps: seq<Step>, i: nat): (j: int)
    requires i <= |steps|
    ensures -1 <= j < i
    ensures 0 <= j ==> steps[j].plugin == TRELLIS
    ensures forall k :: j < k < i ==> steps[k].plugin != TRELLIS
  {
    if i == 0 then -1
    else if steps[i - 1].plugin == TRELLIS then i - 1
    else Previous(steps, i - 1)
  }

  /** `own` unless it is blank and there is something to take. */
  function Take(own: Value, from: Value): Value {
    if Blank(own) && !Blank(from) then from else own
  }

  function Filled(steps: seq<Step>, i: nat, reports: seq<Report>): Step
    requires i < |steps| && i <= |reports|
  {
    var step := steps[i];
    var j := Previous(steps, i);
    if step.plugin != TRELLIS then step
    else if j < 0 then step.(params := Params(CardOf(step), DocumentOf(step)))
    else
      var prev := steps[j];
      var fromCard := if CardOf(prev) != Null then CardOf(prev) else ReportedCard(reports[j]);
      step.(params := Params(Take(CardOf(step), fromCard), Take(DocumentOf(step), DocumentOf(prev))))
  }

  /** Steps 0..n-1 filled, each before it runs, with the results known by then. */
  function FillUpTo(steps: seq<Step>, n: nat, reports: seq<Report>): (filled: seq<Step>)
    requires n <= |steps| && n <= |reports| + 1
    ensures |filled| == |steps|
  {
    if n == 0 then steps else
      var before := FillUpTo(steps, n - 1, reports);
      before[n - 1 := Filled(before, n - 1, reports)]
  }

  ghost predicate ResultsSoFar(results: seq<StepResult>, reports: seq<Report>) {
    |results| == |reports| && forall k :: 0 <= k < |results| ==> results[k] == StepResult(k + 1, reports[k])
  }

  /** inheritTrellisTarget, updating the plan in place. */
  method InheritTrellisTarget(steps: array<Step>, i: nat, results: seq<StepResult>, ghost reports: seq<Report>)
    requires i < steps.Length && i <= |results| && ResultsSoFar(results, reports)
    modifies steps
    ensures steps[..] == old(steps[..])[i := Filled(old(steps[..]), i, reports)]
  {
    if steps[i].plugin != TRELLIS {
      return;
    }
    if steps[i].params.NoParams? {
      steps[i] := steps[i].(params := Params(Null, Null));
    }
    ghost var plan := old(steps[..]);
    var j := i - 1;
    while j >= 0
      invariant -1 <= j < i
      invariant forall k :: j < k < i ==> plan[k].plugin != TRELLIS
      invariant steps[..] == plan[i := plan[i].(params := Params(CardOf(plan[i]), DocumentOf(plan[i])))]
      decreases j
    {
      var prev := steps[j];
      assert prev == plan[j];
      if prev.plugin != TRELLIS {
        j := j - 1;
        continue;
      }
      assert Previous(plan, i) == j;
      var reported := FindReport(results, j + 1, reports);
      var fromCard := if CardOf(prev) != Null then CardOf(prev) else ReportedCard(reported);
      var fromDocument := DocumentOf(prev);
      var step := steps[i];
      if Blank(step.params.card) && !Blank(fromCard) {
        step := step.(params := step.params.(card := fromCard));
      }
      if Blank(step.params.document) && !Blank(fromDocument) {
        step := step.(params := step.params.(document := fromDocument));
      }
      steps[i] := step;
      return;
    }
    assert Previous(plan, i) == -1;
  }

  /** results.find(r => r.stepNumber === n): the search stops at the first match. */
  method FindReport(results: seq<StepResult>, n: nat, ghost reports: seq<Report>) returns (r: Report)
    requires ResultsSoFar(results, reports) && 1 <= n <= |results|
    ensures r == reports[n - 1]
  {
    r := NoObject;
    var k := 0;
    while k < |results|
      invariant 0 <= k < n
    {
      if results[k].stepNumber == n {
        return results[k].result;
      }
      k := k + 1;
    }
  }

  // ---------------------------------------------------------------- the whole-plan scan

  /** The last card a Trellis step among the first n names itself. */
  function LastNamedCard(steps: seq<Step>, n: nat): Value
    requires n <= |steps|
  {
    if n == 0 then Null
    else if steps[n - 1].plugin == TRELLIS && !Blank(CardOf(steps[n - 1])) then CardOf(steps[n - 1])
    else LastNamedCard(steps, n - 1)
  }

  function LastNamedDocument(steps: seq<Step>, n: nat): Value
    requires n <= |steps|
  {
    if n == 0 then Null
    else if steps[n - 1].plugin == TRELLIS && !Blank(DocumentOf(steps[n - 1])) then DocumentOf(steps[n - 1])
    else LastNamedDocument(steps, n - 1)
  }

  /**
   * The first card the result of a Trellis step among the first n reported. A step whose own card is the empty string
   * does not count: `??` lets the empty string through, so its result is never looked at.
   */
  function FirstReportedCard(steps: seq<Step>, n: nat, reports: seq<Report>): Value
    requires n <= |steps| && n <= |reports|
  {
    if n == 0 then Null else
      var first := FirstReportedCard(steps, n - 1, reports);
      if Blank(first) && steps[n - 1].plugin == TRELLIS && CardOf(steps[n - 1]) == Null
      then ReportedCard(reports[n - 1]) else first
  }

  function ScanCard(steps: seq<Step>, i: nat, reports: seq<Report>): Value
    requires i < |steps| && i <= |reports|
  {
    var named := LastNamedCard(steps, i + 1);
    if !Blank(named) then named else Take(CardOf(steps[i]), FirstReportedCard(steps, i, reports))
  }

  function ScanDocument(steps: seq<Step>, i: nat): Value
    requires i < |steps|
  {
    Take(DocumentOf(steps[i]), LastNamedDocument(steps, i + 1))
  }

  /** Steps of other plugins do not move the scan. */
  lemma {:induction false} ScanSkips(steps: seq<Step>, j: nat, n: nat, reports: seq<Report>)
    requires j <= n <= |steps| && n <= |reports|
    requires forall k :: j <= k < n ==> steps[k].plugin != TRELLIS
    ensures LastNamedCard(steps, n) == LastNamedCard(steps, j)
    ensures LastNamedDocument(steps, n) == LastNamedDocument(steps, j)
    ensures FirstReportedCard(steps, n, reports) == FirstReportedCard(steps, j, reports)
  {
    if j < n {
      ScanSkips(steps, j, n - 1, reports);
    }
  }

  ghost predicate FilledByScan(steps: seq<Step>, filled: seq<Step>, k: nat, reports: seq<Report>)
    requires k < |steps| == |filled| && k <= |reports|
  {
    && filled[k].plugin == steps[k].plugin
    && (steps[k].plugin != TRELLIS ==> filled[k] == steps[k])
    && (steps[k].plugin == TRELLIS ==>
          filled[k].params == Params(ScanCard(steps, k, reports), ScanDocument(steps, k)))
  }

  lemma OneMoreByScan(steps: seq<Step>, before: seq<Step>, n: nat, reports: seq<Report>)
    requires n < |steps| == |before| && n <= |reports|
    requires forall k :: 0 <= k < n ==> FilledByScan(steps, before, k, reports)
    requires before[n] == steps[n]
    ensures FilledByScan(steps, before[n := Filled(before, n, reports)], n, reports)
  {
    if steps[n].plugin == TRELLIS {
      var j := Previous(before, n);
      forall k | 0 <= k < n ensures before[k].plugin == steps[k].plugin {
        assert FilledByScan(steps, before, k, reports);
      }
      ScanSkips(steps, j + 1, n, reports);
      if j >= 0 {
        assert FilledByScan(steps, before, j, reports);
      }
    }
  }

  lemma {:induction false} FillAgreesWithScan(steps: seq<Step>, n: nat, reports: seq<Report>)
    requires n <= |steps| && n <= |reports| + 1
    ensures forall k :: 0 <= k < n ==> FilledByScan(steps, FillUpTo(steps, n, reports), k, reports)
    ensures forall k :: n <= k < |steps| ==> FillUpTo(steps, n, reports)[k] == steps[k]
  {
    if n > 0 {
      FillAgreesWithScan(steps, n - 1, reports);
      OneMoreByScan(steps, FillUpTo(steps, n - 1, reports), n - 1, reports);
      var before, after := FillUpTo(steps, n - 1, reports), FillUpTo(steps, n, reports);
      forall k | 0 <= k < n - 1 ensures FilledByScan(steps, after, k, reports) {
        assert FilledByScan(steps, before, k, reports) && after[k] == before[k];
      }
    }
  }

  /**
   * For every plan and every results, filling step by step gives each Trellis step the last card named so far, else
   * the first card reported so far, and leaves every other step alone.
   */
  lemma {:induction false} LookbackIsScan(steps: seq<Step>, reports: seq<Report>, i: nat)
    requires i < |steps| <= |reports| + 1
    ensures var filled := FillUpTo(steps, |steps|, reports);
      if steps[i].plugin == TRELLIS
      then filled[i].params == Params(ScanCard(steps, i, reports), ScanDocument(steps, i))
      else filled[i] == steps[i]
  {
    FillAgreesWithScan(steps, |steps|, reports);
    assert FilledByScan(steps, FillUpTo(steps, |steps|, reports), i, reports);
  }

  /** A parameter that says something. */
  predicate Says(v: Value) {
    match v
    case Null => false
    case Text(text) => text != ""
    case Number(_) => true
  }

  /** Of the Trellis steps up to i, step k is the last whose own card says something. */
  ghost predicate NamesCardLast(steps: seq<Step>, k: nat, i: nat)
    requires k <= i < |steps|
  {
    && steps[k].plugin == "trellis-notes" && steps[k].params.Params? && Says(steps[k].params.card)
    && forall n :: k < n <= i && steps[n].plugin == "trellis-notes" && steps[n].params.Params? ==> !Says(steps[n].params.card)
  }

  ghost predicate NamesDocumentLast(steps: seq<Step>, k: nat, i: nat)
    requires k <= i < |steps|
  {
    && steps[k].plugin == "trellis-notes" && steps[k].params.Params? && Says(steps[k].params.document)
    && forall n :: k < n <= i && steps[n].plugin == "trellis-notes" && steps[n].params.Params? ==> !Says(steps[n].params.document)
  }

  lemma {:induction false} LastCardIs(steps: seq<Step>, k: nat, i: nat)
    requires k <= i < |steps| && NamesCardLast(steps, k, i)
    ensures LastNamedCard(steps, i + 1) == steps[k].params.card
  {
    if k < i {
      LastCardIs(steps, k, i - 1);
    }
  }

  lemma {:induction false} LastDocumentIs(steps: seq<Step>, k: nat, i: nat)
    requires k <= i < |steps| && NamesDocumentLast(steps, k, i)
    ensures LastNamedDocument(steps, i + 1) == steps[k].params.document
  {
    if k < i {
      LastDocumentIs(steps, k, i - 1);
    }
  }

  /** A Trellis step acts on the card and on the document that the last Trellis step to name one named, itself included. */
  lemma NamedTargetIsTaken(steps: seq<Step>, reports: seq<Report>, i: nat, k: nat)
    requires k <= i < |steps| <= |reports| + 1 && steps[i].plugin == "trellis-notes"
    ensures FillUpTo(steps, |steps|, reports)[i].params.Params?
    ensures NamesCardLast(steps, k, i) ==> FillUpTo(steps, |steps|, reports)[i].params.card == steps[k].params.card
    ensures NamesDocumentLast(steps, k, i) ==> FillUpTo(steps, |steps|, reports)[i].params.document == steps[k].params.document
  {
    LookbackIsScan(steps, reports, i);
    if NamesCardLast(steps, k, i) {
      LastCardIs(steps, k, i);
    }
    if NamesDocumentLast(steps, k, i) {
      LastDocumentIs(steps, k, i);
    }
  }

  /** The card a result is about: the id of its card object, or its card if that is an integer. */
  ghost predicate ReportsCard(r: Report, card: Value) {
    Says(card) && (r == CardObject(card) || (r.CardInteger? && card == Number(r.n)))
  }

  ghost predicate ReportsNothing(r: Report) {
    r.NoObject? || r.OtherCard? || (r.CardObject? && !Says(r.id))
  }

  /** No Trellis step up to i says anything about its card, and step j is the first whose result does. */
  ghost predicate ReportsFirst(steps: seq<Step>, reports: seq<Report>, j: nat, i: nat, card: Value)
    requires j < i < |steps| && i <= |reports|
  {
    && (forall n :: 0 <= n <= i && steps[n].plugin == "trellis-notes" && steps[n].params.Params? ==> steps[n].params.card == Null)
    && steps[j].plugin == "trellis-notes" && ReportsCard(reports[j], card)
    && (forall n :: 0 <= n < j && steps[n].plugin == "trellis-notes" ==> ReportsNothing(reports[n]))
  }

  lemma {:induction false} NothingNamed(steps: seq<Step>, i: nat)
    requires i <= |steps|
    requires forall n :: 0 <= n < i && steps[n].plugin == "trellis-notes" && steps[n].params.Params? ==> steps[n].params.card == Null
    ensures LastNamedCard(steps, i) == Null
  {
    if i > 0 {
      NothingNamed(steps, i - 1);
    }
  }

  lemma {:induction false} NothingReported(steps: seq<Step>, reports: seq<Report>, i: nat)
    requires i <= |steps| && i <= |reports|
    requires forall n :: 0 <= n < i && steps[n].plugin == "trellis-notes" ==> ReportsNothing(reports[n])
    ensures Blank(FirstReportedCard(steps, i, reports))
  {
    if i > 0 {
      NothingReported(steps, reports, i - 1);
    }
  }

  lemma {:induction false} FirstReportIs(steps: seq<Step>, reports: seq<Report>, j: nat, i: nat, n: nat, card: Value)
    requires j < n <= i < |steps| && i <= |reports| && ReportsFirst(steps, reports, j, i, card)
    ensures FirstReportedCard(steps, n, reports) == card
  {
    if n == j + 1 {
      NothingReported(steps, reports, j);
    } else {
      FirstReportIs(steps, reports, j, i, n - 1, card);
    }
  }

  /** Where no Trellis step names a card, the first one a result was about is acted on by all the Trellis steps after it. */
  lemma ReportedTargetIsTaken(steps: seq<Step>, reports: seq<Report>, j: nat, i: nat, card: Value)
    requires j < i < |steps| <= |reports| + 1 && steps[i].plugin == "trellis-notes" && ReportsFirst(steps, reports, j, i, card)
    ensures var filled := FillUpTo(steps, |steps|, reports)[i]; filled.params.Params? && filled.params.card == card
  {
    LookbackIsScan(steps, reports, i);
    NothingNamed(steps, i + 1);
    FirstReportIs(steps, reports, j, i, i, card);
  }

  /** The first non-blank card reported by any Trellis step: what the documentation promises. */
  function FirstReportOfAny(steps: seq<Step>, n: nat, reports: seq<Report>): Value
    requires n <= |steps| && n <= |reports|
  {
    if n == 0 then Null else
      var first := FirstReportOfAny(steps, n - 1, reports);
      if Blank(first) && steps[n - 1].plugin == TRELLIS then ReportedCard(reports[n - 1]) else first
  }

  /** Before any card is named, the two notions of "first reported" agree when no Trellis step names the empty string. */
  lemma {:induction false} ReportedWithoutEmptyCards(steps: seq<Step>, n: nat, reports: seq<Report>)
    requires n <= |steps| && n <= |reports| && Blank(LastNamedCard(steps, n))
    requires forall k :: 0 <= k < n && steps[k].plugin == TRELLIS ==> CardOf(steps[k]) != Text("")
    ensures FirstReportedCard(steps, n, reports) == FirstReportOfAny(steps, n, reports)
  {
    if n > 0 {
      ReportedWithoutEmptyCards(steps, n - 1, reports);
    }
  }

  lemma {:induction false} OnlyOneReports(steps: seq<Step>, n: nat, reports: seq<Report>, k: nat)
    requires n <= |steps| && n <= |reports| && k < |reports| && k < |steps|
    requires steps[k].plugin == TRELLIS && CardOf(steps[k]) == Text("") && reports[k] == CardInteger(7)
    requires forall j :: 0 <= j < |reports| && j != k ==> reports[j] == NoObject
    ensures FirstReportedCard(steps, n, reports) == Null
    ensures FirstReportOfAny(steps, n, reports) == if k < n then Number(7) else Null
  {
    if n > 0 {
      OnlyOneReports(steps, n - 1, reports, k);
    }
  }

  /**
   * Which plans can be trusted with the promise, whatever their steps will report: among plans that name no card,
   * exactly those in which no Trellis step names the empty string.
   */
  lemma ReportedCardKeptExactly(steps: seq<Step>, n: nat)
    requires n <= |steps| && Blank(LastNamedCard(steps, n))
    ensures (forall reports: seq<Report> :: |reports| == n ==> FirstReportedCard(steps, n, reports) == FirstReportOfAny(steps, n, reports))
      <==> (forall k :: 0 <= k < n && steps[k].plugin == TRELLIS ==> CardOf(steps[k]) != Text(""))
  {
    if k :| 0 <= k < n && steps[k].plugin == TRELLIS && CardOf(steps[k]) == Text("") {
      var reports := seq(n, i => if i == k then CardInteger(7) else NoObject);
      OnlyOneReports(steps, n, reports, k);
      assert FirstReportedCard(steps, n, reports) != FirstReportOfAny(steps, n, reports);
    } else {
      forall reports: seq<Report> | |reports| == n
        ensures FirstReportedCard(steps, n, reports) == FirstReportOfAny(steps, n, reports)
      {
        ReportedWithoutEmptyCards(steps, n, reports);
      }
    }
  }

  /** With an empty-string card the reported card is lost: the second step stays without one. */
  lemma EmptyCardHidesReport()
    ensures var steps := [Step(TRELLIS, Params(Text(""), Null)), Step(TRELLIS, NoParams)];
      var reports := [CardInteger(7)];
      FirstReportOfAny(steps, 1, reports) == Number(7) && CardOf(FillUpTo(steps, 2, reports)[1]) == Null
  {
    var steps := [Step(TRELLIS, Params(Text(""), Null)), Step(TRELLIS, NoParams)];
    var reports := [CardInteger(7)];
    LookbackIsScan(steps, reports, 1);
    assert FirstReportOfAny(steps, 0, reports) == Null;
    assert FirstReportedCard(steps, 1, reports) == Null;
    assert LastNamedCard(steps, 0) == Null && LastNamedCard(steps, 1) == Null && LastNamedCard(steps, 2) == Null;
  }
}
