/**
 * The analysis page: a health score from the number of healthy metrics, a
 * three-colour band for it, and the results panel that stays hidden until
 * the form is first submitted.
 */
module AnalysisPage {
  import opened Figures
  import opened FinancialHealth

  /** The positions of `names` whose metric is healthy. */
  function HealthyPositions(r: Report, names: seq<MetricName>): set<int> {
    set i | 0 <= i < |names| && MetricOf(r, names[i]).isHealthy
  }

  /** One more name adds its own position when its metric is healthy. */
  lemma HealthyPositionsSnoc(r: Report, names: seq<MetricName>)
    requires names != []
    ensures var n := |names| - 1;
      HealthyPositions(r, names)
      == HealthyPositions(r, names[..n]) + (if MetricOf(r, names[n]).isHealthy then {n} else {})
  {
  }

  /** How many of the named metrics are healthy: the number of healthy positions. */
  function CountHealthy(r: Report, names: seq<MetricName>): (c: nat)
    ensures c == |HealthyPositions(r, names)|
    ensures c <= |names|
  {
    if names == [] then 0
    else
      var n := |names| - 1;
      HealthyPositionsSnoc(r, names);
      assert n !in HealthyPositions(r, names[..n]);
      CountHealthy(r, names[..n]) + (if MetricOf(r, names[n]).isHealthy then 1 else 0)
  }

  /** The number of healthy metrics in the report. */
  function HealthyCount(r: Report): (c: nat)
    ensures c <= 7
  {
    CountHealthy(r, MetricNames)
  }

  /** The score as a percentage of seven metrics. */
  function Score(healthy: nat): (p: real)
    ensures p * 7.0 == healthy as real * 100.0
  {
    healthy as real / 7.0 * 100.0
  }

  function HealthPercentage(r: Report): (p: real)
    ensures 0.0 <= p <= 100.0
  {
    Score(HealthyCount(r))
  }

  datatype Band = Green | Yellow | Red

  function BandOf(percentage: real): (b: Band)
    ensures b == Green <==> percentage > 70.0
    ensures b == Red <==> percentage <= 40.0
  {
    if percentage > 70.0 then Green
    else if percentage > 40.0 then Yellow
    else Red
  }

  /** Every metric in the report is healthy. */
  predicate AllHealthy(r: Report) {
    forall i :: 0 <= i < |MetricNames| ==> MetricOf(r, MetricNames[i]).isHealthy
  }

  /** No metric in the report is healthy. */
  predicate NoneHealthy(r: Report) {
    forall i :: 0 <= i < |MetricNames| ==> !MetricOf(r, MetricNames[i]).isHealthy
  }

  lemma {:induction false} CountFull(r: Report, names: seq<MetricName>)
    ensures CountHealthy(r, names) == |names| <==>
      forall i :: 0 <= i < |names| ==> MetricOf(r, names[i]).isHealthy
  {
    if names != [] {
      var init := names[..|names| - 1];
      CountFull(r, init);
      assert forall i :: 0 <= i < |init| ==> init[i] == names[i];
    }
  }

  lemma {:induction false} CountEmpty(r: Report, names: seq<MetricName>)
    ensures CountHealthy(r, names) == 0 <==>
      forall i :: 0 <= i < |names| ==> !MetricOf(r, names[i]).isHealthy
  {
    if names != [] {
      var init := names[..|names| - 1];
      CountEmpty(r, init);
      assert forall i :: 0 <= i < |init| ==> init[i] == names[i];
    }
  }

  /** The score is a percentage: never below 0, never above 100. */
  lemma ScoreInRange(r: Report)
    ensures 0.0 <= HealthPercentage(r) <= 100.0
  {
  }

  /** The score is 100 exactly when every metric is healthy, and 0 exactly when none is. */
  lemma ScoreExtremes(r: Report)
    ensures HealthPercentage(r) == 100.0 <==> AllHealthy(r)
    ensures HealthPercentage(r) == 0.0 <==> NoneHealthy(r)
  {
    CountFull(r, MetricNames);
    CountEmpty(r, MetricNames);
  }

  /** One more healthy metric always raises the score. */
  lemma ScoreStrictlyMonotone(a: nat, b: nat)
    requires a < b
    ensures Score(a) < Score(b)
  {
  }

  /** With seven metrics, green means at least five healthy, yellow three or four, red at most two. */
  lemma BandByCount(r: Report)
    ensures BandOf(HealthPercentage(r)) == Green <==> HealthyCount(r) >= 5
    ensures BandOf(HealthPercentage(r)) == Yellow <==> 3 <= HealthyCount(r) <= 4
    ensures BandOf(HealthPercentage(r)) == Red <==> HealthyCount(r) <= 2
  {
    var c := HealthyCount(r);
    assert Score(c) > 70.0 <==> c as real > 4.9;
    assert Score(c) > 40.0 <==> c as real > 2.8;
  }

  /** What the user does on the page: change one input, or press the submit button. */
  datatype Event = Edit(field: Field, value: real) | Submit

  /** The page's state: the nine inputs and whether the results panel is shown. */
  datatype Page = Page(figures: Figures, showResults: bool)

  const Initial: Page := Page(Zero, false)

  /**
   * Each input renders `value || ''` and is `required`, so a figure of 0
   * shows as an empty required input and the browser refuses the submit.
   */
  predicate Submittable(v: Figures) {
    forall f :: Get(v, f) != 0.0
  }

  /** A submit the browser refuses leaves the page as it was. */
  function Step(p: Page, e: Event): Page {
    match e
    case Edit(field, value) => p.(figures := Set(p.figures, field, value))
    case Submit => if Submittable(p.figures) then p.(showResults := true) else p
  }

  function Run(events: seq<Event>): Page {
    if events == [] then Initial
    else Step(Run(events[..|events| - 1]), events[|events| - 1])
  }

  /** Position i of the events is a submit the browser delivers. */
  predicate DeliveredAt(events: seq<Event>, i: int)
    requires 0 <= i < |events|
  {
    events[i] == Submit && Submittable(Run(events[..i]).figures)
  }

  /**
   * The results are visible exactly when some submit was pressed while every
   * input held a non-zero figure; edits never hide them again.
   */
  lemma {:induction false} ResultsAfterSubmit(events: seq<Event>)
    ensures Run(events).showResults <==> exists i :: 0 <= i < |events| && DeliveredAt(events, i)
  {
    if events != [] {
      var n := |events| - 1;
      var init := events[..n];
      ResultsAfterSubmit(init);
      assert events[..n] == init;
      forall i | 0 <= i < n
        ensures DeliveredAt(events, i) <==> DeliveredAt(init, i)
      {
        assert events[..i] == init[..i];
      }
      if Run(init).showResults {
        var i :| 0 <= i < n && DeliveredAt(init, i);
        assert DeliveredAt(events, i);
      } else if Run(events).showResults {
        assert DeliveredAt(events, n);
      }
    }
  }

  /** A submit leaves the inputs alone, and shows the results exactly when no input is 0. */
  lemma SubmitKeepsFigures(p: Page)
    ensures Step(p, Submit).figures == p.figures
    ensures Step(p, Submit).showResults <==> p.showResults || Submittable(p.figures)
  {
  }

  /** The initial page holds only zeros, so a submit before any edit changes nothing. */
  lemma InitialSubmitRefused()
    ensures !Submittable(Initial.figures)
    ensures Run([Submit]) == Initial
  {
    assert Get(Zero, CashEquivalents) == 0.0;
    assert [Submit][..0] == [];
  }
}
