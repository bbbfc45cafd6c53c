/**
 * The page the script drives (script.js, lines 18-124): the result lists and
 * their renderers, the submit button, the status line, and the submit and
 * health-check flows around the two requests to `/analyze`.
 *
 * `UiState` is the page as a record, and the functions over it say what each
 * flow does to it; the class `Page` holds the same state in fields, and each
 * of its methods is proved to change them as the matching function says.
 */
module View {
  import opened Wrappers
  import opened Payload
  import opened Label

  const IdleLabel := "Generate Analysis"
  const BusyLabel := "Analyzing..."
  const NoFlagsText := "No critical flags detected"
  const NoActionsText := "No actions at this time"
  const OnlineText := "Backend: online"
  const OfflineText := "Backend: offline"
  const AnalyzingText := "Backend: analyzing..."
  const ErrorPrefix := "Backend error: "
  /** The message of the error thrown for a response whose status is not ok. */
  const AnalyzeFailure := "Failed to analyze record"

  /**
   * The parsed body of a successful `/analyze` response. Each scalar is the text
   * the page shows for it; `None` is a member the body does not have.
   * `metricsReviewed` is the list `Object.entries` gives, in its order.
   */
  datatype Analysis = Analysis(
    riskScore: string,
    riskLevel: string,
    patientSummary: string,
    flags: Option<seq<string>>,
    recommendations: Option<seq<string>>,
    metricsReviewed: Option<seq<(string, string)>>,
    timestamp: string)

  /**
   * How a request ends: a response whose status is ok, with its body; a response
   * with any other status; or a thrown error (the network failed, or the body
   * could not be read) with its message.
   */
  datatype Reply<T> = Ok(body: T) | NotOk | NetworkError(message: string)

  /** The message the submit flow shows for a failed request. */
  function FailureMessage<T>(reply: Reply<T>): string
    requires !reply.Ok?
  {
    if reply.NotOk? then AnalyzeFailure else reply.message
  }

  /** What `formatList` leaves in a list: the items, or the fallback alone when there are none. */
  function ListContents(items: Option<seq<string>>, emptyFallback: string): seq<string> {
    if items.None? || items.value == [] then [emptyFallback] else items.value
  }

  /** The text of one metric item: `${label}: ${value}`. */
  function MetricLine(key: string, value: string): string {
    Humanise(key) + ": " + value
  }

  /** What `renderMetrics` leaves in the metrics list: one line per entry, in entry order. */
  function MetricLines(entries: seq<(string, string)>): (r: seq<string>)
    ensures |r| == |entries|
    ensures forall i :: 0 <= i < |r| ==> r[i] == MetricLine(entries[i].0, entries[i].1)
  {
    if entries == [] then []
    else
      var rest := MetricLines(entries[1..]);
      assert forall i :: 1 <= i < |entries| ==> entries[1..][i - 1] == entries[i];
      [MetricLine(entries[0].0, entries[0].1)] + rest
  }

  /** The worked example: `{bloodPressureRisk: "elevated"}` renders as `Blood Pressure Risk: elevated`. */
  lemma MetricLinesExample(key: string)
    requires key == "bloodPressureRisk"
    ensures MetricLines([(key, "elevated")]) == ["Blood Pressure Risk: elevated"]
  {
    var lines := MetricLines([(key, "elevated")]);
    assert lines == [Humanise(key) + ": " + "elevated"];
    HumaniseExample(key);
    var shown := Humanise(key);
    assert shown == "Blood Pressure Risk";
    assert shown + ": " + "elevated" == "Blood Pressure Risk: elevated";
  }

  /** The page as a record: everything the script writes. */
  datatype UiState = UiState(
    submitDisabled: bool,
    submitLabel: string,
    statusText: string,
    statusError: bool,
    placeholderHidden: bool,
    resultsHidden: bool,
    riskValue: string,
    riskLevel: string,
    patientSummary: string,
    flags: seq<string>,
    recommendations: seq<string>,
    metrics: seq<string>,
    timestamp: string,
    requestsSent: nat,
    alertsRaised: nat)

  /** The submit button can be pressed and says so. */
  predicate Idle(s: UiState) {
    !s.submitDisabled && s.submitLabel == IdleLabel
  }

  /** The results panel is as it was: visibility, texts and lists. */
  predicate SameResults(s: UiState, t: UiState) {
    && t.placeholderHidden == s.placeholderHidden && t.resultsHidden == s.resultsHidden
    && t.riskValue == s.riskValue && t.riskLevel == s.riskLevel
    && t.patientSummary == s.patientSummary && t.timestamp == s.timestamp
    && t.flags == s.flags && t.recommendations == s.recommendations && t.metrics == s.metrics
  }

  /** `toggleLoading(isLoading)`. */
  function Loading(s: UiState, isLoading: bool): (t: UiState)
    ensures t.submitDisabled == isLoading
    ensures t.submitLabel == if isLoading then BusyLabel else IdleLabel
    ensures !isLoading ==> Idle(t)
    ensures t.(submitDisabled := s.submitDisabled, submitLabel := s.submitLabel) == s
  {
    s.(submitDisabled := isLoading, submitLabel := if isLoading then BusyLabel else IdleLabel)
  }

  /** The submit flow up to the request: button busy, error class off, status "analyzing", request sent. */
  function Begun(s: UiState): (t: UiState)
    ensures t.submitDisabled && t.submitLabel == BusyLabel
    ensures !t.statusError && t.statusText == AnalyzingText
    ensures t.requestsSent == s.requestsSent + 1 && t.alertsRaised == s.alertsRaised
    ensures SameResults(s, t)
  {
    Loading(s, true).(statusError := false, statusText := AnalyzingText, requestsSent := s.requestsSent + 1)
  }

  /**
   * The `try` block after an ok response, in its order: the panel shown with
   * the summary, the three lists, the timestamp, the status line.
   */
  function Rendered(s: UiState, a: Analysis, formatTime: string -> string): UiState {
    Listed(Summarised(s, a), a).(timestamp := formatTime(a.timestamp), statusText := OnlineText)
  }

  /** The panel shown and the summary texts written. */
  function Summarised(s: UiState, a: Analysis): UiState {
    s.(placeholderHidden := true, resultsHidden := false,
       riskValue := a.riskScore, riskLevel := RiskText(a.riskLevel),
       patientSummary := a.patientSummary)
  }

  /** The three lists written. */
  function Listed(s: UiState, a: Analysis): UiState {
    s.(flags := ListContents(a.flags, NoFlagsText),
       recommendations := ListContents(a.recommendations, NoActionsText),
       metrics := MetricLines(a.metricsReviewed.GetOr([])))
  }

  /**
   * The results panel shows the analysis `a`: the panel is visible, and every
   * slot the `try` block writes holds the value it takes from `a`.
   */
  predicate ShowsAnalysis(t: UiState, a: Analysis, formatTime: string -> string) {
    && t.placeholderHidden && !t.resultsHidden
    && t.riskValue == a.riskScore && t.riskLevel == RiskText(a.riskLevel)
    && t.patientSummary == a.patientSummary
    && t.flags == ListContents(a.flags, NoFlagsText)
    && t.recommendations == ListContents(a.recommendations, NoActionsText)
    && t.metrics == MetricLines(a.metricsReviewed.GetOr([]))
    && t.timestamp == formatTime(a.timestamp)
  }

  /** The risk level line: `${riskLevel} risk`. */
  function RiskText(level: string): string {
    level + " risk"
  }

  /** The `catch` block: error class on, the message in the status line, one alert. */
  function Failed(s: UiState, message: string): UiState {
    s.(statusError := true, statusText := ErrorPrefix + message, alertsRaised := s.alertsRaised + 1)
  }

  /**
   * The submit flow after the request, `finally` included: whatever the reply,
   * the button ends idle; only an ok reply touches the results.
   */
  function Finished(s: UiState, reply: Reply<Analysis>, formatTime: string -> string): (t: UiState)
    ensures Idle(t)
    ensures t.requestsSent == s.requestsSent
    ensures !reply.Ok? ==> SameResults(s, t)
    ensures !reply.Ok? ==> t.statusError && t.statusText == ErrorPrefix + FailureMessage(reply)
    ensures !reply.Ok? ==> t.alertsRaised == s.alertsRaised + 1
    ensures reply.Ok? ==> ShowsAnalysis(t, reply.body, formatTime)
    ensures reply.Ok? ==> t.statusText == OnlineText && t.statusError == s.statusError
    ensures reply.Ok? ==> t.alertsRaised == s.alertsRaised
  {
    var after := if reply.Ok? then Rendered(s, reply.body, formatTime) else Failed(s, FailureMessage(reply));
    Loading(after, false)
  }

  /**
   * One whole submission, `handleAnalysis`. A form without a patient name
   * throws before anything changes; otherwise exactly one request is sent,
   * the button ends idle, an ok reply shows the results with the status
   * online, no error class and no alert, and a failed one leaves the results as they
   * were and shows the error.
   */
  function Submitted(s: UiState, form: Form, reply: Reply<Analysis>, formatTime: string -> string): (t: UiState)
    ensures "patientName" !in form ==> t == s
    ensures "patientName" in form ==> Idle(t) && t.requestsSent == s.requestsSent + 1
    ensures "patientName" in form && reply.Ok? ==>
              && ShowsAnalysis(t, reply.body, formatTime)
              && t.statusText == OnlineText && !t.statusError
              && t.alertsRaised == s.alertsRaised
    ensures "patientName" in form && reply.NotOk? ==>
              && SameResults(s, t) && t.statusError
              && t.statusText == ErrorPrefix + AnalyzeFailure
              && t.alertsRaised == s.alertsRaised + 1
    ensures "patientName" in form && reply.NetworkError? ==>
              && SameResults(s, t) && t.statusError
              && t.statusText == ErrorPrefix + reply.message
              && t.alertsRaised == s.alertsRaised + 1
  {
    if BuildPayload(form).None? then s else Finished(Begun(s), reply, formatTime)
  }

  /**
   * `checkBackendHealth`: one request, then "online" without the error class
   * for an ok reply and "offline" with it otherwise; nothing else changes.
   */
  function HealthChecked(s: UiState, reply: Reply<()>): (t: UiState)
    ensures t.requestsSent == s.requestsSent + 1
    ensures reply.Ok? <==> !t.statusError
    ensures t.statusText == if reply.Ok? then OnlineText else OfflineText
    ensures t.(statusText := s.statusText, statusError := s.statusError, requestsSent := s.requestsSent) == s
  {
    s.(requestsSent := s.requestsSent + 1, statusError := !reply.Ok?,
       statusText := if reply.Ok? then OnlineText else OfflineText)
  }

  /** What the page reacts to once loaded: a submitted form with the reply its request gets, or a health check. */
  datatype Event = Submit(form: Form, reply: Reply<Analysis>) | HealthCheck(health: Reply<()>)

  /** One event handled. */
  function Step(s: UiState, e: Event, formatTime: string -> string): UiState {
    match e
    case Submit(form, reply) => Submitted(s, form, reply, formatTime)
    case HealthCheck(health) => HealthChecked(s, health)
  }

  /** The events handled one after another, each to completion. */
  function Run(s: UiState, events: seq<Event>, formatTime: string -> string): UiState
    decreases |events|
  {
    if events == [] then s else Run(Step(s, events[0], formatTime), events[1..], formatTime)
  }

  /** An event that writes the results panel: a sent submission whose reply is ok. */
  predicate ShowsResults(e: Event) {
    e.Submit? && "patientName" in e.form && e.reply.Ok?
  }

  /** The button is idle between events, whatever their outcomes. */
  lemma {:induction false} RunKeepsIdle(s: UiState, events: seq<Event>, formatTime: string -> string)
    requires Idle(s)
    ensures Idle(Run(s, events, formatTime))
    decreases |events|
  {
    if events != [] {
      RunKeepsIdle(Step(s, events[0], formatTime), events[1..], formatTime);
    }
  }

  /** Without a successful submission, the results panel stays as it was, however many failures there are. */
  lemma {:induction false} RunWithoutSuccessKeepsResults(s: UiState, events: seq<Event>, formatTime: string -> string)
    requires forall i :: 0 <= i < |events| ==> !ShowsResults(events[i])
    ensures SameResults(s, Run(s, events, formatTime))
    decreases |events|
  {
    if events != [] {
      var next := Step(s, events[0], formatTime);
      assert SameResults(s, next) by {
        assert !ShowsResults(events[0]);
      }
      assert forall i :: 0 <= i < |events[1..]| ==> !ShowsResults(events[1..][i]) by {
        assert forall i :: 0 <= i < |events[1..]| ==> events[1..][i] == events[i + 1];
      }
      RunWithoutSuccessKeepsResults(next, events[1..], formatTime);
    }
  }

  /** An event that sends a request: a health check, or a submission whose form has a patient name. */
  predicate SendsRequest(e: Event) {
    e.HealthCheck? || "patientName" in e.form
  }

  /** How many of the events send a request. */
  function RequestsOf(events: seq<Event>): (n: nat)
    ensures n <= |events|
  {
    if events == [] then 0 else (if SendsRequest(events[0]) then 1 else 0) + RequestsOf(events[1..])
  }

  /**
   * The requests sent are counted exactly: one per health check and one per
   * submission with a patient name, none for a submission without one.
   */
  lemma {:induction false} RunCountsRequests(s: UiState, events: seq<Event>, formatTime: string -> string)
    ensures Run(s, events, formatTime).requestsSent == s.requestsSent + RequestsOf(events)
    decreases |events|
  {
    if events != [] {
      var next := Step(s, events[0], formatTime);
      assert next.requestsSent == s.requestsSent + (if SendsRequest(events[0]) then 1 else 0);
      RunCountsRequests(next, events[1..], formatTime);
    }
  }

  /** A `<ul>` element; `items` holds the text of its `<li>` children, in order. */
  class ListElement {
    var items: seq<string>

    constructor (items: seq<string>)
      ensures this.items == items
    {
      this.items := items;
    }

    /** `innerHTML = ""`. */
    method Clear()
      modifies this
      ensures items == []
    {
      items := [];
    }

    /** `appendChild` of a new `<li>` whose `textContent` is `text`. */
    method Append(text: string)
      modifies this
      ensures items == old(items) + [text]
    {
      items := items + [text];
    }
  }

  /**
   * `formatList`: the container's old children are always discarded; it then
   * holds the items in order, or the fallback alone when there are none. Its
   * new content depends on the arguments only, so a second call with the same
   * arguments changes nothing.
   */
  method FormatList(container: ListElement, items: Option<seq<string>>, emptyFallback: string)
    modifies container
    ensures items.None? || items.value == [] ==> container.items == [emptyFallback]
    ensures items.Some? && items.value != [] ==> container.items == items.value
    ensures container.items == ListContents(items, emptyFallback)
  {
    container.Clear();
    if items.None? || |items.value| == 0 {
      container.Append(emptyFallback);
      return;
    }
    var xs := items.value;
    for i := 0 to |xs|
      invariant container.items == xs[..i]
    {
      container.Append(xs[i]);
      assert xs[..i + 1] == xs[..i] + [xs[i]];
    }
    assert xs[..|xs|] == xs;
  }

  /** The page: the fields of the elements the script writes. */
  class Page {
    var submitDisabled: bool
    var submitLabel: string
    var statusText: string
    var statusError: bool
    var placeholderHidden: bool
    var resultsHidden: bool
    var riskValue: string
    var riskLevel: string
    var patientSummary: string
    var timestamp: string
    const flagsList: ListElement
    const recommendationsList: ListElement
    const metricsList: ListElement
    /** Requests sent to `/analyze` so far. */
    var requestsSent: nat
    /** `alert` calls so far. */
    var alertsRaised: nat

    /** The three lists are different elements. */
    predicate Valid() {
      flagsList != recommendationsList && flagsList != metricsList && recommendationsList != metricsList
    }

    function State(): UiState
      reads this, flagsList, recommendationsList, metricsList
    {
      UiState(submitDisabled, submitLabel, statusText, statusError, placeholderHidden, resultsHidden,
              riskValue, riskLevel, patientSummary,
              flagsList.items, recommendationsList.items, metricsList.items,
              timestamp, requestsSent, alertsRaised)
    }

    /** The page as its markup defines it, before the script runs. */
    constructor (init: UiState)
      ensures Valid() && State() == init
      ensures fresh(flagsList) && fresh(recommendationsList) && fresh(metricsList)
    {
      submitDisabled, submitLabel := init.submitDisabled, init.submitLabel;
      statusText, statusError := init.statusText, init.statusError;
      placeholderHidden, resultsHidden := init.placeholderHidden, init.resultsHidden;
      riskValue, riskLevel, patientSummary := init.riskValue, init.riskLevel, init.patientSummary;
      timestamp := init.timestamp;
      requestsSent, alertsRaised := init.requestsSent, init.alertsRaised;
      flagsList := new ListElement(init.flags);
      recommendationsList := new ListElement(init.recommendations);
      metricsList := new ListElement(init.metrics);
    }

    /** `toggleLoading`. */
    method ToggleLoading(isLoading: bool)
      modifies this
      ensures State() == Loading(old(State()), isLoading)
    {
      submitDisabled := isLoading;
      submitLabel := if isLoading then BusyLabel else IdleLabel;
    }

    /**
     * `renderMetrics`: the list is cleared, then holds one item per entry in
     * entry order; absent metrics leave it empty, with no fallback item.
     */
    method RenderMetrics(metrics: Option<seq<(string, string)>>)
      modifies metricsList
      ensures metricsList.items == MetricLines(metrics.GetOr([]))
      ensures metrics.None? ==> metricsList.items == []
    {
      metricsList.Clear();
      var entries := metrics.GetOr([]);
      for i := 0 to |entries|
        invariant |metricsList.items| == i
        invariant forall j :: 0 <= j < i ==> metricsList.items[j] == MetricLine(entries[j].0, entries[j].1)
      {
        var (key, value) := entries[i];
        metricsList.Append(MetricLine(key, value));
      }
      assert metricsList.items == MetricLines(entries);
    }

    /**
     * `handleAnalysis` up to the request: the payload is built (a missing
     * patient name throws and nothing changes), then the button goes busy, the
     * status says "analyzing" without the error class, and the request is sent.
     */
    method BeginAnalysis(form: Form) returns (sent: Option<Payload>)
      modifies this
      ensures sent == BuildPayload(form)
      ensures State() == if sent.None? then old(State()) else Begun(old(State()))
    {
      sent := BuildPayload(form);
      if sent.None? {
        return;
      }
      ToggleLoading(true);
      statusError := false;
      statusText := AnalyzingText;
      requestsSent := requestsSent + 1;
    }

    /** The `try` block after an ok response: the panel shown and every result slot written. */
    method ShowAnalysis(analysis: Analysis, formatTime: string -> string)
      requires Valid()
      modifies this, flagsList, recommendationsList, metricsList
      ensures State() == Rendered(old(State()), analysis, formatTime)
    {
      ShowSummary(analysis);
      FillLists(analysis);
      timestamp := formatTime(analysis.timestamp);
      statusText := OnlineText;
    }

    /** The panel shown and the summary texts written. */
    method ShowSummary(analysis: Analysis)
      modifies this
      ensures State() == Summarised(old(State()), analysis)
    {
      placeholderHidden, resultsHidden := true, false;
      riskValue, riskLevel := analysis.riskScore, RiskText(analysis.riskLevel);
      patientSummary := analysis.patientSummary;
    }

    /** The three list renderings of the `try` block. */
    method FillLists(analysis: Analysis)
      requires Valid()
      modifies flagsList, recommendationsList, metricsList
      ensures State() == Listed(old(State()), analysis)
    {
      FormatList(flagsList, analysis.flags, NoFlagsText);
      FormatList(recommendationsList, analysis.recommendations, NoActionsText);
      RenderMetrics(analysis.metricsReviewed);
    }

    /** `handleAnalysis` from the reply on: the `try` or `catch` block, then `finally`. */
    method EndAnalysis(reply: Reply<Analysis>, formatTime: string -> string)
      requires Valid()
      modifies this, flagsList, recommendationsList, metricsList
      ensures State() == Finished(old(State()), reply, formatTime)
    {
      if reply.Ok? {
        ShowAnalysis(reply.body, formatTime);
      } else {
        statusError := true;
        statusText := ErrorPrefix + FailureMessage(reply);
        alertsRaised := alertsRaised + 1;
      }
      ToggleLoading(false);
    }

    /** `handleAnalysis`: the whole submission, with the reply the request gets. */
    method HandleAnalysis(form: Form, reply: Reply<Analysis>, formatTime: string -> string)
      returns (sent: Option<Payload>)
      requires Valid()
      modifies this, flagsList, recommendationsList, metricsList
      ensures sent == BuildPayload(form)
      ensures State() == Submitted(old(State()), form, reply, formatTime)
    {
      sent := BeginAnalysis(form);
      if sent.Some? {
        EndAnalysis(reply, formatTime);
      }
    }

    /** `checkBackendHealth`. */
    method CheckBackendHealth(reply: Reply<()>)
      modifies this
      ensures State() == HealthChecked(old(State()), reply)
    {
      requestsSent := requestsSent + 1;
      if reply.Ok? {
        statusError := false;
        statusText := OnlineText;
        return;
      }
      statusError := true;
      statusText := OfflineText;
    }
  }

  /** Loading the script: the page, then the health check, run once and never retried. */
  method Boot(init: UiState, health: Reply<()>) returns (page: Page)
    ensures fresh(page) && page.Valid()
    ensures fresh(page.flagsList) && fresh(page.recommendationsList) && fresh(page.metricsList)
    ensures page.State() == HealthChecked(init, health)
    ensures page.State().requestsSent == init.requestsSent + 1
  {
    page := new Page(init);
    page.CheckBackendHealth(health);
  }
}
