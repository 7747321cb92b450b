/**
 The chart lifecycle controller: the one held chart instance, created on the
 first data, updated in place on later data, and destroyed when the data
 becomes `null`.

 A chart instance is a record carrying an identity and the data it is bound
 to. The controller's state also keeps a ledger of the instances that were
 created and not yet destroyed, so that "at most one chart exists" is a
 property of the state rather than of the held reference alone, and a
 generation counter from which fresh identities are drawn.
 */
module Chart {
  import opened Wrappers
  import opened Series

  /** The chart type; the only one the application creates is a bar chart. */
  datatype ChartKind = Bar

  /** A chart instance: its identity, the data it is bound to, and its type. */
  datatype Instance = Instance(id: nat, data: ChartData, kind: ChartKind)

  /** The controller's state.
      - `held`: the reference the application keeps (`null` or an instance);
      - `live`: identities of the instances created and not yet destroyed;
      - `nextId`: the identity the next created instance receives. */
  datatype ChartState = ChartState(held: Option<Instance>, live: set<nat>, nextId: nat)

  /** One call of the controller: the current chart data and whether the
      canvas is present in the document. */
  datatype Event = Event(data: Option<ChartData>, canvasPresent: bool)

  /** Before anything is loaded: no chart, none ever created. */
  const Initial: ChartState := ChartState(None, {}, 0)

  /** The controller's invariant: the live instances are exactly the held
      one, and its identity was issued by the counter. */
  ghost predicate Valid(s: ChartState)
  {
    && (s.held.None? ==> s.live == {})
    && (s.held.Some? ==> s.live == {s.held.value.id} && s.held.value.id < s.nextId)
  }

  /** The update step of the controller, run after every change of the chart data.
      - A chart is held and there is data: the same instance is rebound to the new data.
      - A chart is held and the data is `null`: it is destroyed and the reference cleared.
      - No chart is held: one is created, bound to the data, only if the canvas
        is present and there is data; otherwise nothing changes. */
  function UpdateChart(s: ChartState, data: Option<ChartData>, canvasPresent: bool): (r: ChartState)
    ensures Valid(s) ==> Valid(r)
    ensures r.held.Some? <==> data.Some? && (s.held.Some? || canvasPresent)
    ensures r.held.Some? ==> r.held.value.data == data.value && r.held.value.kind == Bar
    ensures s.held.Some? && r.held.Some? ==> r.held.value.id == s.held.value.id && r.nextId == s.nextId
    ensures s.held.None? && r.held.Some? ==> r.held.value.id == s.nextId && r.nextId == s.nextId + 1
    ensures s.held.Some? && r.held.None? ==> s.held.value.id !in r.live && r.nextId == s.nextId
    ensures s.held.None? && r.held.None? ==> r == s
  {
    match s.held
    case Some(chart) =>
      if data.Some? then
        s.(held := Some(chart.(data := data.value)))
      else
        s.(held := None, live := s.live - {chart.id})
    case None =>
      if canvasPresent && data.Some? then
        var chart := Instance(s.nextId, data.value, Bar);
        ChartState(Some(chart), s.live + {chart.id}, s.nextId + 1)
      else
        s
  }

  /** Under the invariant at most one chart instance exists at any time. */
  lemma AtMostOneInstance(s: ChartState)
    requires Valid(s)
    ensures |s.live| <= 1
    ensures s.held.Some? <==> |s.live| == 1
  {
  }

  /** With a chart held, new data keeps the same instance and only replaces
      its bound data: no chart is created and no identity is issued. */
  lemma UpdateReusesInstance(s: ChartState, data: ChartData, canvasPresent: bool)
    requires s.held.Some?
    ensures var r := UpdateChart(s, Some(data), canvasPresent);
            && r.held == Some(s.held.value.(data := data))
            && r.live == s.live
            && r.nextId == s.nextId
  {
  }

  /** The update step is idempotent: running it a second time with the same
      data and canvas leaves the state as the first run left it, so the
      chart's bound data is the same after both. */
  lemma UpdateIdempotent(s: ChartState, data: Option<ChartData>, canvasPresent: bool)
    ensures var r := UpdateChart(s, data, canvasPresent);
            UpdateChart(r, data, canvasPresent) == r
  {
  }

  /** With a chart held, `null` data destroys it: the reference is cleared and
      the instance is no longer live. */
  lemma DestroyClearsReference(s: ChartState, canvasPresent: bool)
    requires Valid(s) && s.held.Some?
    ensures var r := UpdateChart(s, None, canvasPresent);
            && r.held.None?
            && r.live == {}
            && r.nextId == s.nextId
  {
  }

  /** After a destroy, the next data on a present canvas creates a new
      instance, with an identity never used before, instead of updating. */
  lemma DestroyThenCreateIsFresh(s: ChartState, data: ChartData, c1: bool)
    requires Valid(s) && s.held.Some?
    ensures var r := UpdateChart(UpdateChart(s, None, c1), Some(data), true);
            && r.held.Some?
            && r.held.value.id == s.nextId
            && r.held.value.id != s.held.value.id
            && r.held.value.data == data
  {
  }

  /** With no chart held, the step creates one exactly when the canvas is
      present and there is data; in every other case the state is unchanged,
      including the no-op of `null` data with no chart. */
  lemma CreateOnlyWithCanvasAndData(s: ChartState, data: Option<ChartData>, canvasPresent: bool)
    requires s.held.None?
    ensures var r := UpdateChart(s, data, canvasPresent);
            if canvasPresent && data.Some? then
              && r.held == Some(Instance(s.nextId, data.value, Bar))
              && r.live == s.live + {s.nextId}
              && r.nextId == s.nextId + 1
            else
              r == s
  {
  }

  /** Runs the controller over a series of calls, first call first. */
  function Run(s: ChartState, events: seq<Event>): ChartState
    decreases |events|
  {
    if |events| == 0 then s
    else Run(UpdateChart(s, events[0].data, events[0].canvasPresent), events[1..])
  }

  /** Every run keeps the invariant, so at most one chart instance exists at
      the end of any series of calls, and the counter never goes back. */
  lemma {:induction false} RunKeepsValid(s: ChartState, events: seq<Event>)
    requires Valid(s)
    ensures Valid(Run(s, events))
    ensures |Run(s, events).live| <= 1
    ensures Run(s, events).nextId >= s.nextId
    decreases |events|
  {
    if |events| > 0 {
      RunKeepsValid(UpdateChart(s, events[0].data, events[0].canvasPresent), events[1..]);
    } else {
      AtMostOneInstance(s);
    }
  }

  /** A destroyed instance never comes back: an identity issued before a run
      and not live at its start is not live at its end. */
  lemma {:induction false} RunNeverRevives(s: ChartState, events: seq<Event>, id: nat)
    requires Valid(s)
    requires id < s.nextId && id !in s.live
    ensures id !in Run(s, events).live
    decreases |events|
  {
    if |events| > 0 {
      var s' := UpdateChart(s, events[0].data, events[0].canvasPresent);
      assert id < s'.nextId && id !in s'.live;
      RunNeverRevives(s', events[1..], id);
    }
  }

  /** After a series of calls, a held chart shows the data of the last call:
      nothing of earlier data remains bound. */
  lemma {:induction false} RunBindsLastData(s: ChartState, events: seq<Event>)
    requires |events| > 0
    ensures var r := Run(s, events);
            r.held.Some? ==> events[|events| - 1].data == Some(r.held.value.data)
    decreases |events|
  {
    var s' := UpdateChart(s, events[0].data, events[0].canvasPresent);
    if |events| > 1 {
      RunBindsLastData(s', events[1..]);
    }
  }
}
