/** The four reducers of the dashboard page that turn the raw event records
    returned by the events API into chart summaries: views per day, events by
    location, events by type and total duration per day. */
module Dashboard {
  import opened Strings
  import opened Sorting
  import opened Tallies
  import opened Charts

  datatype Option<T> = None | Some(value: T)

  /** The `timestamp` field of a record: epoch milliseconds or a date string. */
  datatype Timestamp = Millis(ms: int) | Text(text: string)

  /** A raw event record; an absent `location` or `duration` is None. */
  datatype Event = Event(timestamp: Timestamp, kind: string, location: Option<string>, duration: Option<nat>)

  /** `new Date(timestamp).toISOString()`, which the JavaScript runtime
      supplies: the ISO 8601 UTC rendering, or None for an invalid date, on
      which `toISOString` throws a RangeError. */
  type DateToIso = Timestamp -> Option<string>

  /** A reducer's result, or the RangeError that escapes it. */
  datatype Outcome<T> = Ok(value: T) | RangeError

  const PageView: string := "page_view"
  const Unknown: string := "Unknown"

  /** `new Date(timestamp).toISOString().split('T')[0]`: the UTC calendar day. */
  function DayOf(iso: DateToIso, ts: Timestamp): (r: Option<string>)
    ensures r.None? <==> iso(ts).None?
    ensures r.Some? ==> && r.value <= iso(ts).value
                        && 'T' !in r.value
                        && (|r.value| < |iso(ts).value| ==> iso(ts).value[|r.value|] == 'T')
  {
    match iso(ts)
    case None => None
    case Some(s) => Some(UpToFirst(s, 'T'))
  }

  /** `event.location || 'Unknown'`. */
  function LocationOf(e: Event): (r: string)
    ensures r != ""
    ensures r == Unknown <==> CountedAsUnknown(e)
    ensures e.location.Some? && e.location.value != "" ==> r == e.location.value
  {
    if e.location == None || e.location == Some("") then Unknown else e.location.value
  }

  /** `event.duration || 0`. */
  function DurationOf(e: Event): (r: nat)
    ensures e.duration.None? ==> r == 0
    ensures e.duration.Some? ==> r == e.duration.value
  {
    match e.duration
    case None => 0
    case Some(d) => d
  }

  /** Which of the four `events.reduce` callbacks runs. */
  datatype Reducer = Views(iso: DateToIso) | Locations | Types | Durations(iso: DateToIso)

  /** What one callback invocation does: nothing, one accumulator update, or
      throw. */
  datatype Step = Skip | Add(entry: Entry) | Throw

  function DayStep(iso: DateToIso, ts: Timestamp, amount: nat): Step
  {
    match DayOf(iso, ts)
    case None => Throw
    case Some(d) => Add(Entry(d, amount))
  }

  function StepOf(k: Reducer, e: Event): (r: Step)
    ensures r.Skip? <==> k.Views? && e.kind != PageView
    ensures r.Throw? <==> ((k.Views? && e.kind == PageView) || k.Durations?) && k.iso(e.timestamp).None?
    ensures r.Add? ==> r.entry.amount == (if k.Durations? then DurationOf(e) else 1)
    ensures r.Add? && k.Locations? ==> r.entry.key == LocationOf(e)
    ensures r.Add? && k.Types? ==> r.entry.key == e.kind
    ensures r.Add? && (k.Views? || k.Durations?) ==> DayOf(k.iso, e.timestamp) == Some(r.entry.key)
  {
    match k
    case Views(iso) => if e.kind == PageView then DayStep(iso, e.timestamp, 1) else Skip
    case Locations => Add(Entry(LocationOf(e), 1))
    case Types => Add(Entry(e.kind, 1))
    case Durations(iso) => DayStep(iso, e.timestamp, DurationOf(e))
  }

  /** The accumulator updates the callback makes over `events`, in order. */
  function Entries(k: Reducer, events: seq<Event>): seq<Entry>
  {
    if events == [] then []
    else
      var last := StepOf(k, events[|events| - 1]);
      Entries(k, events[..|events| - 1]) + (if last.Add? then [last.entry] else [])
  }

  /** The callback adds something under `d` for event `e`. */
  predicate Adds(k: Reducer, e: Event, d: string)
  {
    StepOf(k, e).Add? && StepOf(k, e).entry.key == d
  }

  /** Some callback invocation over `events` throws. */
  predicate Throws(k: Reducer, events: seq<Event>)
  {
    events != [] && (Throws(k, events[..|events| - 1]) || StepOf(k, events[|events| - 1]).Throw?)
  }

  /** What `events.reduce(callback, {})` produces. */
  ghost function Aggregate(k: Reducer, events: seq<Event>): Outcome<Tally>
  {
    if Throws(k, events) then RangeError else Ok(Build(Entries(k, events)))
  }

  ghost function ViewSummary(iso: DateToIso, events: seq<Event>): Outcome<Chart>
  {
    match Aggregate(Views(iso), events)
    case RangeError => RangeError
    case Ok(t) => Ok(SortedChart(t))
  }

  ghost function LocationSummary(events: seq<Event>): Chart
  {
    InsertionChart(Build(Entries(Locations, events)))
  }

  ghost function TypeSummary(events: seq<Event>): Chart
  {
    InsertionChart(Build(Entries(Types, events)))
  }

  ghost function DurationSummary(iso: DateToIso, events: seq<Event>): Outcome<Chart>
  {
    match Aggregate(Durations(iso), events)
    case RangeError => RangeError
    case Ok(t) => Ok(SortedChart(t))
  }

  // ---------------------------------------------------------------------
  // The reducers

  /** `events.reduce(callback, {})`: one callback invocation per event, left
      to right. The source updates the accumulator in place; here each update
      rebinds its keys and totals. */
  method Reduce(k: Reducer, events: seq<Event>) returns (r: Outcome<Tally>)
    ensures r == Aggregate(k, events)
  {
    var keys: seq<string>, totals: map<string, nat> := [], map[];
    ghost var done: seq<Entry> := [];
    var i := 0;
    while i < |events|
      invariant 0 <= i <= |events|
      invariant !Throws(k, events[..i])
      invariant done == Entries(k, events[..i])
      invariant Tally(keys, totals) == Build(done)
    {
      PrefixStep(k, events, i);
      var step := StepOf(k, events[i]);
      if step.Throw? {
        ThrowsPrefix(k, events, i + 1);
        return RangeError;
      } else if step.Add? {
        var e := step.entry;
        BuildSnoc(done, e);
        done := done + [e];
        keys, totals := AddTo(keys, totals, e);
      }
      i := i + 1;
    }
    assert events[..i] == events;
    return Ok(Tally(keys, totals));
  }

  /** The body of a callback that adds: `acc[key] = (acc[key] || 0) + amount`. */
  method AddTo(keys: seq<string>, totals: map<string, nat>, e: Entry) returns (keys': seq<string>, totals': map<string, nat>)
    requires Valid(Tally(keys, totals))
    ensures Tally(keys', totals') == Bump(Tally(keys, totals), e)
  {
    var prior := 0;
    keys' := keys;
    if e.key in totals {
      prior := totals[e.key];
    } else {
      keys' := keys + [e.key];
    }
    totals' := totals[e.key := prior + e.amount];
  }

  method ProcessViewData(iso: DateToIso, events: seq<Event>) returns (r: Outcome<Chart>)
    ensures r == ViewSummary(iso, events)
  {
    var views := Reduce(Views(iso), events);
    match views {
      case RangeError => r := RangeError;
      case Ok(t) => r := Ok(SortedChart(t));
    }
  }

  method ProcessLocationData(events: seq<Event>) returns (r: Chart)
    ensures r == LocationSummary(events)
  {
    NeverThrows(Locations, events);
    var locations := Reduce(Locations, events);
    r := InsertionChart(locations.value);
  }

  method ProcessTypeData(events: seq<Event>) returns (r: Chart)
    ensures r == TypeSummary(events)
  {
    NeverThrows(Types, events);
    var types := Reduce(Types, events);
    r := InsertionChart(types.value);
  }

  method ProcessDurationData(iso: DateToIso, events: seq<Event>) returns (r: Outcome<Chart>)
    ensures r == DurationSummary(iso, events)
  {
    var durations := Reduce(Durations(iso), events);
    match durations {
      case RangeError => r := RangeError;
      case Ok(t) => r := Ok(SortedChart(t));
    }
  }

  /** The four summaries the page shows. */
  datatype Panels = Panels(views: Chart, locations: Chart, types: Chart, durations: Chart)

  /** The body of the `try` in `fetchData`: all four reducers run on the same
      response. The whole refresh fails exactly when some event, of any
      type, has a timestamp that is not a valid date. */
  method ProcessResponse(iso: DateToIso, events: seq<Event>) returns (r: Outcome<Panels>)
    ensures r.Ok? <==> forall i :: 0 <= i < |events| ==> iso(events[i].timestamp).Some?
    ensures r.Ok? ==> && ViewSummary(iso, events) == Ok(r.value.views)
                      && r.value.locations == LocationSummary(events)
                      && r.value.types == TypeSummary(events)
                      && DurationSummary(iso, events) == Ok(r.value.durations)
  {
    ViewsFailure(iso, events);
    DurationsFailure(iso, events);
    var views := ProcessViewData(iso, events);
    if views.RangeError? {
      return RangeError;
    }
    var locations := ProcessLocationData(events);
    var types := ProcessTypeData(events);
    var durations := ProcessDurationData(iso, events);
    if durations.RangeError? {
      return RangeError;
    }
    r := Ok(Panels(views.value, locations, types, durations.value));
  }

  // ---------------------------------------------------------------------
  // Reference definitions, stated directly on the events

  /** The events with `type === 'page_view'`, in order. */
  function PageViews(events: seq<Event>): seq<Event>
  {
    if events == [] then []
    else
      var last := events[|events| - 1];
      PageViews(events[..|events| - 1]) + (if last.kind == PageView then [last] else [])
  }

  /** Some page_view event happened on day `d`. */
  ghost predicate ViewedOn(iso: DateToIso, events: seq<Event>, d: string)
  {
    exists i :: 0 <= i < |events| && events[i].kind == PageView && DayOf(iso, events[i].timestamp) == Some(d)
  }

  /** Some event, of any type, happened on day `d`. */
  ghost predicate SomeEventOn(iso: DateToIso, events: seq<Event>, d: string)
  {
    exists i :: 0 <= i < |events| && DayOf(iso, events[i].timestamp) == Some(d)
  }

  /** The number of page_view events on day `d`. */
  function ViewsOn(iso: DateToIso, events: seq<Event>, d: string): nat
  {
    if events == [] then 0
    else
      var last := events[|events| - 1];
      ViewsOn(iso, events[..|events| - 1], d)
        + (if last.kind == PageView && DayOf(iso, last.timestamp) == Some(d) then 1 else 0)
  }

  /** The total duration of the events, of any type, on day `d`. */
  function DurationOn(iso: DateToIso, events: seq<Event>, d: string): nat
  {
    if events == [] then 0
    else
      var last := events[|events| - 1];
      DurationOn(iso, events[..|events| - 1], d)
        + (if DayOf(iso, last.timestamp) == Some(d) then DurationOf(last) else 0)
  }

  /** The total duration of all events. */
  function TotalDuration(events: seq<Event>): nat
  {
    if events == [] then 0 else TotalDuration(events[..|events| - 1]) + DurationOf(events[|events| - 1])
  }

  /** The location is absent, empty, or literally "Unknown". */
  predicate CountedAsUnknown(e: Event)
  {
    e.location == None || e.location == Some("") || e.location == Some(Unknown)
  }

  /** The (defaulted) location of each event, in input order. */
  function LocationKeys(events: seq<Event>): seq<string>
  {
    seq(|events|, i requires 0 <= i < |events| => LocationOf(events[i]))
  }

  /** The type of each event, in input order. */
  function TypeKeys(events: seq<Event>): seq<string>
  {
    seq(|events|, i requires 0 <= i < |events| => events[i].kind)
  }

  // ---------------------------------------------------------------------
  // Facts about the fold

  lemma EntriesSnoc(k: Reducer, p: seq<Event>, e: Event)
    ensures Entries(k, p + [e]) == Entries(k, p) + (if StepOf(k, e).Add? then [StepOf(k, e).entry] else [])
    ensures Throws(k, p + [e]) == (Throws(k, p) || StepOf(k, e).Throw?)
  {
    assert (p + [e])[..|p|] == p;
  }

  /** One more callback invocation, as the loop in Reduce sees it. */
  lemma PrefixStep(k: Reducer, events: seq<Event>, i: nat)
    requires i < |events|
    ensures StepOf(k, events[i]).Add? ==>
            Entries(k, events[..i + 1]) == Entries(k, events[..i]) + [StepOf(k, events[i]).entry]
    ensures !StepOf(k, events[i]).Add? ==> Entries(k, events[..i + 1]) == Entries(k, events[..i])
    ensures Throws(k, events[..i + 1]) == (Throws(k, events[..i]) || StepOf(k, events[i]).Throw?)
  {
    assert events[..i + 1] == events[..i] + [events[i]];
    EntriesSnoc(k, events[..i], events[i]);
    assert Entries(k, events[..i]) + [] == Entries(k, events[..i]);
  }

  lemma {:induction false} ThrowsPrefix(k: Reducer, events: seq<Event>, n: nat)
    requires n <= |events| && n > 0 && StepOf(k, events[n - 1]).Throw?
    ensures Throws(k, events)
    decreases |events|
  {
    if n < |events| {
      var p := events[..|events| - 1];
      assert p[n - 1] == events[n - 1];
      ThrowsPrefix(k, p, n);
    }
  }

  /** Some callback invocation throws exactly when some single event makes it throw. */
  lemma {:induction false} ThrowsIff(k: Reducer, events: seq<Event>)
    ensures Throws(k, events) <==> exists i :: 0 <= i < |events| && StepOf(k, events[i]).Throw?
    decreases |events|
  {
    if events != [] {
      var p := events[..|events| - 1];
      ThrowsIff(k, p);
      if exists i :: 0 <= i < |events| && StepOf(k, events[i]).Throw? {
        var i :| 0 <= i < |events| && StepOf(k, events[i]).Throw?;
        ThrowsPrefix(k, events, i + 1);
      }
      if Throws(k, p) {
        var i :| 0 <= i < |p| && StepOf(k, p[i]).Throw?;
        assert events[i] == p[i];
      }
    }
  }

  lemma {:induction false} NeverThrows(k: Reducer, events: seq<Event>)
    requires k.Locations? || k.Types?
    ensures !Throws(k, events)
    decreases |events|
  {
    if events != [] {
      NeverThrows(k, events[..|events| - 1]);
    }
  }

  /** A key occurs among the accumulator updates exactly when some event's
      callback invocation adds under it. */
  lemma {:induction false} EntryKeys(k: Reducer, events: seq<Event>, d: string)
    ensures d in KeysOf(Entries(k, events)) <==>
            exists i :: 0 <= i < |events| && Adds(k, events[i], d)
    decreases |events|
  {
    if events != [] {
      var p, e := events[..|events| - 1], events[|events| - 1];
      assert events == p + [e];
      EntriesSnoc(k, p, e);
      EntryKeys(k, p, d);
      var es := Entries(k, p);
      if StepOf(k, e).Add? {
        KeysOfSnoc(es, StepOf(k, e).entry);
      } else {
        assert Entries(k, events) == es;
      }
      SomeAddsSnoc(k, p, e, d);
    }
  }

  /** Some event of `p + [e]` adds under `d` exactly when some event of `p`
      or `e` itself does. */
  lemma SomeAddsSnoc(k: Reducer, p: seq<Event>, e: Event, d: string)
    ensures (exists i :: 0 <= i < |p + [e]| && Adds(k, (p + [e])[i], d)) <==>
            (exists i :: 0 <= i < |p| && Adds(k, p[i], d)) || Adds(k, e, d)
  {
    var events := p + [e];
    if exists i :: 0 <= i < |p| && Adds(k, p[i], d) {
      var i :| 0 <= i < |p| && Adds(k, p[i], d);
      assert events[i] == p[i];
    }
    if Adds(k, e, d) {
      assert events[|p|] == e;
    }
    if exists i :: 0 <= i < |events| && Adds(k, events[i], d) {
      var i :| 0 <= i < |events| && Adds(k, events[i], d);
      if i < |p| {
        assert p[i] == events[i];
      }
    }
  }

  /** Every update of the three counting reducers adds 1. */
  lemma {:induction false} UnitEntries(k: Reducer, events: seq<Event>)
    requires !k.Durations?
    ensures forall i :: 0 <= i < |Entries(k, events)| ==> Entries(k, events)[i].amount == 1
    decreases |events|
  {
    if events != [] {
      var p, e := events[..|events| - 1], events[|events| - 1];
      assert events == p + [e];
      EntriesSnoc(k, p, e);
      UnitEntries(k, p);
    }
  }

  /** Locations and types update the accumulator once per event. */
  lemma {:induction false} OneEntryPerEvent(k: Reducer, events: seq<Event>)
    requires k.Locations? || k.Types?
    ensures |Entries(k, events)| == |events|
    ensures forall i :: 0 <= i < |events| ==> Entries(k, events)[i] == StepOf(k, events[i]).entry
    decreases |events|
  {
    if events != [] {
      var p, e := events[..|events| - 1], events[|events| - 1];
      assert events == p + [e];
      EntriesSnoc(k, p, e);
      OneEntryPerEvent(k, p);
    }
  }

  lemma {:induction false} ViewAmounts(iso: DateToIso, events: seq<Event>, d: string)
    ensures AmountFor(Entries(Views(iso), events), d) == ViewsOn(iso, events, d)
    decreases |events|
  {
    if events != [] {
      var p, e := events[..|events| - 1], events[|events| - 1];
      var es := Entries(Views(iso), p);
      assert events == p + [e];
      EntriesSnoc(Views(iso), p, e);
      ViewAmounts(iso, p, d);
      if StepOf(Views(iso), e).Add? {
        assert (es + [StepOf(Views(iso), e).entry])[..|es|] == es;
      } else {
        assert Entries(Views(iso), events) == es;
      }
    }
  }

  lemma {:induction false} DurationAmounts(iso: DateToIso, events: seq<Event>, d: string)
    ensures AmountFor(Entries(Durations(iso), events), d) == DurationOn(iso, events, d)
    decreases |events|
  {
    if events != [] {
      var p, e := events[..|events| - 1], events[|events| - 1];
      var es := Entries(Durations(iso), p);
      assert events == p + [e];
      EntriesSnoc(Durations(iso), p, e);
      DurationAmounts(iso, p, d);
      if StepOf(Durations(iso), e).Add? {
        assert (es + [StepOf(Durations(iso), e).entry])[..|es|] == es;
      } else {
        assert Entries(Durations(iso), events) == es;
      }
    }
  }

  lemma {:induction false} ViewTotal(iso: DateToIso, events: seq<Event>)
    requires !Throws(Views(iso), events)
    ensures Total(Entries(Views(iso), events)) == |PageViews(events)|
    decreases |events|
  {
    if events != [] {
      var p, e := events[..|events| - 1], events[|events| - 1];
      var es := Entries(Views(iso), p);
      assert events == p + [e];
      EntriesSnoc(Views(iso), p, e);
      ViewTotal(iso, p);
      if StepOf(Views(iso), e).Add? {
        assert (es + [StepOf(Views(iso), e).entry])[..|es|] == es;
      } else {
        assert Entries(Views(iso), events) == es;
      }
    }
  }

  lemma {:induction false} DurationTotal(iso: DateToIso, events: seq<Event>)
    requires !Throws(Durations(iso), events)
    ensures Total(Entries(Durations(iso), events)) == TotalDuration(events)
    decreases |events|
  {
    if events != [] {
      var p, e := events[..|events| - 1], events[|events| - 1];
      var es := Entries(Durations(iso), p);
      assert events == p + [e];
      EntriesSnoc(Durations(iso), p, e);
      DurationTotal(iso, p);
      assert (es + [StepOf(Durations(iso), e).entry])[..|es|] == es;
    }
  }

  lemma {:induction false} UnitTotal(es: seq<Entry>)
    requires forall i :: 0 <= i < |es| ==> es[i].amount == 1
    ensures Total(es) == |es|
    decreases |es|
  {
    if es != [] {
      UnitTotal(es[..|es| - 1]);
    }
  }

  /** Dropping the events that are not page views changes neither the
      accumulator updates nor whether the views reducer throws. */
  lemma {:induction false} PageViewsSameEntries(iso: DateToIso, events: seq<Event>)
    ensures Entries(Views(iso), PageViews(events)) == Entries(Views(iso), events)
    ensures Throws(Views(iso), PageViews(events)) == Throws(Views(iso), events)
    decreases |events|
  {
    if events != [] {
      var p, e := events[..|events| - 1], events[|events| - 1];
      assert events == p + [e];
      PageViewsSameEntries(iso, p);
      EntriesSnoc(Views(iso), p, e);
      if e.kind == PageView {
        assert PageViews(events) == PageViews(p) + [e];
        EntriesSnoc(Views(iso), PageViews(p), e);
      } else {
        assert PageViews(events) == PageViews(p);
        assert Entries(Views(iso), events) == Entries(Views(iso), p) + [];
      }
    }
  }

  // ---------------------------------------------------------------------
  // Views per day

  /** The views chart is sparse and sorted: its labels are exactly the
      days on which some page_view event happened, strictly ascending, and
      each value is the number of page_view events on its day, so at least 1. */
  lemma ViewsPerDay(iso: DateToIso, events: seq<Event>, c: Chart)
    requires ViewSummary(iso, events) == Ok(c)
    ensures |c.labels| == |c.data|
    ensures StrictlyAscending(c.labels)
    ensures forall d :: d in c.labels <==> ViewedOn(iso, events, d)
    ensures forall i :: 0 <= i < |c.labels| ==> c.data[i] == ViewsOn(iso, events, c.labels[i]) >= 1
  {
    assert c == SortedChart(Build(Entries(Views(iso), events)));
    ViewKeys(iso, events);
  }

  lemma ViewKeys(iso: DateToIso, events: seq<Event>)
    ensures var t := Build(Entries(Views(iso), events));
      forall d :: (d in t.totals <==> ViewedOn(iso, events, d)) &&
                  (d in t.totals ==> t.totals[d] == ViewsOn(iso, events, d) >= 1)
  {
    var es := Entries(Views(iso), events);
    UnitEntries(Views(iso), events);
    forall d
      ensures d in Build(es).totals <==> ViewedOn(iso, events, d)
      ensures d in Build(es).totals ==> Build(es).totals[d] == ViewsOn(iso, events, d) >= 1
    {
      BuildTotals(es, d);
      EntryKeys(Views(iso), events, d);
      forall i | 0 <= i < |events|
        ensures Adds(Views(iso), events[i], d) <==> events[i].kind == PageView && DayOf(iso, events[i].timestamp) == Some(d)
      {
      }
      ViewAmounts(iso, events, d);
      UnitAmounts(es, d);
    }
  }

  /** The views chart counts every page_view event once. */
  lemma ViewsTotal(iso: DateToIso, events: seq<Event>, c: Chart)
    requires ViewSummary(iso, events) == Ok(c)
    ensures Sum(c.data) == |PageViews(events)|
  {
    BuildSum(Entries(Views(iso), events));
    ViewTotal(iso, events);
  }

  /** Events of other types never affect the views chart. */
  lemma ViewsIgnoreOtherTypes(iso: DateToIso, events: seq<Event>)
    ensures ViewSummary(iso, PageViews(events)) == ViewSummary(iso, events)
  {
    PageViewsSameEntries(iso, events);
  }

  /** The views reducer throws exactly when a page_view event has an
      invalid timestamp; invalid timestamps on other events are never read. */
  lemma ViewsFailure(iso: DateToIso, events: seq<Event>)
    ensures ViewSummary(iso, events).RangeError? <==>
            exists i :: 0 <= i < |events| && events[i].kind == PageView && iso(events[i].timestamp).None?
  {
    ThrowsIff(Views(iso), events);
    assert forall i :: 0 <= i < |events| ==>
      (StepOf(Views(iso), events[i]).Throw? <==> events[i].kind == PageView && iso(events[i].timestamp).None?);
  }

  // ---------------------------------------------------------------------
  // Total duration per day

  /** The duration chart has one label per day on which any event, of any
      type, happened (a day whose durations are all 0 included), strictly
      ascending, and each value is the total duration of that day's events. */
  lemma DurationsPerDay(iso: DateToIso, events: seq<Event>, c: Chart)
    requires DurationSummary(iso, events) == Ok(c)
    ensures |c.labels| == |c.data|
    ensures StrictlyAscending(c.labels)
    ensures forall d :: d in c.labels <==> SomeEventOn(iso, events, d)
    ensures forall i :: 0 <= i < |c.labels| ==> c.data[i] == DurationOn(iso, events, c.labels[i])
  {
    assert c == SortedChart(Build(Entries(Durations(iso), events)));
    DurationKeys(iso, events);
  }

  lemma DurationKeys(iso: DateToIso, events: seq<Event>)
    ensures var t := Build(Entries(Durations(iso), events));
      forall d :: (d in t.totals <==> SomeEventOn(iso, events, d)) &&
                  (d in t.totals ==> t.totals[d] == DurationOn(iso, events, d))
  {
    var es := Entries(Durations(iso), events);
    forall d
      ensures d in Build(es).totals <==> SomeEventOn(iso, events, d)
      ensures d in Build(es).totals ==> Build(es).totals[d] == DurationOn(iso, events, d)
    {
      BuildTotals(es, d);
      EntryKeys(Durations(iso), events, d);
      forall i | 0 <= i < |events|
        ensures Adds(Durations(iso), events[i], d) <==> DayOf(iso, events[i].timestamp) == Some(d)
      {
      }
      DurationAmounts(iso, events, d);
    }
  }

  /** The duration chart conserves the total duration over all events. */
  lemma DurationsTotal(iso: DateToIso, events: seq<Event>, c: Chart)
    requires DurationSummary(iso, events) == Ok(c)
    ensures Sum(c.data) == TotalDuration(events)
  {
    BuildSum(Entries(Durations(iso), events));
    DurationTotal(iso, events);
  }

  /** The duration reducer throws exactly when some event has an invalid
      timestamp. */
  lemma DurationsFailure(iso: DateToIso, events: seq<Event>)
    ensures DurationSummary(iso, events).RangeError? <==>
            exists i :: 0 <= i < |events| && iso(events[i].timestamp).None?
  {
    ThrowsIff(Durations(iso), events);
    assert forall i :: 0 <= i < |events| ==>
      (StepOf(Durations(iso), events[i]).Throw? <==> iso(events[i].timestamp).None?);
  }

  // ---------------------------------------------------------------------
  // Events by location and by type

  /** A counting chart over one key per event: distinct labels in order of
      first occurrence, each counting the events with that key. */
  lemma CountingChart(k: Reducer, events: seq<Event>, keys: seq<string>)
    requires k.Locations? || k.Types?
    requires |keys| == |events| && forall i :: 0 <= i < |events| ==> keys[i] == StepOf(k, events[i]).entry.key
    ensures var c := InsertionChart(Build(Entries(k, events)));
      && |c.labels| == |c.data|
      && Distinct(c.labels)
      && (forall x :: x in c.labels <==> x in keys)
      && FirstSeenOrder(c.labels, keys)
      && (forall i :: 0 <= i < |c.labels| ==> c.data[i] == multiset(keys)[c.labels[i]])
      && Sum(c.data) == |events|
  {
    var es := Entries(k, events);
    OneEntryPerEvent(k, events);
    UnitEntries(k, events);
    assert KeysOf(es) == keys;
    BuildFirstSeen(es);
    BuildSum(es);
    UnitTotal(es);
    forall x
      ensures x in Build(es).totals ==> Build(es).totals[x] == multiset(keys)[x]
      ensures x in Build(es).totals <==> x in keys
    {
      BuildTotals(es, x);
      UnitAmounts(es, x);
    }
  }

  /** Locations come out distinct, in the order each first occurs in the
      input (after defaulting), each with the number of its events. */
  lemma LocationsByFirstSeen(events: seq<Event>, c: Chart)
    requires c == LocationSummary(events)
    ensures |c.labels| == |c.data|
    ensures Distinct(c.labels)
    ensures forall x :: x in c.labels <==> x in LocationKeys(events)
    ensures FirstSeenOrder(c.labels, LocationKeys(events))
    ensures forall i :: 0 <= i < |c.labels| ==> c.data[i] == multiset(LocationKeys(events))[c.labels[i]]
  {
    CountingChart(Locations, events, LocationKeys(events));
  }

  /** The location counts add up to the number of events. */
  lemma LocationsTotal(events: seq<Event>, c: Chart)
    requires c == LocationSummary(events)
    ensures Sum(c.data) == |events|
  {
    CountingChart(Locations, events, LocationKeys(events));
  }

  /** An event without a location, or with an empty one, is counted under
      "Unknown", together with any event whose location is "Unknown". */
  lemma UnknownLocation(events: seq<Event>, c: Chart)
    requires c == LocationSummary(events)
    ensures Unknown in c.labels <==> exists i :: 0 <= i < |events| && CountedAsUnknown(events[i])
  {
    LocationsByFirstSeen(events, c);
    var keys := LocationKeys(events);
    forall i | 0 <= i < |events|
      ensures keys[i] == Unknown <==> CountedAsUnknown(events[i])
    {
    }
  }

  /** Types come out distinct, in the order each first occurs in the input,
      each with the number of its events. */
  lemma TypesByFirstSeen(events: seq<Event>, c: Chart)
    requires c == TypeSummary(events)
    ensures |c.labels| == |c.data|
    ensures Distinct(c.labels)
    ensures forall x :: x in c.labels <==> x in TypeKeys(events)
    ensures FirstSeenOrder(c.labels, TypeKeys(events))
    ensures forall i :: 0 <= i < |c.labels| ==> c.data[i] == multiset(TypeKeys(events))[c.labels[i]]
  {
    CountingChart(Types, events, TypeKeys(events));
  }

  /** The type counts add up to the number of events. */
  lemma TypesTotal(events: seq<Event>, c: Chart)
    requires c == TypeSummary(events)
    ensures Sum(c.data) == |events|
  {
    CountingChart(Types, events, TypeKeys(events));
  }
}
