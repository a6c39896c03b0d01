/** The hourly window: the forecast's parallel arrays zipped by index, the
    entries strictly after "now" kept, and the result cut to twelve. */
module Hourly {
  import opened Values

  /** How many hour cards the widget keeps. */
  const WindowSize: nat := 12

  /** The `hourly` object of the forecast response: parallel arrays. Times are
      instants (already parsed); temperature and wind are passed through. */
  datatype HourlySeries = HourlySeries(
    time: seq<int>,
    temperature: seq<real>,
    windspeed: seq<real>,
    weathercode: seq<int>)

  /** One zipped entry. The arrays other than `time` are read by index, so an
      array shorter than `time` yields `undefined` there. */
  datatype HourEntry = HourEntry(
    time: int,
    temperature: Option<real>,
    windspeed: Option<real>,
    weathercode: Option<int>)

  /** The entry the `map` callback builds for index `i`. */
  function EntryAt(h: HourlySeries, i: nat): (e: HourEntry)
    requires i < |h.time|
  {
    HourEntry(h.time[i], ElementAt(h.temperature, i), ElementAt(h.windspeed, i), ElementAt(h.weathercode, i))
  }

  /** `time.map((t, i) => ...)`: one entry per time, in order. */
  function Entries(h: HourlySeries): (es: seq<HourEntry>)
    ensures |es| == |h.time|
    ensures forall i :: 0 <= i < |es| ==> es[i] == EntryAt(h, i)
  {
    seq(|h.time|, i requires 0 <= i < |h.time| => EntryAt(h, i))
  }

  /** `.filter((h) => h.time > now)`. */
  function Upcoming(es: seq<HourEntry>, now: int): seq<HourEntry>
  {
    if es == [] then []
    else
      var last := es[|es| - 1];
      Upcoming(es[..|es| - 1], now) + (if last.time > now then [last] else [])
  }

  /** `.slice(0, n)`. */
  function Take<T>(s: seq<T>, n: nat): (r: seq<T>)
    ensures |r| == if |s| <= n then |s| else n
    ensures r <= s
  {
    if |s| <= n then s else s[..n]
  }

  /** The whole pipeline. */
  function Window(h: HourlySeries, now: int): seq<HourEntry>
  {
    Take(Upcoming(Entries(h), now), WindowSize)
  }

  // ---------------------------------------------------------------------------
  // An independent reference: the indices of the future entries.

  /** The indices `i`, in increasing order, whose time is after `now`. */
  function FutureIndices(times: seq<int>, now: int): seq<nat>
  {
    if times == [] then []
    else
      var n := |times| - 1;
      FutureIndices(times[..n], now) + (if times[n] > now then [n] else [])
  }

  predicate StrictlyIncreasing(s: seq<int>)
  {
    forall j, k :: 0 <= j < k < |s| ==> s[j] < s[k]
  }

  predicate Ascending(s: seq<int>)
  {
    forall j, k :: 0 <= j < k < |s| ==> s[j] <= s[k]
  }

  function Times(es: seq<HourEntry>): (ts: seq<int>)
    ensures |ts| == |es|
    ensures forall i :: 0 <= i < |es| ==> ts[i] == es[i].time
  {
    seq(|es|, i requires 0 <= i < |es| => es[i].time)
  }

  /** FutureIndices lists exactly the indices whose time is after `now`,
      each once and in increasing order. */
  lemma {:induction false} FutureIndicesExact(times: seq<int>, now: int)
    ensures StrictlyIncreasing(FutureIndices(times, now))
    ensures forall j :: 0 <= j < |FutureIndices(times, now)| ==> FutureIndices(times, now)[j] < |times|
    ensures forall i :: 0 <= i < |times| ==> (i in FutureIndices(times, now) <==> times[i] > now)
  {
    if times != [] {
      var n := |times| - 1;
      var prefix := times[..n];
      var earlier := FutureIndices(prefix, now);
      var added: seq<nat> := if times[n] > now then [n] else [];
      FutureIndicesExact(prefix, now);
      assert FutureIndices(times, now) == earlier + added;
      forall i | 0 <= i < |times|
        ensures i in earlier + added <==> times[i] > now
      {
        if i < n {
          assert prefix[i] == times[i];
          assert i !in added;
        }
      }
    }
  }

  /** The filter keeps, in order, exactly the entries at the future indices. */
  lemma {:induction false} UpcomingAtFutureIndices(es: seq<HourEntry>, now: int)
    ensures var fi := FutureIndices(Times(es), now);
      |Upcoming(es, now)| == |fi| &&
      forall j :: 0 <= j < |fi| ==> fi[j] < |es| && Upcoming(es, now)[j] == es[fi[j]]
  {
    FutureIndicesExact(Times(es), now);
    if es != [] {
      var n := |es| - 1;
      var prefix := es[..n];
      UpcomingAtFutureIndices(prefix, now);
      assert Times(es)[..n] == Times(prefix);
      FutureIndicesExact(Times(prefix), now);
    }
  }

  // ---------------------------------------------------------------------------
  // What the window promises.

  /** The window is the first min(12, k) future entries, where k is the number
      of entries after `now`, and its j-th entry is read from one input index
      for all four fields. */
  lemma WindowAligned(h: HourlySeries, now: int)
    ensures var fi := FutureIndices(h.time, now);
      var w := Window(h, now);
      |w| == (if |fi| <= WindowSize then |fi| else WindowSize) &&
      forall j :: 0 <= j < |w| ==>
        fi[j] < |h.time| &&
        w[j] == EntryAt(h, fi[j]) &&
        w[j].time == h.time[fi[j]] &&
        w[j].temperature == ElementAt(h.temperature, fi[j]) &&
        w[j].windspeed == ElementAt(h.windspeed, fi[j]) &&
        w[j].weathercode == ElementAt(h.weathercode, fi[j])
  {
    var es := Entries(h);
    assert Times(es) == h.time;
    UpcomingAtFutureIndices(es, now);
  }

  /** At most twelve entries, all strictly after `now`, each read from an
      input index whose time is after `now`. */
  lemma WindowBounds(h: HourlySeries, now: int)
    ensures |Window(h, now)| <= WindowSize && |Window(h, now)| <= |h.time|
    ensures forall j :: 0 <= j < |Window(h, now)| ==> Window(h, now)[j].time > now
  {
    WindowAligned(h, now);
    FutureIndicesExact(h.time, now);
    var fi := FutureIndices(h.time, now);
    var w := Window(h, now);
    forall j | 0 <= j < |w| ensures w[j].time > now {
      assert fi[j] in fi;
    }
    StrictIndicesBound(fi, |h.time|);
  }

  /** A strictly increasing sequence of indices below `n` has at most `n` entries. */
  lemma {:induction false} StrictIndicesBound(s: seq<nat>, n: nat)
    requires forall j, k :: 0 <= j < k < |s| ==> s[j] < s[k]
    requires forall j :: 0 <= j < |s| ==> s[j] < n
    ensures |s| <= n
  {
    if s != [] {
      var m := |s| - 1;
      StrictIndicesBound(s[..m], s[m]);
    }
  }

  /** Order is kept: input entries appear in the window in input order, so a
      chronological series gives a chronological window. */
  lemma WindowKeepsOrder(h: HourlySeries, now: int)
    requires Ascending(h.time)
    ensures Ascending(Times(Window(h, now)))
  {
    WindowAligned(h, now);
    FutureIndicesExact(h.time, now);
  }

  /** Nothing in the future gives an empty window, not an error; twelve or more
      future entries give exactly twelve. */
  lemma WindowLength(h: HourlySeries, now: int)
    ensures (forall i :: 0 <= i < |h.time| ==> h.time[i] <= now) <==> Window(h, now) == []
    ensures |FutureIndices(h.time, now)| >= WindowSize ==> |Window(h, now)| == WindowSize
  {
    WindowAligned(h, now);
    FutureIndicesExact(h.time, now);
    var fi := FutureIndices(h.time, now);
    if fi != [] {
      assert fi[0] in fi;
    }
  }

  /** When the four arrays have the same length, as the forecast service sends
      them, every kept entry has all its fields defined. */
  lemma WindowDefinedWhenAligned(h: HourlySeries, now: int)
    requires |h.temperature| == |h.windspeed| == |h.weathercode| == |h.time|
    ensures forall j :: 0 <= j < |Window(h, now)| ==>
      Window(h, now)[j].temperature.Some? && Window(h, now)[j].windspeed.Some? &&
      Window(h, now)[j].weathercode.Some?
  {
    WindowAligned(h, now);
  }
}
