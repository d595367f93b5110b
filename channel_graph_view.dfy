/** The channel graph of one band: every access point of the band is drawn as a
    five-point curve (floor, shoulder, peak, shoulder, floor) over its channel,
    on top of an invisible baseline that fixes the chart's horizontal extent.
    The view keeps one series per device identity and, on each update, reuses
    the series of a device it already shows instead of creating a new one. */
module Graph {
  import opened Model
  import opened GraphWidget

  datatype Option<T> = None | Some(value: T)

  ghost predicate XNonDecreasing(ps: seq<Point>) {
    forall i, j :: 0 <= i <= j < |ps| ==> ps[i].x <= ps[j].x
  }

  /** The curve of one access point: it rises from the floor at the start of
      the signal's channel to the signal's level one spread further in, peaks
      at the centre frequency, and falls back to the floor at the channel's end. */
  function CreateDataPoints(signal: WiFiSignal, frequencySpread: int, minY: int): (r: seq<Point>)
    ensures |r| == 5
    // floor points at both ends of the signal's width
    ensures r[0] == Point(signal.frequencyStart, minY) && r[4] == Point(signal.frequencyEnd, minY)
    // the peak at the centre frequency, at the signal's level
    ensures r[2] == Point(signal.frequency, signal.level)
    // the three inner points are at the signal's level
    ensures forall i :: 1 <= i <= 3 ==> r[i].y == signal.level
    // the shoulders sit one spread inside the floor points
    ensures r[1].x == r[0].x + frequencySpread && r[3].x == r[4].x - frequencySpread
    // a centre frequency between the shoulders gives a curve drawn left to right
    ensures 0 <= frequencySpread &&
            signal.frequencyStart + frequencySpread <= signal.frequency <= signal.frequencyEnd - frequencySpread
            ==> XNonDecreasing(r)
    // and such a curve never leaves the signal's width
    ensures 0 <= frequencySpread &&
            signal.frequencyStart + frequencySpread <= signal.frequency <= signal.frequencyEnd - frequencySpread
            ==> forall i :: 0 <= i < |r| ==> signal.frequencyStart <= r[i].x <= signal.frequencyEnd
  {
    [ Point(signal.frequencyStart, minY),
      Point(signal.frequencyStart + frequencySpread, signal.level),
      Point(signal.frequency, signal.level),
      Point(signal.frequencyEnd - frequencySpread, signal.level),
      Point(signal.frequencyEnd, minY) ]
  }

  /** The baseline: a flat curve at the floor from one offset before the band's
      first channel to one offset after its last. */
  function DefaultsPoints(channels: WiFiChannels, minY: int): (r: seq<Point>)
    ensures |r| == 2
    ensures forall i :: 0 <= i < |r| ==> r[i].y == minY
    ensures r[0].x == channels.firstFrequency - channels.frequencyOffset
    ensures r[1].x == channels.lastFrequency + channels.frequencyOffset
    // with a non-negative offset it spans every channel of the band
    ensures 0 <= channels.frequencyOffset && channels.firstFrequency <= channels.lastFrequency
            ==> r[0].x <= channels.firstFrequency <= channels.lastFrequency <= r[1].x
  {
    [ Point(channels.firstFrequency - channels.frequencyOffset, minY),
      Point(channels.lastFrequency + channels.frequencyOffset, minY) ]
  }

  /** The identities occurring in a list of details. */
  function KeysOf<K(==,!new)>(details: seq<WiFiDetail<K>>): (keys: set<K>)
  {
    if details == [] then {} else KeysOf(details[..|details| - 1]) + {details[|details| - 1].key}
  }

  /** An identity is among the keys exactly when some detail of the list has it. */
  lemma {:induction false} KeysOfMembers<K(!new)>(details: seq<WiFiDetail<K>>, k: K)
    ensures k in KeysOf(details) <==> exists j :: 0 <= j < |details| && details[j].key == k
  {
    if details != [] {
      var front := details[..|details| - 1];
      KeysOfMembers(front, k);
      assert forall j :: 0 <= j < |front| ==> front[j] == details[j];
      if k != details[|details| - 1].key && exists j :: 0 <= j < |details| && details[j].key == k {
        var j :| 0 <= j < |details| && details[j].key == k;
        assert front[j].key == k;
      }
    }
  }

  /** The signal of the last detail with identity `k`, the one whose points a
      device's series shows once a whole list has been processed; there is one
      exactly when `k` occurs in the list. */
  function LastSignal<K(==,!new)>(details: seq<WiFiDetail<K>>, k: K): (r: Option<WiFiSignal>)
    ensures r.Some? <==> k in KeysOf(details)
  {
    if details == [] then None
    else if details[|details| - 1].key == k then Some(details[|details| - 1].signal)
    else LastSignal(details[..|details| - 1], k)
  }

  /** The signal found is that of a detail with identity `k` that no later
      detail of the list shares its identity with. */
  lemma {:induction false} LastSignalIsLast<K(!new)>(details: seq<WiFiDetail<K>>, k: K)
    requires LastSignal(details, k).Some?
    ensures exists j :: 0 <= j < |details| && details[j] == WiFiDetail(k, LastSignal(details, k).value) &&
                        forall i :: j < i < |details| ==> details[i].key != k
  {
    var n := |details|;
    if details[n - 1].key != k {
      var front := details[..n - 1];
      LastSignalIsLast(front, k);
      var j :| 0 <= j < |front| && front[j] == WiFiDetail(k, LastSignal(front, k).value) &&
               forall i :: j < i < |front| ==> front[i].key != k;
      assert details[j] == front[j];
      assert forall i :: j < i < n ==> details[i].key != k by {
        forall i | j < i < n ensures details[i].key != k {
          if i < n - 1 { assert details[i] == front[i]; }
        }
      }
    } else {
      assert details[n - 1] == WiFiDetail(k, LastSignal(details, k).value);
    }
  }

  /** What the series bound to each identity show after a list of details has
      been drawn over `shown`: each detail in turn replaces the points of its
      identity by its own curve. */
  function ShowAll<K(==,!new)>(shown: map<K, seq<Point>>, details: seq<WiFiDetail<K>>, frequencySpread: int, minY: int)
    : (after: map<K, seq<Point>>)
  {
    if details == [] then shown
    else
      var d := details[|details| - 1];
      ShowAll(shown, details[..|details| - 1], frequencySpread, minY)[d.key := CreateDataPoints(d.signal, frequencySpread, minY)]
  }

  /** Drawing a list binds every identity of the list to the curve of its last
      detail and leaves every other identity as it was. */
  lemma {:induction false} ShowAllResult<K(!new)>(shown: map<K, seq<Point>>, details: seq<WiFiDetail<K>>,
                                                  frequencySpread: int, minY: int)
    ensures ShowAll(shown, details, frequencySpread, minY).Keys == shown.Keys + KeysOf(details)
    ensures forall k :: k in KeysOf(details) ==>
              ShowAll(shown, details, frequencySpread, minY)[k]
              == CreateDataPoints(LastSignal(details, k).value, frequencySpread, minY)
    ensures forall k :: k in shown && k !in KeysOf(details) ==>
              ShowAll(shown, details, frequencySpread, minY)[k] == shown[k]
  {
    if details != [] {
      var front := details[..|details| - 1];
      ShowAllResult(shown, front, frequencySpread, minY);
      KeysOfSnoc(front, details[|details| - 1]);
      assert front + [details[|details| - 1]] == details;
      forall k {
        LastSignalSnoc(front, details[|details| - 1], k);
      }
    }
  }

  /** Drawing the same list twice shows what drawing it once does. */
  lemma ShowAllIdempotent<K(!new)>(shown: map<K, seq<Point>>, details: seq<WiFiDetail<K>>,
                                   frequencySpread: int, minY: int)
    ensures var once := ShowAll(shown, details, frequencySpread, minY);
            ShowAll(once, details, frequencySpread, minY) == once
  {
    var once := ShowAll(shown, details, frequencySpread, minY);
    ShowAllResult(shown, details, frequencySpread, minY);
    ShowAllResult(once, details, frequencySpread, minY);
  }

  /** Drawing a list shows exactly the identities shown before and those of the list. */
  lemma ShowAllKeys<K(!new)>(shown: map<K, seq<Point>>, details: seq<WiFiDetail<K>>,
                             frequencySpread: int, minY: int)
    ensures ShowAll(shown, details, frequencySpread, minY).Keys == shown.Keys + KeysOf(details)
  {
    ShowAllResult(shown, details, frequencySpread, minY);
  }

  /** Drawing one more detail of a list over what its prefix showed. */
  lemma ShowAllStep<K(!new)>(shown: map<K, seq<Point>>, details: seq<WiFiDetail<K>>, i: nat,
                             frequencySpread: int, minY: int)
    requires i < |details|
    ensures KeysOf(details[..i + 1]) == KeysOf(details[..i]) + {details[i].key}
    ensures ShowAll(shown, details[..i + 1], frequencySpread, minY)
            == ShowAll(shown, details[..i], frequencySpread, minY)[details[i].key := CreateDataPoints(details[i].signal, frequencySpread, minY)]
  {
    assert details[..i + 1][..i] == details[..i];
  }

  /** One more detail at the end of a list adds its identity to the keys. */
  lemma KeysOfSnoc<K(!new)>(details: seq<WiFiDetail<K>>, d: WiFiDetail<K>)
    ensures KeysOf(details + [d]) == KeysOf(details) + {d.key}
  {
    assert (details + [d])[..|details|] == details;
  }

  /** One more detail at the end of a list becomes the last signal for its
      identity, and for no other. */
  lemma LastSignalSnoc<K(!new)>(details: seq<WiFiDetail<K>>, d: WiFiDetail<K>, k: K)
    ensures LastSignal(details + [d], k) == if d.key == k then Some(d.signal) else LastSignal(details, k)
  {
    assert (details + [d])[..|details|] == details;
  }

  /** Distinct identities refer to distinct chart positions. */
  ghost predicate Injective<K>(seriesMap: map<K, nat>) {
    forall k1, k2 :: k1 in seriesMap && k2 in seriesMap && k1 != k2 ==> seriesMap[k1] != seriesMap[k2]
  }

  /** The points shown for each identity, reading each one's series off the chart. */
  ghost function ShownOf<K>(seriesMap: map<K, nat>, chart: seq<Series>): (shown: map<K, seq<Point>>)
    requires forall k :: k in seriesMap ==> seriesMap[k] < |chart|
  {
    map k | k in seriesMap :: chart[seriesMap[k]].points
  }

  lemma ShownOfKeys<K>(seriesMap: map<K, nat>, chart: seq<Series>)
    requires forall k :: k in seriesMap ==> seriesMap[k] < |chart|
    ensures ShownOf(seriesMap, chart).Keys == seriesMap.Keys
  {
  }

  /** `after` is `before` with every series kept in its place and style, the
      baseline first among them untouched, followed by palette-styled series only. */
  ghost predicate Extends(before: seq<Series>, after: seq<Series>) {
    |before| <= |after|
    && (|before| > 0 ==> after[0] == before[0])
    && (forall j :: 0 <= j < |before| ==> after[j].style == before[j].style)
    && (forall j :: |before| <= j < |after| ==> after[j].style == Palette)
  }

  /** Every identity bound in `before` is still bound, to the same series, in `after`. */
  ghost predicate Retains<K>(before: map<K, nat>, after: map<K, nat>) {
    forall k :: k in before ==> k in after && after[k] == before[k]
  }

  lemma RetainsTransitive<K>(a: map<K, nat>, b: map<K, nat>, c: map<K, nat>)
    requires Retains(a, b) && Retains(b, c)
    ensures Retains(a, c)
  {
  }

  lemma ExtendsTransitive(a: seq<Series>, b: seq<Series>, c: seq<Series>)
    requires Extends(a, b) && Extends(b, c)
    ensures Extends(a, c)
  {
  }

  /** The chart holds the baseline first and then one series per identity in
      the map: every identity refers to a device series on the chart, and
      distinct identities refer to distinct series. */
  ghost predicate Consistent<K>(seriesMap: map<K, nat>, chart: seq<Series>) {
    |chart| == |seriesMap| + 1
    && (forall k :: k in seriesMap ==> 1 <= seriesMap[k] < |chart|)
    && Injective(seriesMap)
  }

  /** Appending a palette series for an identity not yet shown and binding the
      identity to it keeps the chart consistent, keeps every binding and every
      series already there. */
  lemma AppendKeepsConsistent<K>(seriesMap: map<K, nat>, chart: seq<Series>, key: K, series: Series)
    requires Consistent(seriesMap, chart) && key !in seriesMap && series.style == Palette
    ensures var seriesMap', chart' := seriesMap[key := |chart|], chart + [series];
            Consistent(seriesMap', chart') && Retains(seriesMap, seriesMap') && Extends(chart, chart')
  {
    var seriesMap', chart' := seriesMap[key := |chart|], chart + [series];
    assert Injective(seriesMap') by {
      forall k1, k2 | k1 in seriesMap' && k2 in seriesMap' && k1 != k2 ensures seriesMap'[k1] != seriesMap'[k2] {
        if k1 != key && k2 != key { assert seriesMap[k1] != seriesMap[k2]; }
      }
    }
  }

  /** ... and shows the new series' points under that identity, changing
      nothing else that is shown. */
  lemma AppendShows<K>(seriesMap: map<K, nat>, chart: seq<Series>, key: K, series: Series)
    requires forall k :: k in seriesMap ==> seriesMap[k] < |chart|
    requires key !in seriesMap
    ensures ShownOf(seriesMap[key := |chart|], chart + [series]) == ShownOf(seriesMap, chart)[key := series.points]
  {
    var after := ShownOf(seriesMap[key := |chart|], chart + [series]);
    var before := ShownOf(seriesMap, chart)[key := series.points];
    assert after.Keys == before.Keys;
    forall k | k in after ensures after[k] == before[k] {
      if k != key { assert (chart + [series])[seriesMap[k]] == chart[seriesMap[k]]; }
    }
  }

  /** Replacing the points of a shown identity's series keeps the chart
      consistent and keeps every series in its place and style. */
  lemma ResetKeepsConsistent<K>(seriesMap: map<K, nat>, chart: seq<Series>, key: K, points: seq<Point>)
    requires Consistent(seriesMap, chart) && key in seriesMap
    ensures var index := seriesMap[key];
            var chart' := chart[index := chart[index].(points := points)];
            Consistent(seriesMap, chart') && Extends(chart, chart')
  {
  }

  /** ... and shows the new points under that identity; since no other
      identity shares the series, nothing else that is shown changes. */
  lemma ResetShows<K>(seriesMap: map<K, nat>, chart: seq<Series>, key: K, points: seq<Point>)
    requires forall k :: k in seriesMap ==> seriesMap[k] < |chart|
    requires Injective(seriesMap) && key in seriesMap
    ensures var index := seriesMap[key];
            ShownOf(seriesMap, chart[index := chart[index].(points := points)]) == ShownOf(seriesMap, chart)[key := points]
  {
    var index := seriesMap[key];
    var after := ShownOf(seriesMap, chart[index := chart[index].(points := points)]);
    var before := ShownOf(seriesMap, chart)[key := points];
    assert after.Keys == before.Keys;
    forall k | k in after ensures after[k] == before[k] {
      if k != key { assert seriesMap[k] != index; }
    }
  }

  class ChannelGraphView<K(==,!new)> {
    const wiFiBand: WiFiBand
    const channels: WiFiChannels
    const minY: int
    const graphView: GraphView
    /** Each shown identity's series, given by its position in the chart. */
    var seriesMap: map<K, nat>
    /** The points each shown identity's series displays. */
    ghost var shown: map<K, seq<Point>>

    /** The chart holds the band's baseline first and then one series per
        identity in the map: every identity refers to a device series on the
        chart, distinct identities refer to distinct series, and `shown` is
        what those series display. */
    ghost predicate Valid()
      reads this, graphView
    {
      Consistent(seriesMap, graphView.series) && shown == ShownOf(seriesMap, graphView.series)
      && graphView.series[0] == Series(DefaultsPoints(channels, minY), Transparent)
    }

    /** A fresh view for `wiFiBand`, whose channel table is `channels` and whose
        vertical axis starts at `minY`: its chart holds only the baseline and it
        shows no device yet. */
    constructor (wiFiBand: WiFiBand, channels: WiFiChannels, minY: int)
      ensures Valid()
      ensures this.wiFiBand == wiFiBand && this.channels == channels && this.minY == minY
      ensures fresh(graphView) && seriesMap == map[] && shown == map[]
      ensures graphView.series == [Series(DefaultsPoints(channels, minY), Transparent)]
    {
      this.wiFiBand := wiFiBand;
      this.channels := channels;
      this.minY := minY;
      graphView := new GraphView();
      seriesMap := map[];
      shown := map[];
      new;
      AddDefaultsSeries();
    }

    static method Make2(channels: WiFiChannels, minY: int) returns (view: ChannelGraphView<K>)
      ensures fresh(view) && view.Valid()
      ensures fresh(view.graphView)
      ensures view.wiFiBand == GHZ_2 && !view.Is5GHZ() && view.channels == channels && view.minY == minY
      ensures view.seriesMap == map[] && view.graphView.series == [Series(DefaultsPoints(channels, minY), Transparent)]
    {
      view := new ChannelGraphView(GHZ_2, channels, minY);
    }

    static method Make5(channels: WiFiChannels, minY: int) returns (view: ChannelGraphView<K>)
      ensures fresh(view) && view.Valid()
      ensures fresh(view.graphView)
      ensures view.wiFiBand == GHZ_5 && view.Is5GHZ() && view.channels == channels && view.minY == minY
      ensures view.seriesMap == map[] && view.graphView.series == [Series(DefaultsPoints(channels, minY), Transparent)]
    {
      view := new ChannelGraphView(GHZ_5, channels, minY);
    }

    /** Appends the invisible baseline series to the chart. */
    method AddDefaultsSeries()
      modifies graphView
      ensures graphView.series == old(graphView.series) + [Series(DefaultsPoints(channels, minY), Transparent)]
    {
      graphView.AddSeries(Series(DefaultsPoints(channels, minY), Transparent));
    }

    /** Records `detail` in `newSeries` and shows its curve: a device the view
        does not show yet gets a new palette-styled series appended to the chart
        and bound to its identity; a device it already shows keeps its series,
        whose points alone are replaced. Nothing else changes. */
    method AddData(newSeries: set<K>, detail: WiFiDetail<K>) returns (seen: set<K>)
      requires Valid()
      modifies this, graphView
      ensures Valid()
      ensures seen == newSeries + {detail.key}
      // a device already shown keeps its series, whose points alone are replaced
      ensures detail.key in old(seriesMap) ==>
                var index := old(seriesMap)[detail.key];
                seriesMap == old(seriesMap) &&
                graphView.series == old(graphView.series)[index := old(graphView.series)[index].(points :=
                  CreateDataPoints(detail.signal, channels.frequencySpread, minY))]
      // a new device gets a new palette series, appended and bound to its identity
      ensures detail.key !in old(seriesMap) ==>
                seriesMap == old(seriesMap)[detail.key := |old(graphView.series)|] &&
                graphView.series == old(graphView.series) + [Series(CreateDataPoints(detail.signal, channels.frequencySpread, minY), Palette)]
      ensures shown == old(shown)[detail.key := CreateDataPoints(detail.signal, channels.frequencySpread, minY)]
      ensures Extends(old(graphView.series), graphView.series)
      ensures Retains(old(seriesMap), seriesMap)
    {
      seen := newSeries + {detail.key};
      var points := CreateDataPoints(detail.signal, channels.frequencySpread, minY);
      if detail.key !in seriesMap {
        // a new series gets its colour and title from the palette
        var series := Series(points, Palette);
        AppendKeepsConsistent(seriesMap, graphView.series, detail.key, series);
        AppendShows(seriesMap, graphView.series, detail.key, series);
        seriesMap := seriesMap[detail.key := |graphView.series|];
        graphView.AddSeries(series);
        shown := shown[detail.key := points];
      } else {
        ResetKeepsConsistent(seriesMap, graphView.series, detail.key, points);
        ResetShows(seriesMap, graphView.series, detail.key, points);
        graphView.ResetData(seriesMap[detail.key], points);
        shown := shown[detail.key := points];
      }
    }

    /** Shows every detail of the band's (filtered, sorted) list and returns the
        identities seen. The series then show what drawing the list detail by
        detail gives; identities shown before keep their series, the baseline
        and every existing series keep their place and style, and the new
        series, all palette-styled, come after them. */
    method Update(details: seq<WiFiDetail<K>>) returns (newSeries: set<K>)
      requires Valid()
      modifies this, graphView
      ensures Valid()
      ensures newSeries == KeysOf(details)
      ensures seriesMap.Keys == old(seriesMap.Keys) + newSeries
      ensures shown == ShowAll(old(shown), details, channels.frequencySpread, minY)
      ensures Retains(old(seriesMap), seriesMap)
      ensures Extends(old(graphView.series), graphView.series)
    {
      ghost var shown0, map0, chart0 := shown, seriesMap, graphView.series;
      newSeries := {};
      var i := 0;
      while i < |details|
        invariant 0 <= i <= |details|
        invariant Valid()
        invariant newSeries == KeysOf(details[..i])
        invariant shown == ShowAll(shown0, details[..i], channels.frequencySpread, minY)
        invariant Retains(map0, seriesMap)
        invariant Extends(chart0, graphView.series)
      {
        ShowAllStep(shown0, details, i, channels.frequencySpread, minY);
        ghost var chartBefore, mapBefore := graphView.series, seriesMap;
        newSeries := AddData(newSeries, details[i]);
        ExtendsTransitive(chart0, chartBefore, graphView.series);
        RetainsTransitive(map0, mapBefore, seriesMap);
        i := i + 1;
      }
      assert details[..i] == details;
      ShowAllKeys(shown0, details, channels.frequencySpread, minY);
      ShownOfKeys(map0, chart0);
      ShownOfKeys(seriesMap, graphView.series);
    }

    /** Whether the view draws the 5 GHz band. */
    function Is5GHZ(): bool
    {
      wiFiBand == GHZ_5
    }
  }

  /** The worked example of a 20 MHz signal centred on 2410 MHz. */
  lemma WorkedExample(minY: int)
    ensures CreateDataPoints(WiFiSignal(2410, 2400, 2420, -50), 5, minY)
            == [Point(2400, minY), Point(2405, -50), Point(2410, -50), Point(2415, -50), Point(2420, minY)]
  {
  }
}
