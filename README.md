# Channel graph of WiFiAnalyzer

This project models the channel graph of one Wi-Fi band in WiFiAnalyzer.
Each access point of the band is drawn as a five-point curve over the width
of its channel. The curve rises from the floor of the chart (`MIN_Y`) to the
signal's level, peaks at the centre frequency and falls back. An invisible
two-point baseline spans the band's channel table and fixes the chart's
horizontal extent. The view keeps one series per device in a map from device
identity to series. On each scan update it walks the band's details: a
device it does not show yet gets a new palette-coloured series, appended to
the chart and bound to the device; a device it already shows keeps its
series, and only that series' points are replaced. The update also collects
the identities it saw.

Files:

- `model.dfy`: the scan data the graph reads (`WiFiSignal`, `WiFiDetail`,
  `WiFiBand`, `WiFiChannels`).
- `graph_widget.dfy`: the charting widget. It is reduced to a chart that
  holds an ordered list of series, each a list of points and a paint style.
- `channel_graph_view.dfy`: the curve builders, the specification of an
  update, and the class `ChannelGraphView`.

A series is referred to by its position in the chart's list. The class
invariant `Valid()` requires:

- the chart holds exactly one series more than the map;
- position 0 holds the band's transparent baseline;
- every identity is bound to a device series;
- distinct identities are bound to distinct series.

The ghost field `shown` records the points each identity's series displays.
`Update` is proved against the value function `ShowAll`: drawing the list
detail by detail over what was shown before. `ShowAllResult` then says what
that means: each identity of the list shows the curve of its last detail,
and every other identity is unchanged.

## Model

| member | source | states |
|---|---|---|
| Graph.CreateDataPoints | app/src/main/java/com/vrem/wifianalyzer/wifi/graph/ChannelGraphView.java:103-116 | The curve has five points. The first and last lie on the floor at the start and end of the signal's width. The middle point is the peak at the centre frequency and level. All three inner points are at the signal's level. The shoulders are one spread inside the ends. When the spread is non-negative and the centre lies between the shoulders, the x coordinates never decrease and stay within the signal's width. |
| Graph.WorkedExample | app/src/main/java/com/vrem/wifianalyzer/wifi/graph/ChannelGraphView.java:110-116 | A 20 MHz signal centred on 2410 MHz with spread 5 gives the points 2400, 2405, 2410, 2415 and 2420. The two ends are on the floor and the inner three are at the signal's level. |
| Graph.DefaultsPoints | app/src/main/java/com/vrem/wifianalyzer/wifi/graph/ChannelGraphView.java:119-125 | The baseline has two points, both on the floor. They sit one offset before the band's first channel and one offset after its last. With a non-negative offset they span every channel of the band. |
| Graph.KeysOfMembers | app/src/main/java/com/vrem/wifianalyzer/wifi/graph/ChannelGraphView.java:73-76 | An identity is among the identities collected from a list exactly when some detail of the list carries it. |
| Graph.LastSignal | app/src/main/java/com/vrem/wifianalyzer/wifi/graph/ChannelGraphView.java:74-76 | A last signal exists for an identity exactly when the identity occurs in the list. |
| Graph.LastSignalIsLast | app/src/main/java/com/vrem/wifianalyzer/wifi/graph/ChannelGraphView.java:74-76 | The signal found belongs to a detail with that identity, and no later detail of the list has the same identity. |
| Graph.ShowAllResult | app/src/main/java/com/vrem/wifianalyzer/wifi/graph/ChannelGraphView.java:74-76 | After a list is drawn, the shown identities are those shown before plus those of the list. Each identity of the list shows the curve of its last detail. Every other identity keeps its points. |
| Graph.ShowAllKeys | app/src/main/java/com/vrem/wifianalyzer/wifi/graph/ChannelGraphView.java:74-76 | Drawing a list shows exactly the identities shown before together with those of the list. |
| Graph.ShowAllIdempotent | app/src/main/java/com/vrem/wifianalyzer/wifi/graph/ChannelGraphView.java:72-76 | Drawing the same list a second time changes nothing that is shown. |
| Graph.ShowAllStep | app/src/main/java/com/vrem/wifianalyzer/wifi/graph/ChannelGraphView.java:74-75 | One more loop iteration adds the detail's identity to the collected set and shows that detail's curve under its identity. |
| Graph.KeysOfSnoc | app/src/main/java/com/vrem/wifianalyzer/wifi/graph/ChannelGraphView.java:83 | A detail added at the end of a list adds its identity to the collected identities. |
| Graph.LastSignalSnoc | app/src/main/java/com/vrem/wifianalyzer/wifi/graph/ChannelGraphView.java:84-91 | A detail added at the end of a list becomes the last signal for its own identity and for no other identity. |
| Graph.ShownOfKeys | app/src/main/java/com/vrem/wifianalyzer/wifi/graph/ChannelGraphView.java:44 | The identities shown on the chart are exactly the keys of the series map. |
| Graph.AppendKeepsConsistent | app/src/main/java/com/vrem/wifianalyzer/wifi/graph/ChannelGraphView.java:85-89 | Appending a palette series for an identity not in the map and binding the identity to it has three effects. The chart keeps one series more than the map. Distinct identities still refer to distinct series. Every earlier binding and every earlier series keep their place and style. |
| Graph.AppendShows | app/src/main/java/com/vrem/wifianalyzer/wifi/graph/ChannelGraphView.java:86-89 | After that append, the new identity shows the new series' points and every other identity shows what it showed before. |
| Graph.ResetKeepsConsistent | app/src/main/java/com/vrem/wifianalyzer/wifi/graph/ChannelGraphView.java:84-92 | Replacing the points of a bound identity's series keeps the chart consistent. Every series keeps its place and style. |
| Graph.ResetShows | app/src/main/java/com/vrem/wifianalyzer/wifi/graph/ChannelGraphView.java:84-92 | After that replacement, the identity shows the new points. No other identity shares the series, so nothing else shown changes. |
| Graph.ChannelGraphView.constructor | app/src/main/java/com/vrem/wifianalyzer/wifi/graph/ChannelGraphView.java:47-53 | A new view keeps its band, channel table and floor. Its series map is empty. Its new chart holds only the transparent baseline series. |
| Graph.ChannelGraphView.Make2 | app/src/main/java/com/vrem/wifianalyzer/wifi/graph/ChannelGraphView.java:55-57 | Returns a new view, with a new chart, of the 2.4 GHz band. The view's `Is5GHZ` (lines 133-135) is false. It holds only the baseline and shows no device. |
| Graph.ChannelGraphView.Make5 | app/src/main/java/com/vrem/wifianalyzer/wifi/graph/ChannelGraphView.java:59-61 | Returns a new view, with a new chart, of the 5 GHz band. The view's `Is5GHZ` (lines 133-135) is true. It holds only the baseline and shows no device. |
| Graph.ChannelGraphView.AddDefaultsSeries | app/src/main/java/com/vrem/wifianalyzer/wifi/graph/ChannelGraphView.java:119-131 | Appends one transparent series with the baseline points to the chart. |
| Graph.ChannelGraphView.AddData | app/src/main/java/com/vrem/wifianalyzer/wifi/graph/ChannelGraphView.java:82-93 | Adds the detail's identity to the collected set. For a new identity, it appends a palette series with the detail's curve and binds the identity to that series' position. For an identity already bound, the map stays the same and only that series' points become the detail's curve. The invariant is kept, every binding is kept, and every series keeps its place and style. |
| Graph.ChannelGraphView.Update | app/src/main/java/com/vrem/wifianalyzer/wifi/graph/ChannelGraphView.java:72-76 | The collected set is exactly the identities of the details. The map's keys become the old keys plus those identities. What is shown becomes the result of drawing the list, detail by detail, over what was shown before. Identities shown before keep their series. The baseline and every existing series keep their place and style, and only palette series are added after them. The invariant is kept, so the chart holds the map's size plus one series. |
| GraphWidget.GraphView.AddSeries | app/src/main/java/com/vrem/wifianalyzer/wifi/graph/ChannelGraphView.java:88 | Appends a series at the end of the chart's list. |
| GraphWidget.GraphView.ResetData | app/src/main/java/com/vrem/wifianalyzer/wifi/graph/ChannelGraphView.java:91 | Replaces the points of one series, which keeps its place and style. |

## Left out

- Rendering, axis labels and titles (`makeGraphView`, the graph builder and `Resources`) are out because they only configure drawing.
- Each new series' colour, background colour, title and tap listener are reduced to the style tag `Palette`, and the baseline's colour and zero thickness to `Transparent`. The palette's colour order and the title text come from `GraphViewUtils`, which is not part of this model.
- The removal of series for devices no longer seen (`updateSeries`), the legend (`updateLegend`) and the band's visibility (`setVisibility`) are out. They belong to `GraphViewUtils`, which is not part of this model. `Update` returns the collected identity set that the first of these would receive.
- Reading the settings and selecting, filtering and sorting the band's details are out. `Update` receives the band's details as a list, already in the order the source walks them.
- Device identity is an abstract key type. The ordering of `WiFiDetail`, which decides equality in the source's tree map and tree set, is not modelled. The tree map and tree set are modelled as a Dafny `map` and `set`.
- Chart coordinates are integers rather than `double`. Every coordinate the source builds is an `int` frequency or level converted to `double`.
- CreateDataPoints: the source computes the shoulders (start plus spread, end minus spread) in 32-bit Java `int`. The model uses unbounded integers, which do not wrap around. Frequencies in MHz are far from the 32-bit bounds.
- DefaultsPoints: the same holds for the baseline's ends (first channel minus offset, last channel plus offset).
- The band's channel table and the chart floor `MIN_Y` are constructor parameters rather than lookups in the band's static data.
- Series object identity: a series is referred to by its position in the chart's list rather than by a heap reference. Aliasing between the map and the chart is therefore captured by positions. Positions stay fixed in this model only because the removal of stale series after an update is left out. In the source, that removal takes series off the chart and so moves the later ones.
- Update: the source mutates a local `TreeSet` in place; the model returns it as a value.
