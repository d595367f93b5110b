/** The charting widget the channel graph draws on, reduced to what the graph
    does with it: a chart holds an ordered list of series, and a series is a
    list of points with a paint style. A series is referred to by its position
    in the chart's list, which never changes once it has been added. */
module GraphWidget {

  /** One chart coordinate: x is a frequency (MHz), y a signal level (dBm). */
  datatype Point = Point(x: int, y: int)

  /** How a series is painted: invisible (the baseline), or given a colour and
      title from the shared palette. */
  datatype Style = Transparent | Palette

  datatype Series = Series(points: seq<Point>, style: Style)

  class GraphView {
    /** The series attached to the chart, in the order they were added. */
    var series: seq<Series>

    constructor ()
      ensures series == []
    {
      series := [];
    }

    method AddSeries(s: Series)
      modifies this
      ensures series == old(series) + [s]
    {
      series := series + [s];
    }

    /** Replaces the points of the series at position `index`; it keeps its
        place and its style. */
    method ResetData(index: nat, points: seq<Point>)
      requires index < |series|
      modifies this
      ensures series == old(series)[index := old(series)[index].(points := points)]
    {
      series := series[index := series[index].(points := points)];
    }
  }
}
