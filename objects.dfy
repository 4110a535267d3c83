/** The objects a `Graph` works with but does not define: series, gridlines
    and `Y.Graphic` surfaces, as opaque handles that carry only the
    attributes `Graph.js` reads or writes; and the record of what the graph
    asks of them. */
module ChartObjects {

  import opened Wrappers
  import opened SeriesFactory

  /** An axis object handed to a gridlines descriptor (opaque). */
  type AxisRef = nat

  /** A style object (background styles, gridline styles), opaque. */
  type StyleRef = nat

  /** A series instance. Its type, direction and keys are fixed when it is
      built; `graph`, `order` and `graphOrder` are stamped by the graph;
      `xcoords`/`ycoords` are only tested for presence, which the series'
      own `draw()` establishes. */
  class Series {
    const cls: SeriesClass
    const seriesType: string
    const direction: string
    const xKey: string
    const yKey: string
    var graph: object?
    var order: int
    var graphOrder: int
    var hasXCoords: bool
    var hasYCoords: bool

    /** `new seriesClass(config)`: the attributes come from the config. */
    constructor (cls: SeriesClass, seriesType: string, direction: string, xKey: string, yKey: string,
                 graph: object?, order: int, graphOrder: int)
      ensures this.cls == cls && this.seriesType == seriesType && this.direction == direction
      ensures this.xKey == xKey && this.yKey == yKey
      ensures this.graph == graph && this.order == order && this.graphOrder == graphOrder
      ensures !hasXCoords && !hasYCoords
    {
      this.cls, this.seriesType, this.direction := cls, seriesType, direction;
      this.xKey, this.yKey := xKey, yKey;
      this.graph, this.order, this.graphOrder := graph, order, graphOrder;
      hasXCoords, hasYCoords := false, false;
    }
  }

  /** The key a series is indexed under: its `yKey` when its direction is
      "horizontal", otherwise its `xKey`. */
  function KeyOf(s: Series): string
  {
    if s.direction == "horizontal" then s.yKey else s.xKey
  }

  /** A `Y.Gridlines` instance. */
  class Gridlines {
    const direction: string
    const axis: AxisRef
    const styles: StyleRef
    var graph: object?

    constructor (direction: string, axis: AxisRef, graph: object?, styles: StyleRef)
      ensures this.direction == direction && this.axis == axis
      ensures this.graph == graph && this.styles == styles
    {
      this.direction, this.axis, this.graph, this.styles := direction, axis, graph, styles;
    }
  }

  /** A `Y.Graphic` drawing surface: its stacking depth (the `zIndex` given
      to its node, if any) and its `autoDraw` attribute. */
  class Surface {
    const zIndex: Option<int>
    var autoDraw: bool

    /** Y.Graphic's own default for `autoDraw` is not part of this model;
        it is taken to be on, and the graph switches it off where it must. */
    constructor (zIndex: Option<int>)
      ensures this.zIndex == zIndex && autoDraw
    {
      this.zIndex := zIndex;
      autoDraw := true;
    }
  }

  /** The kinds of shape the graph asks a surface for. */
  datatype ShapeKind = Rect | Path

  /** A shape obtained with `surface.getShape({type: ...})`. */
  class Shape {
    const kind: ShapeKind
    const surface: Surface

    constructor (kind: ShapeKind, surface: Surface)
      ensures this.kind == kind && this.surface == surface
    {
      this.kind, this.surface := kind, surface;
    }
  }

  /** A plain object literal describing a series to build. A missing `type`
      reads as the string "undefined", as a JavaScript property key would. */
  datatype SeriesConfig = SeriesConfig(seriesType: string, direction: string, xKey: string, yKey: string)

  /** One entry of the array given to the `seriesCollection` setter: an
      existing `CartesianSeries`/`PieSeries` instance, or anything else,
      which is taken as a descriptor. */
  datatype Entry = Instance(series: Series) | Descriptor(config: SeriesConfig)

  /** The value given to a gridlines setter: a `Gridlines` instance, an
      object with a truthy `axis` (and its `styles`), or anything else. */
  datatype GridlinesValue =
    | Adopt(gridlines: Gridlines)
    | FromAxis(axis: AxisRef, styles: StyleRef)
    | NoGridlines

  /** What one call of a series' `draw()` does, as far as the graph can
      tell: it may produce the series' x and y coordinates, it may ask the
      graph to redraw (a nested `_drawSeries` call) and it may fire the
      series' `drawingComplete` event. */
  datatype DrawOutcome = DrawOutcome(setsXCoords: bool, setsYCoords: bool, requestsRedraw: bool, completes: bool)

  /** A `draw()` that does none of these. */
  const Quiet := DrawOutcome(false, false, false, false)

  /** The outcome of the `j`-th draw call of a script; calls past its end are quiet. */
  function OutcomeAt(script: seq<DrawOutcome>, j: nat): DrawOutcome
  {
    if j < |script| then script[j] else Quiet
  }

  /** Width and height handed to the background shape. */
  datatype Size = Size(width: int, height: int)

  /** Something the graph does that is visible outside it: an event it
      fires, or a call it makes on a series, gridlines or surface. */
  datatype Effect =
    | SeriesAdded(added: Series)            // fire("seriesAdded", series)
    | ChartRendered                         // fire("chartRendered")
    | GraphicRedrawn                        // graphic._redraw()
    | BackgroundStyled(style: StyleRef, size: Option<Size>)  // background.set(styles)
    | BackgroundResized(width: int, height: int)             // background.set("width"/"height")
    | GridlinesCleared                      // _gridlines.clear()
    | GridlinesDrawn(drawn: Gridlines)       // gridlines.draw()
    | GridlinesRemoved(removed: Gridlines)   // gridlines.remove()
    | SeriesRendered(rendered: Series)       // series.render()
    | SeriesDrawn(drawnSeries: Series)       // series.draw()
}
