/** The interactive state/district map (pages/MapPage.tsx): fitting the SVG
    viewBox around the plotted points, zooming about the centre, drag-panning,
    the state/district drill-down, and the tooltip's quadrant placement.
    Coordinates and the viewBox are exact reals, an idealisation of the
    JavaScript doubles: the zoom round trip below holds exactly here, and only
    up to rounding in the browser. */
module MapPage {
  import opened Types
  import opened Seqs

  datatype MapLevel = StateLevel | DistrictLevel

  /** The SVG `viewBox`: top-left corner and size, in map units. */
  datatype ViewBox = ViewBox(x: real, y: real, width: real, height: real)

  /** The box shown before any fitting, and whenever there is nothing to fit. */
  const DefaultViewBox := ViewBox(0.0, 0.0, 100.0, 100.0)

  /** A fitted box is never smaller than this in either direction. */
  const MinFitSize: real := 40.0

  /** A zoom step is refused when the new width leaves [MinZoomWidth, MaxZoomWidth]. */
  const MinZoomWidth: real := 10.0
  const MaxZoomWidth: real := 300.0

  const ZoomInFactor: real := 0.8
  const ZoomOutFactor: real := 1.25

  const StatePadding: real := 10.0
  const DistrictPadding: real := 20.0
  const FallbackPadding: real := 15.0

  function CentreX(vb: ViewBox): real { vb.x + vb.width / 2.0 }

  function CentreY(vb: ViewBox): real { vb.y + vb.height / 2.0 }

  // ---------------------------------------------------------------------
  // Fitting the viewBox around a set of points
  // ---------------------------------------------------------------------

  /** `Math.min(...s)` for a non-empty list. */
  function MinOf(s: seq<real>): (m: real)
    requires |s| > 0
    ensures m in s
    ensures forall i :: 0 <= i < |s| ==> m <= s[i]
  {
    if |s| == 1 then s[0]
    else
      var m := MinOf(s[1..]);
      assert forall i :: 1 <= i < |s| ==> s[i] == s[1..][i - 1];
      if s[0] <= m then s[0] else m
  }

  /** `Math.max(...s)` for a non-empty list. */
  function MaxOf(s: seq<real>): (m: real)
    requires |s| > 0
    ensures m in s
    ensures forall i :: 0 <= i < |s| ==> s[i] <= m
  {
    if |s| == 1 then s[0]
    else
      var m := MaxOf(s[1..]);
      assert forall i :: 1 <= i < |s| ==> s[i] == s[1..][i - 1];
      if s[0] >= m then s[0] else m
  }

  function Xs(items: seq<Point>): (xs: seq<real>)
    ensures |xs| == |items|
    ensures forall i :: 0 <= i < |items| ==> xs[i] == items[i].x
  {
    seq(|items|, i requires 0 <= i < |items| => items[i].x)
  }

  function Ys(items: seq<Point>): (ys: seq<real>)
    ensures |ys| == |items|
    ensures forall i :: 0 <= i < |items| ==> ys[i] == items[i].y
  {
    seq(|items|, i requires 0 <= i < |items| => items[i].y)
  }

  function RealMax(a: real, b: real): real { if a >= b then a else b }

  /** Every item lies inside `vb` with at least `padding` to spare on each side. */
  predicate Encloses(vb: ViewBox, items: seq<Point>, padding: real)
  {
    forall i :: 0 <= i < |items| ==>
      vb.x + padding <= items[i].x <= vb.x + vb.width - padding &&
      vb.y + padding <= items[i].y <= vb.y + vb.height - padding
  }

  /** The arithmetic of `calculateOptimalViewBox` once the items are known:
      the padded bounding box of the items, widened to at least 40 x 40,
      centred on the centre of the items' bounding box. Where the minimum
      size does not apply, the box is tight: the extreme items sit exactly
      `padding` from its edges. */
  function FitViewBox(items: seq<Point>, padding: real): (vb: ViewBox)
    requires |items| > 0
    ensures vb.width >= MinFitSize && vb.height >= MinFitSize
    ensures Encloses(vb, items, padding)
    ensures CentreX(vb) == (MinOf(Xs(items)) + MaxOf(Xs(items))) / 2.0
    ensures CentreY(vb) == (MinOf(Ys(items)) + MaxOf(Ys(items))) / 2.0
    ensures vb.width > MinFitSize ==>
              vb.x + padding == MinOf(Xs(items)) && vb.x + vb.width - padding == MaxOf(Xs(items))
    ensures vb.height > MinFitSize ==>
              vb.y + padding == MinOf(Ys(items)) && vb.y + vb.height - padding == MaxOf(Ys(items))
  {
    var minX, maxX := MinOf(Xs(items)), MaxOf(Xs(items));
    var minY, maxY := MinOf(Ys(items)), MaxOf(Ys(items));
    var contentWidth := maxX - minX;
    var contentHeight := maxY - minY;
    var width := RealMax(contentWidth + padding * 2.0, MinFitSize);
    var height := RealMax(contentHeight + padding * 2.0, MinFitSize);
    var centerX := minX + contentWidth / 2.0;
    var centerY := minY + contentHeight / 2.0;
    ViewBox(centerX - width / 2.0, centerY - height / 2.0, width, height)
  }

  /** What the map plots at a level, and the padding used when fitting it. */
  datatype Layout = Layout(items: seq<Point>, padding: real)

  /** JavaScript truthiness of a `string | null`: neither null nor empty. */
  predicate Truthy(id: Option<string>)
  {
    id.Some? && id.value != ""
  }

  /** The positions of a table's entries, in table order: the `cx`/`cy` of
      the circles and the points a box is fitted to. */
  function Coordinates<T>(entries: seq<T>, at: T -> Point): (pts: seq<Point>)
    ensures |pts| == |entries|
    ensures forall i :: 0 <= i < |entries| ==> pts[i] == at(entries[i])
  {
    seq(|entries|, i requires 0 <= i < |entries| => at(entries[i]))
  }

  /** The cities of one district, in table order. */
  function CitiesOf(cities: seq<City>, districtId: string): seq<City>
  {
    Filter(cities, (c: City) => c.districtId == districtId)
  }

  /** The item selection of `calculateOptimalViewBox`: every district at state
      level, the selected district's cities at district level, nothing when
      no district is selected. */
  function PlotLayout(level: MapLevel, districtId: Option<string>,
                      districts: seq<District>, cities: seq<City>): Layout
  {
    if level == StateLevel then Layout(Coordinates(districts, (d: District) => d.coordinates), StatePadding)
    else if Truthy(districtId) then
      Layout(Coordinates(CitiesOf(cities, districtId.value), (c: City) => c.coordinates), DistrictPadding)
    else Layout([], FallbackPadding)
  }

  /** `calculateOptimalViewBox`: the default box when there is nothing to
      plot; otherwise a box of at least 40 x 40 that holds every plotted item
      with the level's padding to spare, is centred on the items, and is
      tight along any side longer than the minimum. */
  function OptimalViewBox(level: MapLevel, districtId: Option<string>,
                          districts: seq<District>, cities: seq<City>): (vb: ViewBox)
    ensures var layout := PlotLayout(level, districtId, districts, cities);
            (layout.items == [] ==> vb == DefaultViewBox) &&
            (layout.items != [] ==>
               vb.width >= MinFitSize && vb.height >= MinFitSize &&
               Encloses(vb, layout.items, layout.padding) &&
               CentreX(vb) == (MinOf(Xs(layout.items)) + MaxOf(Xs(layout.items))) / 2.0 &&
               CentreY(vb) == (MinOf(Ys(layout.items)) + MaxOf(Ys(layout.items))) / 2.0 &&
               (vb.width > MinFitSize ==>
                  vb.x + layout.padding == MinOf(Xs(layout.items)) &&
                  vb.x + vb.width - layout.padding == MaxOf(Xs(layout.items))) &&
               (vb.height > MinFitSize ==>
                  vb.y + layout.padding == MinOf(Ys(layout.items)) &&
                  vb.y + vb.height - layout.padding == MaxOf(Ys(layout.items))))
    ensures vb.width > 0.0 && vb.height > 0.0
  {
    var layout := PlotLayout(level, districtId, districts, cities);
    if |layout.items| == 0 then DefaultViewBox else FitViewBox(layout.items, layout.padding)
  }

  /** At district level with no district selected, or with a district that
      has no cities in the table, the map falls back to the default box. */
  lemma {:induction false} EmptyDistrictGivesDefault(districtId: Option<string>,
                                                     districts: seq<District>, cities: seq<City>)
    requires Truthy(districtId) ==>
               forall i :: 0 <= i < |cities| ==> cities[i].districtId != districtId.value
    ensures OptimalViewBox(DistrictLevel, districtId, districts, cities) == DefaultViewBox
  {
    if Truthy(districtId) {
      FilterKeepsNone(cities, (c: City) => c.districtId == districtId.value);
    }
  }

  /** At state level every district is plotted, each at least 10 units from
      the edges of the fitted box. */
  lemma StateLevelEnclosesDistricts(districtId: Option<string>,
                                    districts: seq<District>, cities: seq<City>)
    requires |districts| > 0
    ensures var vb := OptimalViewBox(StateLevel, districtId, districts, cities);
            forall i :: 0 <= i < |districts| ==>
              vb.x + 10.0 <= districts[i].coordinates.x <= vb.x + vb.width - 10.0 &&
              vb.y + 10.0 <= districts[i].coordinates.y <= vb.y + vb.height - 10.0
  {
    var vb := OptimalViewBox(StateLevel, districtId, districts, cities);
    assert Encloses(vb, Coordinates(districts, (d: District) => d.coordinates), StatePadding);
  }

  /** At district level every city of the selected district is plotted, each
      at least 20 units from the edges of the fitted box. */
  lemma {:induction false} DistrictLevelEnclosesCities(districtId: string,
                                                       districts: seq<District>, cities: seq<City>)
    requires districtId != ""
    ensures var vb := OptimalViewBox(DistrictLevel, Some(districtId), districts, cities);
            forall i :: 0 <= i < |cities| && cities[i].districtId == districtId ==>
              vb.x + 20.0 <= cities[i].coordinates.x <= vb.x + vb.width - 20.0 &&
              vb.y + 20.0 <= cities[i].coordinates.y <= vb.y + vb.height - 20.0
  {
    var vb := OptimalViewBox(DistrictLevel, Some(districtId), districts, cities);
    var mine := CitiesOf(cities, districtId);
    var pts := Coordinates(mine, (c: City) => c.coordinates);
    forall i | 0 <= i < |cities| && cities[i].districtId == districtId
      ensures vb.x + 20.0 <= cities[i].coordinates.x <= vb.x + vb.width - 20.0
      ensures vb.y + 20.0 <= cities[i].coordinates.y <= vb.y + vb.height - 20.0
    {
      assert cities[i] in mine;
      var k :| 0 <= k < |mine| && mine[k] == cities[i];
      assert pts[k] == cities[i].coordinates;
      assert Encloses(vb, pts, DistrictPadding);
    }
  }

  // ---------------------------------------------------------------------
  // Zoom and pan
  // ---------------------------------------------------------------------

  /** The width check of `handleZoom`: the new width must stay within
      [10, 300]. The height is never checked. */
  predicate ZoomAccepted(prev: ViewBox, factor: real)
  {
    MinZoomWidth <= prev.width * factor <= MaxZoomWidth
  }

  /** The updater passed to `setViewBox` by `handleZoom`: scale both sides by
      `factor` about the centre, or keep the box when the width check fails. */
  function Zoomed(prev: ViewBox, factor: real): (next: ViewBox)
    ensures ZoomAccepted(prev, factor) ==>
              next.width == prev.width * factor && next.height == prev.height * factor &&
              CentreX(next) == CentreX(prev) && CentreY(next) == CentreY(prev)
    ensures !ZoomAccepted(prev, factor) ==> next == prev
  {
    var newWidth := prev.width * factor;
    var newHeight := prev.height * factor;
    if newWidth < MinZoomWidth then prev
    else if newWidth > MaxZoomWidth then prev
    else
      var centerX := prev.x + prev.width / 2.0;
      var centerY := prev.y + prev.height / 2.0;
      ViewBox(centerX - newWidth / 2.0, centerY - newHeight / 2.0, newWidth, newHeight)
  }

  /** Zooming in and then out again gives back the original box, provided the
      zoom-in was accepted and the box was within the zoom range to begin with. */
  lemma ZoomInThenOutRestores(vb: ViewBox)
    requires ZoomAccepted(vb, ZoomInFactor) && vb.width <= MaxZoomWidth
    ensures ZoomAccepted(Zoomed(vb, ZoomInFactor), ZoomOutFactor)
    ensures Zoomed(Zoomed(vb, ZoomInFactor), ZoomOutFactor) == vb
  {
    var mid := Zoomed(vb, ZoomInFactor);
    assert mid.width * ZoomOutFactor == vb.width;
    assert mid.height * ZoomOutFactor == vb.height;
  }

  /** Zooming out and then in again gives back the original box, provided the
      zoom-out was accepted and the box was within the zoom range to begin with. */
  lemma ZoomOutThenInRestores(vb: ViewBox)
    requires ZoomAccepted(vb, ZoomOutFactor) && MinZoomWidth <= vb.width
    ensures ZoomAccepted(Zoomed(vb, ZoomOutFactor), ZoomInFactor)
    ensures Zoomed(Zoomed(vb, ZoomOutFactor), ZoomInFactor) == vb
  {
    var mid := Zoomed(vb, ZoomOutFactor);
    assert mid.width * ZoomInFactor == vb.width;
    assert mid.height * ZoomInFactor == vb.height;
  }

  /** Only the width is checked: a zoom-in is accepted even when it takes a
      flat box's height below the minimum width. */
  lemma ZoomIgnoresHeight()
    ensures var next := Zoomed(ViewBox(0.0, 0.0, 100.0, 5.0), ZoomInFactor);
            next != ViewBox(0.0, 0.0, 100.0, 5.0) && next.height < MinZoomWidth
  {
  }

  /** The wheel handler's factor: scrolling down zooms out, anything else in. */
  function WheelFactor(deltaY: real): (f: real)
    ensures f > 0.0
    ensures f > 1.0 <==> deltaY > 0.0
  {
    if deltaY > 0.0 then 1.05 else 0.95
  }

  /** The updater of a drag step: move the box against the mouse by the
      mouse's displacement in map units; the size is kept. */
  function Panned(prev: ViewBox, dx: real, dy: real, scale: real): (next: ViewBox)
    ensures next.width == prev.width && next.height == prev.height
    ensures CentreX(next) == CentreX(prev) - dx * scale
    ensures CentreY(next) == CentreY(prev) - dy * scale
  {
    prev.(x := prev.x - dx * scale, y := prev.y - dy * scale)
  }

  /** Two drag steps at the same scale move the box as one step by the
      summed displacement. */
  lemma PanSteps(vb: ViewBox, dx1: real, dy1: real, dx2: real, dy2: real, scale: real)
    ensures Panned(Panned(vb, dx1, dy1, scale), dx2, dy2, scale) == Panned(vb, dx1 + dx2, dy1 + dy2, scale)
  {
    assert (dx1 + dx2) * scale == dx1 * scale + dx2 * scale;
    assert (dy1 + dy2) * scale == dy1 * scale + dy2 * scale;
  }

  /** Dragging back by the same displacement undoes a drag step. */
  lemma PanUndo(vb: ViewBox, dx: real, dy: real, scale: real)
    ensures Panned(Panned(vb, dx, dy, scale), -dx, -dy, scale) == vb
  {
    PanSteps(vb, dx, dy, -dx, -dy, scale);
    assert 0.0 * scale == 0.0;
  }

  // ---------------------------------------------------------------------
  // Lookups, colours and the tooltip
  // ---------------------------------------------------------------------

  const Origin := Point(0.0, 0.0)

  /** `getCityPos`: the coordinates of the first city with this id, else the origin. */
  function CityPos(id: string, cities: seq<City>): (p: Point)
    ensures (forall i :: 0 <= i < |cities| ==> cities[i].id != id) ==> p == Origin
    ensures forall i :: (0 <= i < |cities| && cities[i].id == id &&
                         forall j :: 0 <= j < i ==> cities[j].id != id) ==> p == cities[i].coordinates
  {
    var found := FindFirst(cities, (c: City) => c.id == id);
    if found.Some? then found.value.coordinates else Origin
  }

  /** `getDistrictPos`: the coordinates of the first district with this id, else the origin. */
  function DistrictPos(id: string, districts: seq<District>): (p: Point)
    ensures (forall i :: 0 <= i < |districts| ==> districts[i].id != id) ==> p == Origin
    ensures forall i :: (0 <= i < |districts| && districts[i].id == id &&
                         forall j :: 0 <= j < i ==> districts[j].id != id) ==> p == districts[i].coordinates
  {
    var found := FindFirst(districts, (d: District) => d.id == id);
    if found.Some? then found.value.coordinates else Origin
  }

  const Rose := "#f43f5e"
  const Amber := "#f59e0b"
  const Emerald := "#10b981"

  /** `getStatusColor`: rose for High, amber for Moderate, emerald otherwise. */
  function StatusColor(risk: RiskLevel): (colour: string)
    ensures colour == Rose <==> risk == High
    ensures colour == Amber <==> risk == Moderate
    ensures colour == Emerald <==> risk == Low || risk == Normal
  {
    match risk
    case High => Rose
    case Moderate => Amber
    case _ => Emerald
  }

  /** Where a map point appears in the container, as percentages of its
      width and height. */
  function ScreenPercent(pos: Point, vb: ViewBox): Point
    requires vb.width != 0.0 && vb.height != 0.0
  {
    Point((pos.x - vb.x) / vb.width * 100.0, (pos.y - vb.y) / vb.height * 100.0)
  }

  /** The tooltip's CSS `translate(dx%, dy%)`. */
  datatype TooltipShift = TooltipShift(dx: int, dy: int)

  /** The tooltip's quadrant rule: pulled left near the right edge (which
      takes precedence), pushed right near the left edge, centred otherwise;
      dropped below the point near the top edge, above it otherwise. */
  function TooltipPlacement(screenX: real, screenY: real): (t: TooltipShift)
    ensures t.dx == -90 <==> screenX > 75.0
    ensures t.dx == -10 <==> !(screenX > 75.0) && screenX < 25.0
    ensures t.dx == -50 <==> 25.0 <= screenX <= 75.0
    ensures t.dy == 20 <==> screenY < 30.0
    ensures t.dy == -120 <==> screenY >= 30.0
  {
    var isRightSide := screenX > 75.0;
    var isLeftSide := screenX < 25.0;
    var isTopSide := screenY < 30.0;
    if isRightSide then (if isTopSide then TooltipShift(-90, 20) else TooltipShift(-90, -120))
    else if isLeftSide then (if isTopSide then TooltipShift(-10, 20) else TooltipShift(-10, -120))
    else if isTopSide then TooltipShift(-50, 20)
    else TooltipShift(-50, -120)
  }

  /** The tooltip for the hovered item, if one is shown: it needs a hovered id
      that names a plotted item of the current level, and it is placed by
      where the first item with that id falls in the visible box. */
  function Tooltip(level: MapLevel, hovered: Option<string>, vb: ViewBox,
                   districts: seq<District>, cities: seq<City>): (t: Option<TooltipShift>)
    requires vb.width != 0.0 && vb.height != 0.0
    ensures t.Some? <==>
              Truthy(hovered) &&
              if level == StateLevel then exists i :: 0 <= i < |districts| && districts[i].id == hovered.value
              else exists i :: 0 <= i < |cities| && cities[i].id == hovered.value
    ensures t.Some? && level == StateLevel ==>
              forall i :: (0 <= i < |districts| && districts[i].id == hovered.value &&
                           forall j :: 0 <= j < i ==> districts[j].id != hovered.value) ==>
                t.value == TooltipPlacement(ScreenPercent(districts[i].coordinates, vb).x,
                                            ScreenPercent(districts[i].coordinates, vb).y)
    ensures t.Some? && level != StateLevel ==>
              forall i :: (0 <= i < |cities| && cities[i].id == hovered.value &&
                           forall j :: 0 <= j < i ==> cities[j].id != hovered.value) ==>
                t.value == TooltipPlacement(ScreenPercent(cities[i].coordinates, vb).x,
                                            ScreenPercent(cities[i].coordinates, vb).y)
  {
    if !Truthy(hovered) then None
    else
      var id := hovered.value;
      var known := if level == StateLevel then FindFirst(districts, (d: District) => d.id == id).Some?
                   else FindFirst(cities, (c: City) => c.id == id).Some?;
      if !known then None
      else
        var pos := if level == StateLevel then DistrictPos(id, districts) else CityPos(id, cities);
        var screen := ScreenPercent(pos, vb);
        Some(TooltipPlacement(screen.x, screen.y))
  }

  // ---------------------------------------------------------------------
  // The component's state
  // ---------------------------------------------------------------------

  /** The map component's state and its event handlers. The auto-centre
      effect, which refits the box whenever the level or the selected district
      changes, is run at the end of the handlers that change them. */
  class MapView {
    const districts: seq<District>
    const cities: seq<City>
    var level: MapLevel
    var selectedDistrict: Option<string>
    var hoveredItem: Option<string>
    var viewBox: ViewBox
    var isDragging: bool
    var dragStart: Point

    /** A district is selected exactly at district level, and the box has a
        positive size, so screen positions are defined. */
    ghost predicate Valid()
      reads this
    {
      (level == StateLevel <==> selectedDistrict.None?) &&
      viewBox.width > 0.0 && viewBox.height > 0.0
    }

    /** The first render shows the whole state, then the mount effect fits the box. */
    constructor (districts: seq<District>, cities: seq<City>)
      ensures Valid()
      ensures this.districts == districts && this.cities == cities
      ensures level == StateLevel && selectedDistrict == None && hoveredItem == None
      ensures !isDragging && dragStart == Origin
      ensures viewBox == OptimalViewBox(StateLevel, None, districts, cities)
    {
      this.districts := districts;
      this.cities := cities;
      level := StateLevel;
      selectedDistrict := None;
      hoveredItem := None;
      isDragging := false;
      dragStart := Origin;
      viewBox := DefaultViewBox;
      new;
      viewBox := OptimalViewBox(StateLevel, None, districts, cities);
    }

    /** `handleResetZoom`, also the body of the auto-centre effect. */
    method ResetZoom()
      requires Valid()
      modifies this
      ensures Valid()
      ensures viewBox == OptimalViewBox(level, selectedDistrict, districts, cities)
      ensures level == old(level) && selectedDistrict == old(selectedDistrict)
      ensures hoveredItem == old(hoveredItem) && isDragging == old(isDragging) && dragStart == old(dragStart)
    {
      viewBox := OptimalViewBox(level, selectedDistrict, districts, cities);
    }

    /** `handleZoom(factor)`; the callers pass 0.8, 1.25, 1.05 or 0.95. */
    method Zoom(factor: real)
      requires Valid() && factor > 0.0
      modifies this
      ensures Valid()
      ensures viewBox == Zoomed(old(viewBox), factor)
      ensures level == old(level) && selectedDistrict == old(selectedDistrict)
      ensures hoveredItem == old(hoveredItem) && isDragging == old(isDragging) && dragStart == old(dragStart)
    {
      var next := Zoomed(viewBox, factor);
      if ZoomAccepted(viewBox, factor) {
        PositiveProduct(viewBox.height, factor);
      }
      viewBox := next;
    }

    /** `handleZoomIn`. */
    method ZoomIn()
      requires Valid()
      modifies this
      ensures Valid()
      ensures viewBox == Zoomed(old(viewBox), ZoomInFactor)
      ensures level == old(level) && selectedDistrict == old(selectedDistrict)
      ensures hoveredItem == old(hoveredItem) && isDragging == old(isDragging) && dragStart == old(dragStart)
    {
      Zoom(ZoomInFactor);
    }

    /** `handleZoomOut`. */
    method ZoomOut()
      requires Valid()
      modifies this
      ensures Valid()
      ensures viewBox == Zoomed(old(viewBox), ZoomOutFactor)
      ensures level == old(level) && selectedDistrict == old(selectedDistrict)
      ensures hoveredItem == old(hoveredItem) && isDragging == old(isDragging) && dragStart == old(dragStart)
    {
      Zoom(ZoomOutFactor);
    }

    /** The wheel listener: `handleZoom(deltaY > 0 ? 1.05 : 0.95)`. */
    method Wheel(deltaY: real)
      requires Valid()
      modifies this
      ensures Valid()
      ensures viewBox == Zoomed(old(viewBox), WheelFactor(deltaY))
      ensures level == old(level) && selectedDistrict == old(selectedDistrict)
      ensures hoveredItem == old(hoveredItem) && isDragging == old(isDragging) && dragStart == old(dragStart)
    {
      Zoom(WheelFactor(deltaY));
    }

    /** `handleMouseDown`: only the primary button starts a drag. */
    method MouseDown(button: int, clientX: real, clientY: real)
      requires Valid()
      modifies this
      ensures Valid()
      ensures button == 0 ==> isDragging && dragStart == Point(clientX, clientY)
      ensures button != 0 ==> isDragging == old(isDragging) && dragStart == old(dragStart)
      ensures viewBox == old(viewBox) && level == old(level) && selectedDistrict == old(selectedDistrict)
      ensures hoveredItem == old(hoveredItem)
    {
      if button == 0 {
        isDragging := true;
        dragStart := Point(clientX, clientY);
      }
    }

    /** `handleMouseMove`: while dragging, pan by the displacement since the
        last event, converted to map units by the box's width over the SVG
        element's pixel width (`None` when the element is not mounted). */
    method MouseMove(clientX: real, clientY: real, clientWidth: Option<real>)
      requires Valid()
      requires clientWidth.Some? ==> clientWidth.value > 0.0
      modifies this
      ensures Valid()
      ensures !old(isDragging) ==> viewBox == old(viewBox) && dragStart == old(dragStart)
      ensures old(isDragging) ==> dragStart == Point(clientX, clientY)
      ensures old(isDragging) && clientWidth.Some? ==>
                viewBox == Panned(old(viewBox), clientX - old(dragStart).x, clientY - old(dragStart).y,
                                  old(viewBox).width / clientWidth.value)
      ensures clientWidth.None? ==> viewBox == old(viewBox)
      ensures isDragging == old(isDragging) && level == old(level)
      ensures selectedDistrict == old(selectedDistrict) && hoveredItem == old(hoveredItem)
    {
      if isDragging {
        var dx := clientX - dragStart.x;
        var dy := clientY - dragStart.y;
        dragStart := Point(clientX, clientY);
        if clientWidth.Some? {
          var scale := viewBox.width / clientWidth.value;
          viewBox := Panned(viewBox, dx, dy, scale);
        }
      }
    }

    /** `handleMouseUp`, also bound to mouse-leave: the drag ends. */
    method MouseUp()
      requires Valid()
      modifies this
      ensures Valid()
      ensures !isDragging
      ensures viewBox == old(viewBox) && dragStart == old(dragStart) && level == old(level)
      ensures selectedDistrict == old(selectedDistrict) && hoveredItem == old(hoveredItem)
    {
      isDragging := false;
    }

    /** Mouse-enter on a marker; mouse-leave passes `None`. */
    method Hover(item: Option<string>)
      requires Valid()
      modifies this
      ensures Valid()
      ensures hoveredItem == item
      ensures viewBox == old(viewBox) && dragStart == old(dragStart) && level == old(level)
      ensures selectedDistrict == old(selectedDistrict) && isDragging == old(isDragging)
    {
      hoveredItem := item;
    }

    /** The auto-centre effect: it runs only when the level or the selected
        district differs from the previous render. */
    method AutoCentre(prevLevel: MapLevel, prevSelected: Option<string>)
      requires Valid()
      modifies this
      ensures Valid()
      ensures viewBox == if level == prevLevel && selectedDistrict == prevSelected then old(viewBox)
                         else OptimalViewBox(level, selectedDistrict, districts, cities)
      ensures level == old(level) && selectedDistrict == old(selectedDistrict)
      ensures hoveredItem == old(hoveredItem) && isDragging == old(isDragging) && dragStart == old(dragStart)
    {
      if level != prevLevel || selectedDistrict != prevSelected {
        ResetZoom();
      }
    }

    /** `handleDistrictClick(id)`, followed by the auto-centre effect. */
    method DistrictClick(id: string)
      requires Valid()
      modifies this
      ensures Valid()
      ensures level == DistrictLevel && selectedDistrict == Some(id) && hoveredItem == None
      ensures old(level) == StateLevel ==>
                viewBox == OptimalViewBox(DistrictLevel, Some(id), districts, cities)
      ensures old(selectedDistrict) == Some(id) ==> viewBox == old(viewBox)
      ensures isDragging == old(isDragging) && dragStart == old(dragStart)
    {
      var prevLevel, prevSelected := level, selectedDistrict;
      selectedDistrict := Some(id);
      level := DistrictLevel;
      hoveredItem := None;
      AutoCentre(prevLevel, prevSelected);
    }

    /** `handleBackToState`, followed by the auto-centre effect. */
    method BackToState()
      requires Valid()
      modifies this
      ensures Valid()
      ensures level == StateLevel && selectedDistrict == None && hoveredItem == None
      ensures old(level) == DistrictLevel ==>
                viewBox == OptimalViewBox(StateLevel, None, districts, cities)
      ensures old(level) == StateLevel ==> viewBox == old(viewBox)
      ensures isDragging == old(isDragging) && dragStart == old(dragStart)
    {
      var prevLevel, prevSelected := level, selectedDistrict;
      level := StateLevel;
      selectedDistrict := None;
      hoveredItem := None;
      AutoCentre(prevLevel, prevSelected);
    }

    /** The tooltip currently shown, if any. */
    function CurrentTooltip(): Option<TooltipShift>
      reads this
      requires Valid()
    {
      Tooltip(level, hoveredItem, viewBox, districts, cities)
    }
  }

  lemma PositiveProduct(a: real, b: real)
    requires a > 0.0 && b > 0.0
    ensures a * b > 0.0
  {
  }
}
