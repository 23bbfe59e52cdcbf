/**
 * The parcel popup: the translation applied to the info panel for a click
 * pixel and a viewport size, and what it shows. The code does not size the
 * panel; it assumes a 180 by 120 box, and the edge bounds below are about
 * that box placed at the translation.
 */
module Popup {

  import opened Wrappers

  /** The panel size the code assumes, in pixels: the shift applied when that box would overflow an edge. */
  const PANEL_WIDTH: int := 180
  const PANEL_HEIGHT: int := 120

  /** A screen pixel, as `evt.pixel` of a map click. */
  datatype Pixel = Pixel(x: int, y: int)

  /** What the map view keeps for an open popup. */
  datatype PopupData = PopupData(clickedCoordinate: Pixel, parcelNumber: string, area: string)

  /** What the popup renders: the translation applied to the panel and its three lines of text. */
  datatype PopupView = PopupView(translateX: int, translateY: int, title: string, number: string, areaLabel: string)

  /**
   * The horizontal translation. It never exceeds the click's x, is shifted
   * left by exactly the assumed width or not at all, is shifted exactly when
   * a box of that width at x would pass the viewport's right edge, and then
   * such a box fits left of that edge. There is no left correction: a click
   * left of the overflow zone keeps its x, however small.
   */
  function TranslateX(x: int, screenWidth: int): (tx: int)
    ensures tx <= x && (x - tx == 0 || x - tx == PANEL_WIDTH)
    ensures tx == x <==> x <= screenWidth - PANEL_WIDTH
    ensures x <= screenWidth ==> tx + PANEL_WIDTH <= screenWidth
  {
    if x > screenWidth - PANEL_WIDTH then x - PANEL_WIDTH else x
  }

  /** The vertical translation: the same rule as TranslateX, against the bottom edge and the assumed height. */
  function TranslateY(y: int, screenHeight: int): (ty: int)
    ensures ty <= y && (y - ty == 0 || y - ty == PANEL_HEIGHT)
    ensures ty == y <==> y <= screenHeight - PANEL_HEIGHT
    ensures y <= screenHeight ==> ty + PANEL_HEIGHT <= screenHeight
  {
    if y > screenHeight - PANEL_HEIGHT then y - PANEL_HEIGHT else y
  }

  /** The area as displayed, with its unit. */
  function AreaLabel(area: string): (r: string)
    ensures |r| == |area| + 3 && r[..|area|] == area && r[|area|..] == " m\U{B2}"
  {
    area + " m\U{B2}"
  }

  /**
   * The popup component: nothing without data; otherwise the panel is
   * translated by TranslateX and TranslateY of the click pixel (each axis
   * reads only its own coordinate and viewport size) and shows the parcel
   * number and the area with its unit. For a click inside the viewport, a
   * 180 by 120 box at the translation has its right and bottom edges inside it.
   */
  function Render(data: Option<PopupData>, screenWidth: int, screenHeight: int): (r: Option<PopupView>)
    ensures r.None? <==> data.None?
    ensures r.Some? ==> r.value.number == data.value.parcelNumber && r.value.areaLabel == AreaLabel(data.value.area)
    ensures r.Some? ==> r.value.translateX == TranslateX(data.value.clickedCoordinate.x, screenWidth)
    ensures r.Some? ==> r.value.translateY == TranslateY(data.value.clickedCoordinate.y, screenHeight)
    ensures r.Some? && data.value.clickedCoordinate.x <= screenWidth && data.value.clickedCoordinate.y <= screenHeight
            ==> r.value.translateX + PANEL_WIDTH <= screenWidth && r.value.translateY + PANEL_HEIGHT <= screenHeight
  {
    match data
    case None => None
    case Some(d) =>
      Some(PopupView(
        TranslateX(d.clickedCoordinate.x, screenWidth),
        TranslateY(d.clickedCoordinate.y, screenHeight),
        "Cadastral parcel",
        d.parcelNumber,
        AreaLabel(d.area)))
  }

  /**
   * The offset rule pins the offset down: any value that never moves the
   * panel right, moves it by 0 or the panel width, and moves it exactly when
   * the right edge would overflow, is TranslateX.
   */
  lemma TranslateXDetermined(x: int, screenWidth: int, t: int)
    requires t <= x && (x - t == 0 || x - t == PANEL_WIDTH)
    requires t == x <==> x <= screenWidth - PANEL_WIDTH
    ensures t == TranslateX(x, screenWidth)
  {
  }

  lemma TranslateYDetermined(y: int, screenHeight: int, t: int)
    requires t <= y && (y - t == 0 || y - t == PANEL_HEIGHT)
    requires t == y <==> y <= screenHeight - PANEL_HEIGHT
    ensures t == TranslateY(y, screenHeight)
  {
  }

  /** A narrow viewport can translate the panel past the left edge: there is no left clamp. */
  lemma NoLeftCorrection()
    ensures TranslateX(50, 100) == -130
  {
  }

  /** The two worked examples of the placement rule on a 1000 by 800 viewport. */
  lemma PlacementExamples(n: string, a: string)
    ensures Render(Some(PopupData(Pixel(950, 750), n, a)), 1000, 800).value.translateX == 770
    ensures Render(Some(PopupData(Pixel(950, 750), n, a)), 1000, 800).value.translateY == 630
    ensures Render(Some(PopupData(Pixel(100, 100), n, a)), 1000, 800).value.translateX == 100
    ensures Render(Some(PopupData(Pixel(100, 100), n, a)), 1000, 800).value.translateY == 100
  {
  }
}
