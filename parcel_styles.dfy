/**
 * The per-feature style callback of the cadastral parcel layer: one of two
 * constant styles, chosen by comparing feature identifiers with `===`.
 */
module ParcelStyles {

  import opened Wrappers
  import opened Features

  datatype Stroke = Stroke(color: string, width: nat)
  datatype Fill = Fill(color: string)
  datatype Style = Style(stroke: Stroke, fill: Fill)

  /** The style of the selected parcel: a 2-pixel opaque cyan outline over a translucent cyan fill. */
  function HighlightedParcelStyle(): (s: Style)
    ensures s.stroke.width == 2
    ensures s.stroke.color == "#00b7ffff" && s.fill.color == "#00b7ff65"
  {
    Style(Stroke("#00b7ffff", 2), Fill("#00b7ff65"))
  }

  /** The style of every other parcel: a 1-pixel grey-blue outline over a translucent light-blue fill. */
  function DefaultParcelStyle(): (s: Style)
    ensures s.stroke.width == 1
    ensures s.stroke.color == "#84afb9ff" && s.fill.color == "#8cc8e065"
  {
    Style(Stroke("#84afb9ff", 1), Fill("#8cc8e065"))
  }

  /**
   * A feature is drawn highlighted exactly when a highlighted feature is
   * present and the two identifiers are strictly equal; an absent identifier
   * equals an absent one (`undefined === undefined`), and a string never
   * equals a number.
   */
  function ParcelStyleFunction(feature: Feature, highlighted: Option<Feature>): (r: Style)
    ensures r == HighlightedParcelStyle() || r == DefaultParcelStyle()
    ensures r == HighlightedParcelStyle() <==> highlighted.Some? && feature.id == highlighted.value.id
    ensures r == DefaultParcelStyle() <==> highlighted.None? || feature.id != highlighted.value.id
  {
    if highlighted.Some? && feature.id == highlighted.value.id then
      HighlightedParcelStyle()
    else
      DefaultParcelStyle()
  }

  /**
   * The highlighted feature itself is always drawn highlighted, whether or
   * not it has an identifier; and when it has none, so is every other
   * feature without one.
   */
  lemma HighlightedIsReflexive(f: Feature, g: Feature)
    ensures ParcelStyleFunction(f, Some(f)) == HighlightedParcelStyle()
    ensures f.id.None? && g.id.None? ==> ParcelStyleFunction(g, Some(f)) == HighlightedParcelStyle()
  {
  }

  /** Only the identifiers matter: features with equal identifiers are styled alike. */
  lemma StyleDependsOnlyOnIds(f: Feature, g: Feature, h: Option<Feature>, k: Option<Feature>)
    requires f.id == g.id
    requires h.Some? <==> k.Some?
    requires h.Some? ==> h.value.id == k.value.id
    ensures ParcelStyleFunction(f, h) == ParcelStyleFunction(g, k)
  {
  }

  /** The highlighted outline is strictly thicker than the default one, so the two styles never coincide. */
  lemma HighlightIsThicker()
    ensures HighlightedParcelStyle().stroke.width > DefaultParcelStyle().stroke.width
    ensures HighlightedParcelStyle() != DefaultParcelStyle()
  {
  }
}
