/**
 * The zoom switch: below a fixed zoom the per-system name layer leaves the
 * canvas and the region-name layer joins it; at or above it, the reverse.
 * Membership is checked before each change.
 */
module LevelOfDetail {
  import opened Sequences

  const ZoomThreshold: real := 0.8

  /** The canvas children after one zoom-changed event. */
  function ZoomedCanvas<T(==)>(canvas: seq<T>, zoom: real, names: T, regionNames: T): seq<T> {
    if zoom < ZoomThreshold then
      var c := if names in canvas then RemoveFirst(canvas, names) else canvas;
      if regionNames !in c then c + [regionNames] else c
    else
      var c := if names !in canvas then canvas + [names] else canvas;
      if regionNames in c then RemoveFirst(c, regionNames) else c
  }

  /**
   * Exactly one of the two label layers is on the canvas afterwards, the
   * canvas stays free of duplicates, and no other layer is added or removed.
   */
  lemma ZoomSelectsOneLabelLayer<T>(canvas: seq<T>, zoom: real, names: T, regionNames: T)
    requires Distinct(canvas) && names != regionNames
    ensures var r := ZoomedCanvas(canvas, zoom, names, regionNames);
      && Distinct(r)
      && (zoom < ZoomThreshold ==> names !in r && regionNames in r)
      && (zoom >= ZoomThreshold ==> names in r && regionNames !in r)
      && (forall h :: h in r && h != names && h != regionNames ==> h in canvas)
      && (forall h :: h in canvas && h != names && h != regionNames ==> h in r)
  {

  }

  /** A second event at the same zoom changes nothing. */
  lemma ZoomIsIdempotent<T>(canvas: seq<T>, zoom: real, names: T, regionNames: T)
    requires Distinct(canvas) && names != regionNames
    ensures var once := ZoomedCanvas(canvas, zoom, names, regionNames);
      ZoomedCanvas(once, zoom, names, regionNames) == once
  {

  }
}
