/**
  * The Vue wheel controller (`useWheel`): the same wheel rule as the core
  * engine over a scale and a translate held in reactive references, with the
  * coordinate lookups and the projection injected by the component.
  */
module VueWheel {
  import opened Wrappers
  import opened Dom
  import opened Helpers
  import opened Engine

  /** The values of the references an injected callback sees when it is called. */
  datatype View = View(scale: real, translate: Point)

  /** The references `useWheel` is given: scale, translate and the scale limits. */
  class WheelController {
    var scale: real
    var translate: Point
    var minScale: real
    var maxScale: real

    constructor(scale: real, translate: Point, minScale: real, maxScale: real)
      ensures this.scale == scale && this.translate == translate
      ensures this.minScale == minScale && this.maxScale == maxScale
    {
      this.scale := scale;
      this.translate := translate;
      this.minScale := minScale;
      this.maxScale := maxScale;
    }

    function Current(): View
      reads this`scale, this`translate
    {
      View(scale, translate)
    }

    /**
      * `handleWheel`. The raw deltas are used: there is no trackpad test and
      * no notch rewriting. Without `ctrlKey` the translate moves against the
      * deltas. With it the scale takes the clamped zoom step and the translate
      * is what the injected projection returns; both coordinate lookups and
      * the projection see the references as they were before the step.
      */
    method HandleWheel(
      event: WheelEvent,
      relativeWrapperCoordinatesFromClientCoords: (View, Point) -> Point,
      normalizeMatrixCoordinates: (View, Point) -> Point,
      calcProjectionTranslate: (View, real, Point, Point) -> Point)
      modifies this`scale, this`translate
      ensures !event.ctrlKey ==>
                && translate == Point(old(translate).x - event.deltaX, old(translate).y - event.deltaY)
                && scale == old(scale)
      ensures event.ctrlKey ==>
                && scale == ZoomScale(old(scale), event.deltaY, minScale, maxScale)
                && (minScale <= maxScale ==> minScale <= scale <= maxScale)
                && translate == calcProjectionTranslate(
                     old(Current()), scale,
                     relativeWrapperCoordinatesFromClientCoords(old(Current()), event.client),
                     normalizeMatrixCoordinates(old(Current()), event.client))
    {
      var currScale := scale;
      if event.ctrlKey {
        var newScale := ZoomScale(currScale, event.deltaY, minScale, maxScale);
        var t := calcProjectionTranslate(
          Current(), newScale,
          relativeWrapperCoordinatesFromClientCoords(Current(), event.client),
          normalizeMatrixCoordinates(Current(), event.client));
        translate := t;
        scale := newScale;
      } else {
        translate := Point(translate.x - event.deltaX, translate.y - event.deltaY);
      }
    }
  }

  /**
    * The two wheel rules part ways on mouse notches: a 120 line-mode notch
    * with no `wheelDeltaY` pans the Vue controller by 120 but the core engine
    * by 2.4. On trackpad events they pan alike.
    */
  lemma NotchPansDiffer()
    ensures var event := WheelEvent(Point(0.0, 0.0), 0.0, 120.0, 1, false, None);
            && !DetectTrackpad(event)
            && WheelDeltas(event).y == 2.4
            && WheelDeltas(event).y != event.deltaY
    ensures forall event: WheelEvent :: DetectTrackpad(event) ==> WheelDeltas(event) == Point(event.deltaX, event.deltaY)
  {
  }
}
