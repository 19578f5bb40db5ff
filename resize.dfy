/**
 * The resize bookkeeping of the renderer: the size and offset it last
 * applied, the drawing surface it measures on every frame, and the rule
 * that decides whether the frame must resize first.
 */
module Resize {

  datatype Option<T> = None | Some(value: T)

  /** The `left` and `top` of a bounding client rectangle. */
  datatype Rect = Rect(left: real, top: real)

  /**
   * One measurement of the drawing surface: the drawing width and height,
   * the bounding rectangle when the container or canvas provides one, and
   * whether there is a container or canvas at all (only then does
   * `onWindowResize` call `setSize`).
   */
  datatype Surface = Surface(width: int, height: int, rect: Option<Rect>, hasElement: bool)

  /** What the renderer measures with neither a container nor a canvas: width and height 0, no rectangle. */
  const NoDrawingElement: Surface := Surface(0, 0, None, false)

  /** The renderer's cached `currentSize` (width, height). */
  datatype Size = Size(width: int, height: int)

  /** The renderer's cached `currentOffset` (left, top). */
  datatype Offset = Offset(left: real, top: real)

  /** The size a measurement asks for. */
  function MeasuredSize(s: Surface): Size
  {
    Size(s.width, s.height)
  }

  /** The offset that `resizeIfRequired` compares against: the rectangle's corner, or 0, 0 without one. */
  function MeasuredOffset(s: Surface): Offset
  {
    match s.rect
    case Some(r) => Offset(r.left, r.top)
    case None => Offset(0.0, 0.0)
  }

  /** The four-way comparison in `resizeIfRequired`. */
  predicate ResizeRequired(size: Size, offset: Offset, s: Surface)
    ensures ResizeRequired(size, offset, s) <==> size != MeasuredSize(s) || offset != MeasuredOffset(s)
  {
    var m := MeasuredOffset(s);
    size.width != s.width || size.height != s.height || m.left != offset.left || m.top != offset.top
  }

  /**
   * The WebGL renderer's own size (`renderer.getSize()`) after
   * `onWindowResize`: `setSize` gives it the measured size when there is a
   * container or canvas; otherwise it keeps the size it had.
   */
  function AppliedSize(rendererSize: Size, s: Surface): Size
  {
    if s.hasElement then MeasuredSize(s) else rendererSize
  }

  /**
   * The offset cached by `onWindowResize`: the rectangle's corner when the
   * renderer exists and a rectangle was measured; otherwise the old one.
   */
  function OffsetAfterResize(rendererReady: bool, offset: Offset, s: Surface): (r: Offset)
    ensures rendererReady && s.rect.Some? ==> r == MeasuredOffset(s)
    ensures !(rendererReady && s.rect.Some?) ==> r == offset
  {
    if rendererReady && s.rect.Some? then Offset(s.rect.value.left, s.rect.value.top) else offset
  }

  /**
   * A resize settles: once the renderer exists, measuring the same surface
   * again does not ask for another resize, provided `setSize` was called
   * (or the renderer's own size already is the measured one), and a
   * rectangle is measured (or the cached offset is still the 0, 0 that is
   * compared without one).
   */
  lemma ResizeSettles(offset: Offset, rendererSize: Size, s: Surface)
    requires s.hasElement || rendererSize == MeasuredSize(s)
    requires s.rect.Some? || offset == Offset(0.0, 0.0)
    ensures !ResizeRequired(AppliedSize(rendererSize, s), OffsetAfterResize(true, offset, s), s)
  {
  }

  /**
   * Without a rectangle, a cached offset other than 0, 0 is never
   * overwritten, so every frame asks for a resize again.
   */
  lemma ResizeRepeatsWithStaleOffset(offset: Offset, rendererSize: Size, s: Surface)
    requires s.rect.None? && offset != Offset(0.0, 0.0)
    ensures ResizeRequired(AppliedSize(rendererSize, s), OffsetAfterResize(true, offset, s), s)
  {
  }

  /**
   * With neither a container nor a canvas, `setSize` is never called: the
   * renderer's own size is cached while 0, 0 is measured, so unless that
   * size is 0, 0 every frame asks for a resize again, and the renderer's
   * size stays what it was.
   */
  lemma ResizeRepeatsWithoutElement(offset: Offset, rendererSize: Size)
    requires rendererSize != Size(0, 0)
    ensures AppliedSize(rendererSize, NoDrawingElement) == rendererSize
    ensures ResizeRequired(AppliedSize(rendererSize, NoDrawingElement),
      OffsetAfterResize(true, offset, NoDrawingElement), NoDrawingElement)
  {
  }
}
