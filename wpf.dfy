/**
 * The few framework value types the message box reads and writes. Sizes are
 * copied between properties, never computed; what matters about them is the
 * validation the framework applies when a size limit is set.
 */
module Wpf {
  import opened Wrappers

  /** A `double` window dimension: a finite number of pixels, `double.PositiveInfinity` or `double.NaN` (auto). */
  datatype Dim = Px(pixels: real) | PositiveInfinity | NaN

  /** `a <= b` as a limit: every finite value lies below infinity. */
  predicate AtMost(a: Dim, b: Dim) {
    match (a, b)
    case (Px(x), Px(y)) => x <= y
    case (Px(_), PositiveInfinity) => true
    case _ => false
  }

  /**
   * The framework's check on `MinWidth` and `MinHeight`: a finite number of
   * pixels, at least zero. Any other value makes the setter throw
   * `ArgumentException`.
   */
  predicate ValidMinimum(d: Dim) {
    d.Px? && d.pixels >= 0.0
  }

  /**
   * The framework's check on `MaxWidth` and `MaxHeight`: at least zero, and
   * infinity is allowed; NaN is not.
   */
  predicate ValidMaximum(d: Dim) {
    d == PositiveInfinity || (d.Px? && d.pixels >= 0.0)
  }

  /** The framework's check on `Width` and `Height`: NaN (automatic) or a finite number of pixels, at least zero. */
  predicate ValidSize(d: Dim) {
    d == NaN || (d.Px? && d.pixels >= 0.0)
  }

  /** The size limits, in the order the message box assigns them. */
  datatype LimitProperty = MinWidthProperty | MaxWidthProperty | MinHeightProperty | MaxHeightProperty

  function Rank(p: LimitProperty): nat {
    match p
    case MinWidthProperty => 0
    case MaxWidthProperty => 1
    case MinHeightProperty => 2
    case MaxHeightProperty => 3
  }

  /**
   * Assigning MinWidth, MaxWidth, MinHeight and MaxHeight in that order: the
   * first limit whose value the framework rejects, where the assignments stop
   * with an `ArgumentException`, or None when all four are taken.
   */
  function RejectedLimit(minWidth: Dim, maxWidth: Dim, minHeight: Dim, maxHeight: Dim): (r: Option<LimitProperty>)
    ensures r.None? <==> ValidMinimum(minWidth) && ValidMaximum(maxWidth) && ValidMinimum(minHeight) && ValidMaximum(maxHeight)
    ensures r == Some(MinWidthProperty) <==> !ValidMinimum(minWidth)
    ensures r == Some(MaxWidthProperty) <==> ValidMinimum(minWidth) && !ValidMaximum(maxWidth)
    ensures r == Some(MinHeightProperty) <==> ValidMinimum(minWidth) && ValidMaximum(maxWidth) && !ValidMinimum(minHeight)
    ensures r == Some(MaxHeightProperty) <==>
              ValidMinimum(minWidth) && ValidMaximum(maxWidth) && ValidMinimum(minHeight) && !ValidMaximum(maxHeight)
  {
    if !ValidMinimum(minWidth) then Some(MinWidthProperty)
    else if !ValidMaximum(maxWidth) then Some(MaxWidthProperty)
    else if !ValidMinimum(minHeight) then Some(MinHeightProperty)
    else if !ValidMaximum(maxHeight) then Some(MaxHeightProperty)
    else Option.None
  }

  /** Whether the limit `p` was assigned before the assignments stopped at `rejected`. */
  predicate AssignedBefore(p: LimitProperty, rejected: Option<LimitProperty>) {
    rejected.None? || Rank(p) < Rank(rejected.value)
  }

  datatype Size = Size(width: Dim, height: Dim)

  datatype Point = Point(x: real, y: real)

  datatype ResizeMode = NoResize | CanMinimize | CanResize | CanResizeWithGrip

  datatype WindowStartupLocation = Manual | CenterScreen | CenterOwner

  datatype SizeToContent = Manual | Width | Height | WidthAndHeight

  /** The theme values the message box refers to; the theming library itself is not part of this model. */
  datatype WindowTheme = Light | Dark | System

  /** An owner window, a style, an image source or a callback: references that are only stored and compared with null. */
  type WindowRef = nat
  type StyleRef = nat
  type ImageSourceRef = nat
  type CallbackRef = nat

  datatype Key = Escape | C | OtherKey(code: nat)

  datatype ModifierKey = Alt | Control | Shift | Windows
}
