/** Where ApplyToImage anchors the caption and how it aligns it there. */
module Placement {
  import opened Geometry

  datatype HorizontalAlignment = AlignLeft | AlignCenter | AlignRight
  datatype VerticalAlignment = AlignTop | AlignMiddle | AlignBottom

  /** How far the first of two rows is lifted above the second. */
  const FirstRowLift: real := 100.0

  /** The bottom-right anchor: one padding in from the right and bottom edges,
      lifted by `FirstRowLift` for the first row. */
  function Anchor(img: ImageSize, padding: real, firstRow: bool): (p: Point)
    ensures img.width as real - p.x == padding
    ensures img.height as real - p.y == padding + (if firstRow then FirstRowLift else 0.0)
  {
    var corner := Point(img.width as real - padding, img.height as real - padding);
    if firstRow then corner.(y := corner.y - FirstRowLift) else corner
  }

  /** For the same image and padding the first row's anchor sits exactly 100
      above the second row's, in the same column. */
  lemma FirstRowSitsAbove(img: ImageSize, padding: real)
    ensures Anchor(img, padding, true).x == Anchor(img, padding, false).x
    ensures Anchor(img, padding, true).y == Anchor(img, padding, false).y - FirstRowLift
  {
  }
}
