/** Value objects: positions, sizes, axis-aligned rectangles, colours and fonts.
    Coordinates are real numbers, as the source's `Real` annotations allow
    and as the true division in the centre of a rectangle needs. */
module Values {

  datatype Option<+T> = None | Some(value: T)

  /** The error a failed constructor raises (`ValueError`). */
  datatype ValueError = ValueError

  datatype Result<+T> = Ok(value: T) | Err(error: ValueError)

  /** A point; both coordinates default to 0. */
  datatype Position = Position(x: real := 0.0, y: real := 0.0)

  datatype Size = Size(width: real, height: real)

  /** An axis-aligned rectangle given by its top-left corner and its size.
      Nothing requires the size to be non-negative. */
  datatype Rect = Rect(position: Position, size: Size) {

    function Left(): real { position.x }

    function Right(): real { position.x + size.width }

    function Top(): real { position.y }

    function Bottom(): real { position.y + size.height }

    /** The midpoint, by true (not floor) division. */
    function Center(): (c: Position)
      ensures c.x - Left() == Right() - c.x
      ensures c.y - Top() == Bottom() - c.y
    {
      Position(position.x + size.width / 2.0, position.y + size.height / 2.0)
    }

    /** Inclusive on all four edges. */
    predicate ContainsPoint(point: Position)
    {
      && Left() <= point.x <= Right()
      && Top() <= point.y <= Bottom()
    }

    /** Inclusive too: rectangles that only share an edge intersect. */
    predicate IntersectsWithRect(other: Rect)
    {
      && other.Left() <= Right() && Left() <= other.Right()
      && other.Top() <= Bottom() && Top() <= other.Bottom()
    }

    predicate NonNegative()
    {
      size.width >= 0.0 && size.height >= 0.0
    }
  }

  /** The edges are the corner coordinates and the corner plus the size, and
      a point is inside exactly when it lies between the edges, edges included. */
  lemma EdgesAndContainment(rect: Rect, point: Position)
    ensures rect.Left() == rect.position.x && rect.Right() == rect.position.x + rect.size.width
    ensures rect.Top() == rect.position.y && rect.Bottom() == rect.position.y + rect.size.height
    ensures rect.ContainsPoint(point) <==>
      && rect.position.x <= point.x <= rect.position.x + rect.size.width
      && rect.position.y <= point.y <= rect.position.y + rect.size.height
  {
  }

  /** A rectangle of non-negative size contains its four corners and its centre. */
  lemma CornersAndCenterInside(rect: Rect)
    requires rect.NonNegative()
    ensures rect.ContainsPoint(Position(rect.Left(), rect.Top()))
    ensures rect.ContainsPoint(Position(rect.Right(), rect.Top()))
    ensures rect.ContainsPoint(Position(rect.Left(), rect.Bottom()))
    ensures rect.ContainsPoint(Position(rect.Right(), rect.Bottom()))
    ensures rect.ContainsPoint(rect.Center())
  {
  }

  /** The rectangle (10, 20, 30, 40): its edges, its centre (25, 40), and the
      boundary points just inside and just outside. */
  lemma SampleRect()
    ensures var rect := Rect(Position(10.0, 20.0), Size(30.0, 40.0));
      && rect.Left() == 10.0 && rect.Right() == 40.0
      && rect.Top() == 20.0 && rect.Bottom() == 60.0
      && rect.Center() == Position(25.0, 40.0)
      && rect.ContainsPoint(Position(10.0, 20.0))
      && rect.ContainsPoint(Position(40.0, 60.0))
      && rect.ContainsPoint(Position(11.0, 21.0))
      && !rect.ContainsPoint(Position(9.0, 19.0))
      && !rect.ContainsPoint(Position(41.0, 61.0))
  {
  }

  lemma IntersectsSymmetric(a: Rect, b: Rect)
    ensures a.IntersectsWithRect(b) <==> b.IntersectsWithRect(a)
  {
  }

  /** For rectangles of non-negative size, intersecting means sharing a point
      (edges included). The point contained in both is where the later of the
      two left edges meets the later of the two top edges. */
  lemma {:induction false} IntersectsIffCommonPoint(a: Rect, b: Rect)
    requires a.NonNegative() && b.NonNegative()
    ensures a.IntersectsWithRect(b) <==> exists point :: a.ContainsPoint(point) && b.ContainsPoint(point)
  {
    if a.IntersectsWithRect(b) {
      var x := if a.Left() <= b.Left() then b.Left() else a.Left();
      var y := if a.Top() <= b.Top() then b.Top() else a.Top();
      assert a.ContainsPoint(Position(x, y)) && b.ContainsPoint(Position(x, y));
    }
  }

  /** Whatever their sizes, two rectangles that share a point intersect. */
  lemma CommonPointIntersects(a: Rect, b: Rect, point: Position)
    requires a.ContainsPoint(point) && b.ContainsPoint(point)
    ensures a.IntersectsWithRect(b) && b.IntersectsWithRect(a)
  {
  }

  /** The converse needs non-negative sizes: a rectangle of negative width
      contains no point, yet the edge comparisons let it intersect another. */
  lemma NegativeWidthIntersectsWithoutCommonPoint()
    ensures var a := Rect(Position(10.0, 0.0), Size(-10.0, 0.0));
      var b := Rect(Position(0.0, 0.0), Size(20.0, 0.0));
      && a.IntersectsWithRect(b)
      && forall point :: !a.ContainsPoint(point)
  {
  }

  /** An RGBA colour; only the constructor below builds one. */
  datatype Color = Color(r: int, g: int, b: int, a: int)

  predicate InByteRange(v: int) { 0 <= v <= 255 }

  /** The colour constructor as the source writes it: red, green and blue
      must lie in 0..255 and the constructor fails otherwise, but alpha is
      stored without any check (its range test re-tests red). Alpha defaults
      to 255. */
  function NewColor(r: int, g: int, b: int, a: int := 255): (c: Result<Color>)
    ensures c.Ok? <==> InByteRange(r) && InByteRange(g) && InByteRange(b)
    ensures c.Ok? ==> c.value.r == r && c.value.g == g && c.value.b == b && c.value.a == a
  {
    if r < 0 || 255 < r then Err(ValueError)
    else if g < 0 || 255 < g then Err(ValueError)
    else if b < 0 || 255 < b then Err(ValueError)
    else if r < 0 || 255 < r then Err(ValueError)
    else Ok(Color(r, g, b, a))
  }

  /** The constructor accepts an alpha of 300 and rejects a negative red. */
  lemma NewColorAlphaUnchecked()
    ensures NewColor(10, 20, 30, 300) == Ok(Color(10, 20, 30, 300))
    ensures NewColor(10, 20, 30) == Ok(Color(10, 20, 30, 255))
    ensures NewColor(-1, -1, -1, -1).Err?
  {
  }

  /** The colour constructor with the fourth range check on alpha, as the
      pattern of the other three checks intends. */
  function NewColorChecked(r: int, g: int, b: int, a: int := 255): (c: Result<Color>)
    ensures c.Ok? <==> InByteRange(r) && InByteRange(g) && InByteRange(b) && InByteRange(a)
    ensures c.Ok? ==> c.value == Color(r, g, b, a)
    ensures c.Ok? ==> NewColor(r, g, b, a) == c
  {
    if r < 0 || 255 < r then Err(ValueError)
    else if g < 0 || 255 < g then Err(ValueError)
    else if b < 0 || 255 < b then Err(ValueError)
    else if a < 0 || 255 < a then Err(ValueError)
    else Ok(Color(r, g, b, a))
  }

  /** The font settings a renderer is handed. */
  datatype Font = Font(size: int, name: string, bold: bool)

  /** Fails on a non-positive size or an empty name; bold defaults to false. */
  function NewFont(size: int, name: string, bold: bool := false): (f: Result<Font>)
    ensures f.Ok? <==> size > 0 && name != ""
    ensures f.Ok? ==> f.value.size == size && f.value.name == name && f.value.bold == bold
  {
    if size <= 0 then Err(ValueError)
    else if name == "" then Err(ValueError)
    else Ok(Font(size, name, bold))
  }
}
