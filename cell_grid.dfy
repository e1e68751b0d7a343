/** The cell grid of one image level: an n-dimensional image of size
    `dimensions` cut into blocks of shape `cellDimensions`, the last block
    along each axis truncated to what is left of the image.  Cells are
    numbered by a flat index in which axis 0 varies fastest.  This follows
    imglib2's CellGrid and IntervalIndexer, which the placeholder synthesiser
    consults to find a cell's extent. */
module CellGrids {

  /** Product of the entries of `s`; the empty product is 1. */
  function Product(s: seq<int>): int
  {
    if |s| == 0 then 1 else s[0] * Product(s[1..])
  }

  predicate AllPositive(s: seq<int>)
  {
    forall d :: 0 <= d < |s| ==> s[d] >= 1
  }

  lemma {:induction false} ProductPositive(s: seq<int>)
    requires AllPositive(s)
    ensures Product(s) >= 1
  {
    if |s| > 0 {
      ProductPositive(s[1..]);
      assert s[0] * Product(s[1..]) >= Product(s[1..]);
    }
  }

  /** Number of cells along an axis of `size` voxels cut into blocks of `cell`. */
  function NumCellsAlong(size: int, cell: int): int
    requires size >= 1 && cell >= 1
  {
    (size - 1) / cell + 1
  }

  /** Extent of the last, possibly truncated, cell along an axis. */
  function BorderSize(size: int, cell: int): int
    requires size >= 1 && cell >= 1
  {
    size - (NumCellsAlong(size, cell) - 1) * cell
  }

  /** Flat index to grid position (IntervalIndexer.indexToPosition): every axis
      but the last takes the remainder, the last takes what is left. */
  function IndexToPosition(index: int, dims: seq<int>): (pos: seq<int>)
    requires index >= 0 && |dims| >= 1 && AllPositive(dims)
    ensures |pos| == |dims|
    decreases |dims|
  {
    if |dims| == 1 then [index]
    else [index % dims[0]] + IndexToPosition(index / dims[0], dims[1..])
  }

  /** Grid position to flat index (IntervalIndexer.positionToIndex). */
  function PositionToIndex(pos: seq<int>, dims: seq<int>): int
    requires |pos| == |dims| >= 1
    decreases |dims|
  {
    if |dims| == 1 then pos[0]
    else pos[0] + dims[0] * PositionToIndex(pos[1..], dims[1..])
  }

  predicate InGrid(pos: seq<int>, dims: seq<int>)
  {
    |pos| == |dims| && forall d :: 0 <= d < |dims| ==> 0 <= pos[d] < dims[d]
  }

  lemma DivBelow(a: int, b: int, c: int)
    requires 0 <= a < b * c && b >= 1
    ensures 0 <= a / b < c
  {
    var q := a / b;
    assert b * q + a % b == a;
    assert b * q <= a;
    assert b * q < b * c;
    MulCancel(b, q, c);
  }

  /** Multiplying by a positive factor preserves strict order, and back. */
  lemma MulCancel(b: int, x: int, y: int)
    requires b >= 1 && b * x < b * y
    ensures x < y
  {
  }

  /** `q` and `r` are the quotient and remainder of `r + b * q` divided by `b`. */
  lemma DivModUnique(q: int, r: int, b: int)
    requires b >= 1 && 0 <= r < b && q >= 0
    ensures (r + b * q) / b == q && (r + b * q) % b == r
  {
    var a := r + b * q;
    var q', r' := a / b, a % b;
    assert a == b * q' + r' && 0 <= r' < b;
    assert b * q < b * (q' + 1) by {
      assert b * (q' + 1) == b * q' + b;
    }
    assert b * q' < b * (q + 1) by {
      assert b * (q + 1) == b * q + b;
    }
    MulCancel(b, q, q' + 1);
    MulCancel(b, q', q + 1);
  }

  /** Decoding an index below the number of cells gives a position inside the grid. */
  lemma {:induction false} IndexToPositionInGrid(index: int, dims: seq<int>)
    requires |dims| >= 1 && AllPositive(dims) && 0 <= index < Product(dims)
    ensures InGrid(IndexToPosition(index, dims), dims)
    decreases |dims|
  {
    if |dims| > 1 {
      DivBelow(index, dims[0], Product(dims[1..]));
      IndexToPositionInGrid(index / dims[0], dims[1..]);
    }
  }

  /** Encoding undoes decoding, for every non-negative index. */
  lemma {:induction false} PositionToIndexOfIndexToPosition(index: int, dims: seq<int>)
    requires index >= 0 && |dims| >= 1 && AllPositive(dims)
    ensures PositionToIndex(IndexToPosition(index, dims), dims) == index
    decreases |dims|
  {
    if |dims| > 1 {
      var pos := IndexToPosition(index, dims);
      assert pos[1..] == IndexToPosition(index / dims[0], dims[1..]);
      PositionToIndexOfIndexToPosition(index / dims[0], dims[1..]);
    }
  }

  /** Every position inside the grid encodes to an index below the number of cells. */
  lemma {:induction false} PositionToIndexInRange(pos: seq<int>, dims: seq<int>)
    requires |dims| >= 1 && AllPositive(dims) && InGrid(pos, dims)
    ensures 0 <= PositionToIndex(pos, dims) < Product(dims)
    decreases |dims|
  {
    if |dims| > 1 {
      PositionToIndexInRange(pos[1..], dims[1..]);
      MixedRadixBound(pos[0], dims[0], PositionToIndex(pos[1..], dims[1..]), Product(dims[1..]));
    }
  }

  /** One digit below its radix plus the radix times a number below `p`
      stays below `b * p`. */
  lemma MixedRadixBound(x: int, b: int, r: int, p: int)
    requires 0 <= x < b && 0 <= r < p
    ensures 0 <= x + b * r < b * p
  {
    assert b * r <= b * (p - 1);
    assert b * (p - 1) + b == b * p;
  }

  /** Decoding undoes encoding on positions inside the grid: with
      PositionToIndexOfIndexToPosition and PositionToIndexInRange, the two maps
      are a bijection between 0 .. Product(dims) - 1 and the grid positions. */
  lemma {:induction false} IndexToPositionOfPositionToIndex(pos: seq<int>, dims: seq<int>)
    requires |dims| >= 1 && AllPositive(dims) && InGrid(pos, dims)
    ensures PositionToIndex(pos, dims) >= 0
    ensures IndexToPosition(PositionToIndex(pos, dims), dims) == pos
    decreases |dims|
  {
    PositionToIndexInRange(pos, dims);
    if |dims| > 1 {
      var rest := PositionToIndex(pos[1..], dims[1..]);
      PositionToIndexInRange(pos[1..], dims[1..]);
      IndexToPositionOfPositionToIndex(pos[1..], dims[1..]);
      DivModUnique(rest, pos[0], dims[0]);
      IndexToPositionStep(PositionToIndex(pos, dims), dims);
      assert pos == [pos[0]] + pos[1..];
    }
  }

  /** One unfolding of IndexToPosition. */
  lemma IndexToPositionStep(index: int, dims: seq<int>)
    requires index >= 0 && |dims| >= 2 && AllPositive(dims)
    ensures IndexToPosition(index, dims) == [index % dims[0]] + IndexToPosition(index / dims[0], dims[1..])
  {
  }

  /** Along one axis, the cell at grid position `p` starts inside the image,
      has at least one and at most `cell` voxels, and ends inside the image;
      the last cell ends exactly at the image boundary. */
  lemma AxisCellInside(size: int, cell: int, p: int)
    requires size >= 1 && cell >= 1 && 0 <= p < NumCellsAlong(size, cell)
    ensures var w := if p + 1 == NumCellsAlong(size, cell) then BorderSize(size, cell) else cell;
      0 <= p * cell && 1 <= w <= cell && p * cell + w <= size
      && (p + 1 == NumCellsAlong(size, cell) ==> p * cell + w == size)
  {
    var q := (size - 1) / cell;
    assert cell * q + (size - 1) % cell == size - 1;
    if p + 1 != NumCellsAlong(size, cell) {
      assert p + 1 <= q;
      assert (p + 1) * cell <= q * cell;
    }
  }

  datatype CellGrid = CellGrid(dimensions: seq<int>, cellDimensions: seq<int>)
  {
    predicate Valid()
    {
      && |dimensions| >= 1
      && |cellDimensions| == |dimensions|
      && AllPositive(dimensions)
      && AllPositive(cellDimensions)
    }

    /** Number of cells along each axis. */
    function GridDimensions(): (g: seq<int>)
      requires Valid()
      ensures |g| == |dimensions| && AllPositive(g)
    {
      seq(|dimensions|, d requires 0 <= d < |dimensions| => NumCellsAlong(dimensions[d], cellDimensions[d]))
    }

    /** Total number of cells; valid flat indices are 0 .. NumCells() - 1. */
    function NumCells(): int
      requires Valid()
    {
      Product(GridDimensions())
    }

    /** The grid position of the cell with flat index `index` (getCellGridPositionFlat). */
    function CellGridPositionFlat(index: int): (pos: seq<int>)
      requires Valid() && index >= 0
      ensures |pos| == |dimensions|
      ensures PositionToIndex(pos, GridDimensions()) == index
    {
      PositionToIndexOfIndexToPosition(index, GridDimensions());
      IndexToPosition(index, GridDimensions())
    }

    /** The minimum voxel coordinate of the cell at `pos` (getCellDimensions, cellMin). */
    function CellMin(pos: seq<int>): (m: seq<int>)
      requires Valid() && |pos| == |dimensions|
      ensures |m| == |dimensions|
    {
      seq(|pos|, d requires 0 <= d < |pos| => pos[d] * cellDimensions[d])
    }

    /** The voxel extent of the cell at `pos`: the border size on the last cell
        of an axis, the nominal cell size elsewhere (getCellDimensions, cellDims). */
    function CellDims(pos: seq<int>): (w: seq<int>)
      requires Valid() && |pos| == |dimensions|
      ensures |w| == |dimensions|
    {
      seq(|pos|, d requires 0 <= d < |pos| =>
        if pos[d] + 1 == NumCellsAlong(dimensions[d], cellDimensions[d])
        then BorderSize(dimensions[d], cellDimensions[d])
        else cellDimensions[d])
    }

    /** The cell at a grid position starts inside the image, has a positive,
        at most nominal, extent on every axis and ends inside the image; on
        the last cell of an axis it ends exactly at the image boundary. */
    lemma CellExtent(pos: seq<int>)
      requires Valid() && InGrid(pos, GridDimensions())
      ensures var m, w := CellMin(pos), CellDims(pos);
        forall d :: 0 <= d < |dimensions| ==>
          && 0 <= m[d] && 1 <= w[d] <= cellDimensions[d] && m[d] + w[d] <= dimensions[d]
          && (pos[d] + 1 == GridDimensions()[d] ==> m[d] + w[d] == dimensions[d])
    {
      forall d | 0 <= d < |dimensions|
        ensures 0 <= CellMin(pos)[d] && 1 <= CellDims(pos)[d] <= cellDimensions[d]
          && CellMin(pos)[d] + CellDims(pos)[d] <= dimensions[d]
          && (pos[d] + 1 == GridDimensions()[d] ==> CellMin(pos)[d] + CellDims(pos)[d] == dimensions[d])
      {
        AxisCellInside(dimensions[d], cellDimensions[d], pos[d]);
      }
    }

    /** Every in-range flat index names a cell that lies inside the image and
        has a positive, at most nominal, extent on every axis. */
    lemma CellInsideImage(index: int)
      requires Valid() && 0 <= index < NumCells()
      ensures var pos := CellGridPositionFlat(index);
        var m, w := CellMin(pos), CellDims(pos);
        InGrid(pos, GridDimensions()) &&
        forall d :: 0 <= d < |dimensions| ==>
          0 <= m[d] && 1 <= w[d] <= cellDimensions[d] && m[d] + w[d] <= dimensions[d]
    {
      IndexToPositionInGrid(index, GridDimensions());
      CellExtent(CellGridPositionFlat(index));
    }
  }
}
