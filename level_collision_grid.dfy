/**
 * The level's IntGrid collision data (MonoDreams.Examples/Component/Level/LevelCollisionGrid.cs):
 * a width × height array of cell values with a cell size in pixels and a world offset.
 */
module LevelCollision {
  import opened Wrappers
  import opened Vectors
  import opened Numerics

  /** MonoGame's Point. */
  datatype Point = Point(x: int, y: int)

  /** `(int)(local / CellSize)` on one axis. */
  function CellOf(local: real, cellSize: int): int
    requires cellSize != 0
  {
    TruncateToInt32(local / cellSize as real)
  }

  class LevelCollisionGrid {
    const grid: array2<int>
    const width: int
    const height: int
    const cellSize: int
    const worldOffset: Vec2

    /** The array has the grid's dimensions. */
    predicate Valid()
      reads this
    {
      grid.Length0 == width && grid.Length1 == height
    }

    predicate InBounds(cellX: int, cellY: int) {
      0 <= cellX < width && 0 <= cellY < height
    }

    /** `new int[width, height]`: every cell starts passable (0). */
    constructor(width: int, height: int, cellSize: int, worldOffset: Vec2)
      requires width >= 0 && height >= 0
      ensures Valid() && fresh(grid)
      ensures this.width == width && this.height == height
      ensures this.cellSize == cellSize && this.worldOffset == worldOffset
      ensures forall x, y :: InBounds(x, y) ==> grid[x, y] == 0
    {
      this.width := width;
      this.height := height;
      this.cellSize := cellSize;
      this.worldOffset := worldOffset;
      grid := new int[width, height]((x, y) => 0);
    }

    /** GetValue: the cell's value, or 0 (passable) outside the grid. */
    function GetValue(cellX: int, cellY: int): (v: int)
      requires Valid()
      reads this, grid
      ensures !InBounds(cellX, cellY) ==> v == 0
      ensures InBounds(cellX, cellY) ==> v == grid[cellX, cellY]
    {
      if 0 <= cellX < width && 0 <= cellY < height then grid[cellX, cellY] else 0
    }

    /** SetValue: writes one in-bounds cell; outside the grid nothing changes. */
    method SetValue(cellX: int, cellY: int, value: int)
      requires Valid()
      modifies grid
      ensures InBounds(cellX, cellY) ==> GetValue(cellX, cellY) == value
      ensures forall x, y :: InBounds(x, y) && (x, y) != (cellX, cellY) ==> grid[x, y] == old(grid[x, y])
      ensures !InBounds(cellX, cellY) ==> unchanged(grid)
    {
      if 0 <= cellX < width && 0 <= cellY < height {
        grid[cellX, cellY] := value;
      }
    }

    /** WorldToCell: the offset-relative position divided by the cell size, each axis cast to int. */
    function WorldToCell(worldPosition: Vec2): (p: Point)
      requires cellSize != 0
    {
      var localPosition := worldPosition.Minus(worldOffset);
      Point(CellOf(localPosition.x, cellSize), CellOf(localPosition.y, cellSize))
    }

    /** GetValueAtWorldPosition: the value of the cell the position falls in. */
    function GetValueAtWorldPosition(worldPosition: Vec2): (v: int)
      requires Valid() && cellSize != 0
      reads this, grid
      ensures var cell := WorldToCell(worldPosition);
              (InBounds(cell.x, cell.y) ==> v == grid[cell.x, cell.y]) && (!InBounds(cell.x, cell.y) ==> v == 0)
    {
      var cell := WorldToCell(worldPosition);
      GetValue(cell.x, cell.y)
    }
  }

  /**
   * `new LevelCollisionGrid(...)`: the array allocation throws OverflowException for a negative
   * dimension; otherwise a fresh grid of passable cells.
   */
  method NewLevelCollisionGrid(width: int, height: int, cellSize: int, worldOffset: Vec2)
    returns (r: Outcome<LevelCollisionGrid>)
    ensures r.Thrown? <==> width < 0 || height < 0
    ensures r.Returned? ==>
              fresh(r.value) && fresh(r.value.grid) && r.value.Valid() &&
              r.value.width == width && r.value.height == height &&
              r.value.cellSize == cellSize && r.value.worldOffset == worldOffset &&
              forall x, y :: r.value.InBounds(x, y) ==> r.value.GetValue(x, y) == 0
  {
    if width < 0 || height < 0 {
      return Thrown;
    }
    var g := new LevelCollisionGrid(width, height, cellSize, worldOffset);
    r := Returned(g);
  }

  /**
   * For a point inside the grid's area, WorldToCell finds the cell whose square contains it, and
   * that cell is in bounds.
   */
  lemma WorldToCellContains(g: LevelCollisionGrid, worldPosition: Vec2)
    requires g.cellSize > 0 && g.width <= Int32Max && g.height <= Int32Max
    requires 0.0 <= worldPosition.x - g.worldOffset.x < g.width as real * g.cellSize as real
    requires 0.0 <= worldPosition.y - g.worldOffset.y < g.height as real * g.cellSize as real
    ensures var p := g.WorldToCell(worldPosition);
            g.InBounds(p.x, p.y) &&
            p.x as real * g.cellSize as real <= worldPosition.x - g.worldOffset.x < (p.x as real + 1.0) * g.cellSize as real &&
            p.y as real * g.cellSize as real <= worldPosition.y - g.worldOffset.y < (p.y as real + 1.0) * g.cellSize as real
  {
    var p := g.WorldToCell(worldPosition);
    CellOfCoordinate(worldPosition.x - g.worldOffset.x, g.cellSize, g.width, p.x);
    CellOfCoordinate(worldPosition.y - g.worldOffset.y, g.cellSize, g.height, p.y);
  }

  /** One axis of WorldToCellContains. */
  lemma CellOfCoordinate(local: real, cellSize: int, count: int, cell: int)
    requires cellSize > 0 && count <= Int32Max
    requires 0.0 <= local < count as real * cellSize as real
    requires cell == CellOf(local, cellSize)
    ensures 0 <= cell < count
    ensures cell as real * cellSize as real <= local < (cell as real + 1.0) * cellSize as real
  {
    var q := local / cellSize as real;
    QuotientBelow(local, cellSize as real, count as real, q);
    assert cell as real <= q < cell as real + 1.0;
    QuotientBounds(local, cellSize as real, cell as real, q);
  }

  lemma QuotientBelow(local: real, c: real, count: real, q: real)
    requires c > 0.0 && 0.0 <= local < count * c && q == local / c
    ensures 0.0 <= q < count
  {
    assert local == q * c;
    assert count * c - local == (count - q) * c;
    PositiveProduct(count - q, c);
    PositiveProduct(q + 1.0, c);
  }

  lemma QuotientBounds(local: real, c: real, n: real, q: real)
    requires c > 0.0 && q == local / c && n <= q < n + 1.0
    ensures n * c <= local < (n + 1.0) * c
  {
    assert local == q * c;
    var above, below := n + 1.0 - q, q - n;
    PositiveProduct(above, c);
    assert (n + 1.0) * c - local == above * c > 0.0;
    NonNegativeProduct(below, c);
    assert local - n * c == below * c >= 0.0;
  }

  lemma PositiveProduct(a: real, b: real)
    requires b > 0.0
    ensures a > 0.0 <==> a * b > 0.0
  {
  }

  lemma NonNegativeProduct(a: real, b: real)
    requires a >= 0.0 && b > 0.0
    ensures a * b >= 0.0
  {
  }

  /**
   * The cast truncates toward zero, so every point less than one cell to the left of (or above) the
   * grid's origin still maps to cell 0 rather than to a cell outside the grid.
   */
  lemma CellOfTruncatesTowardZero(local: real, cellSize: int)
    requires cellSize > 0 && -(cellSize as real) < local < cellSize as real
    ensures CellOf(local, cellSize) == 0
  {
    var c := cellSize as real;
    var q := local / c;
    assert local == q * c;
    assert (q + 1.0) * c == local + c > 0.0;
    PositiveProduct(q + 1.0, c);
    assert (1.0 - q) * c == c - local > 0.0;
    PositiveProduct(1.0 - q, c);
    assert CellOf(local, cellSize) == TruncateToInt32(q);
    var n := TruncateToInt32(q);
    assert Int32Min as real <= -1.0 < q < 1.0 <= Int32Max as real;
    if q >= 0.0 {
      assert n as real <= q < n as real + 1.0;
      assert -1.0 < n as real < 1.0;
    } else {
      assert n as real - 1.0 < q <= n as real;
      assert -1.0 < n as real < 1.0;
    }
  }
}
