/** providers/game_of_life.py: Conway's Game of Life on a torus of `height` rows and `width`
    columns, with a count of generations and of consecutive generations without change. The random
    start is an input: `draws[y][x]` is the outcome of `random.random() < density` for that cell. */
module GameOfLife {

  /** `height` rows of `width` cells each. */
  predicate Shaped(g: seq<seq<bool>>, height: nat, width: nat) {
    |g| == height && forall y :: 0 <= y < height ==> |g[y]| == width
  }

  /** 1 if the cell at (y + dy, x + dx), wrapped around both edges, is alive. */
  function LiveAt(g: seq<seq<bool>>, width: nat, y: int, x: int, dy: int, dx: int): (n: int)
    requires |g| > 0 && width > 0 && Shaped(g, |g|, width)
    ensures 0 <= n <= 1
  {
    if g[(y + dy) % |g|][(x + dx) % width] then 1 else 0
  }

  /** The 3-by-3 kernel of ones with a zero centre, convolved with wrap-around. */
  function Neighbours(g: seq<seq<bool>>, width: nat, y: int, x: int): (n: int)
    requires |g| > 0 && width > 0 && Shaped(g, |g|, width)
  {
    LiveAt(g, width, y, x, -1, -1) + LiveAt(g, width, y, x, -1, 0) + LiveAt(g, width, y, x, -1, 1) +
    LiveAt(g, width, y, x, 0, -1) + LiveAt(g, width, y, x, 0, 1) +
    LiveAt(g, width, y, x, 1, -1) + LiveAt(g, width, y, x, 1, 0) + LiveAt(g, width, y, x, 1, 1)
  }

  /** `survives | births` for one cell. */
  predicate Lives(alive: bool, neighbours: int) {
    (alive && (neighbours == 2 || neighbours == 3)) || (!alive && neighbours == 3)
  }

  /** The next generation of the whole grid. */
  function Next(g: seq<seq<bool>>, width: nat): (r: seq<seq<bool>>)
    requires Shaped(g, |g|, width)
    ensures Shaped(r, |g|, width)
  {
    if |g| == 0 || width == 0 then g
    else seq(|g|, y requires 0 <= y < |g| =>
           seq(width, x requires 0 <= x < width => Lives(g[y][x], Neighbours(g, width, y, x))))
  }

  /** `np.any(grid)`. */
  predicate AnyAlive(g: seq<seq<bool>>)
  {
    if |g| == 0 then false else AnyAlive(g[..|g| - 1]) || true in g[|g| - 1]
  }

  lemma {:induction false} AnyAliveMeaning(g: seq<seq<bool>>)
    ensures AnyAlive(g) <==> exists y, x :: 0 <= y < |g| && 0 <= x < |g[y]| && g[y][x]
    decreases |g|
  {
    if |g| > 0 {
      var init := g[..|g| - 1];
      AnyAliveMeaning(init);
      if true in g[|g| - 1] {
        var x :| 0 <= x < |g[|g| - 1]| && g[|g| - 1][x];
        assert g[|g| - 1][x];
      }
      if exists y, x :: 0 <= y < |g| && 0 <= x < |g[y]| && g[y][x] {
        var y, x :| 0 <= y < |g| && 0 <= x < |g[y]| && g[y][x];
        if y < |g| - 1 {
          assert init[y][x];
        } else {
          assert g[|g| - 1][x] == true;
        }
      }
    }
  }

  /** After `step`, a cell is alive iff it was alive with two or three live neighbours, or dead with
      exactly three; every neighbour count is between 0 and 8. */
  lemma NextCell(g: seq<seq<bool>>, width: nat, y: nat, x: nat)
    requires |g| > 0 && width > 0 && Shaped(g, |g|, width) && y < |g| && x < width
    ensures 0 <= Neighbours(g, width, y, x) <= 8
    ensures Next(g, width)[y][x] <==> ((g[y][x] && 2 <= Neighbours(g, width, y, x) <= 3)
                                    || (!g[y][x] && Neighbours(g, width, y, x) == 3))
    ensures Neighbours(g, width, y, x) < 2 || Neighbours(g, width, y, x) > 3 ==> !Next(g, width)[y][x]
  {
  }

  /** A cell's neighbours are counted across the edges: the top-left cell sees the bottom-right one. */
  lemma CornersTouch(g: seq<seq<bool>>, width: nat)
    requires |g| > 0 && width > 0 && Shaped(g, |g|, width)
    ensures LiveAt(g, width, 0, 0, -1, -1) == (if g[|g| - 1][width - 1] then 1 else 0)
  {
  }

  /** An empty grid stays empty. */
  lemma EmptyStaysEmpty(g: seq<seq<bool>>, width: nat)
    requires Shaped(g, |g|, width) && !AnyAlive(g)
    ensures Next(g, width) == g
  {
    AnyAliveMeaning(g);
    if |g| > 0 && width > 0 {
      var r := Next(g, width);
      forall y | 0 <= y < |g|
        ensures r[y] == g[y]
      {
        forall x | 0 <= x < width
          ensures r[y][x] == g[y][x]
        {
          assert !g[y][x];
          NoLiveNeighbours(g, width, y, x);
        }
      }
    }
  }

  lemma NoLiveNeighbours(g: seq<seq<bool>>, width: nat, y: int, x: int)
    requires |g| > 0 && width > 0 && Shaped(g, |g|, width)
    requires forall i, j :: 0 <= i < |g| && 0 <= j < |g[i]| ==> !g[i][j]
    ensures Neighbours(g, width, y, x) == 0
  {
  }

  /** `GameOfLife`: the grid is replaced by each `step`; `generation` counts steps and
      `stableCount` the steps since the grid last changed. */
  class GameOfLife {
    const width: nat
    const height: nat
    const maxStableGenerations: nat
    var grid: seq<seq<bool>>
    var generation: nat
    var stableCount: nat

    predicate Valid()
      reads this
    {
      Shaped(grid, height, width) && maxStableGenerations == 50
    }

    constructor(width: nat, height: nat, draws: seq<seq<bool>>)
      requires Shaped(draws, height, width)
      ensures Valid() && this.width == width && this.height == height
      ensures grid == draws && generation == 0 && stableCount == 0
    {
      this.width := width;
      this.height := height;
      maxStableGenerations := 50;
      grid := seq(height, _ => seq(width, _ => false));
      generation := 0;
      stableCount := 0;
      new;
      InitializeRandomGrid(draws);
    }

    /** `_initialize_random_grid()`: writes every cell, row by row, then zeroes the counters. */
    method InitializeRandomGrid(draws: seq<seq<bool>>)
      requires Valid() && Shaped(draws, height, width)
      modifies this
      ensures Valid() && grid == draws && generation == 0 && stableCount == 0
    {
      for y := 0 to height
        invariant Valid()
        invariant forall i :: 0 <= i < y ==> grid[i] == draws[i]
      {
        for x := 0 to width
          invariant Valid()
          invariant forall i :: 0 <= i < y ==> grid[i] == draws[i]
          invariant grid[y][..x] == draws[y][..x]
        {
          grid := grid[y := grid[y][x := draws[y][x]]];
        }
        assert grid[y] == grid[y][..width];
      }
      generation := 0;
      stableCount := 0;
    }

    /** `step()`: replaces the grid by the next generation and reports whether it changed. */
    method Step() returns (changed: bool)
      requires Valid()
      modifies this
      ensures Valid() && grid == Next(old(grid), width)
      ensures changed <==> grid != old(grid)
      ensures generation == old(generation) + 1
      ensures stableCount == if changed then 0 else old(stableCount) + 1
    {
      var newGrid := Next(grid, width);
      changed := grid != newGrid;
      grid := newGrid;
      generation := generation + 1;
      if !changed {
        stableCount := stableCount + 1;
      } else {
        stableCount := 0;
      }
    }

    /** `is_stable_or_empty()`. */
    function IsStableOrEmpty(): (r: bool)
      reads this
      requires Valid()
      ensures r <==> stableCount >= 50 || forall y, x :: 0 <= y < height && 0 <= x < width ==> !grid[y][x]
    {
      AnyAliveMeaning(grid);
      stableCount >= maxStableGenerations || !AnyAlive(grid)
    }

    /** `reset()`: a new random start. */
    method Reset(draws: seq<seq<bool>>)
      requires Valid() && Shaped(draws, height, width)
      modifies this
      ensures Valid() && grid == draws && generation == 0 && stableCount == 0
    {
      InitializeRandomGrid(draws);
    }

    /** `get_grid()`: a copy, which later steps leave alone. */
    function GetGrid(): (g: seq<seq<bool>>)
      reads this
      requires Valid()
      ensures Shaped(g, height, width)
    {
      grid
    }
  }
}
