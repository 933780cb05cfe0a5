/** The 10x10 grid of tiles: each tile's coordinates, image tag and "x,y" location. */
module Tiles {
  import opened Text

  const Untouched := "circle.fill"
  const HitImage := "face.smiling"
  const MissImage := "x.circle"

  predicate IsImage(image: string) {
    image == Untouched || image == HitImage || image == MissImage
  }

  /** The location string of a tile: `String(x) + "," + String(y)`. */
  function Location(x: int, y: int): (s: string)
    ensures IndexOf(s, ',') == |IntToString(x)| < |s|
    ensures s[..|IntToString(x)|] == IntToString(x) && s[|IntToString(x)| + 1..] == IntToString(y)
  {
    IndexOfSeparator(IntToString(x), ',', IntToString(y));
    IntToString(x) + "," + IntToString(y)
  }

  /** How the receiving side reads a location back: two integers around the first comma. */
  function ParseLocation(s: string): Option<(int, int)> {
    var k := IndexOf(s, ',');
    if k == |s| then None
    else match (ParseInt(s[..k]), ParseInt(s[k + 1..]))
      case (Some(x), Some(y)) => Some((x, y))
      case _ => None
  }

  lemma LocationRoundTrip(x: int, y: int)
    ensures ParseLocation(Location(x, y)) == Some((x, y))
  {
    IntRoundTrip(x);
    IntRoundTrip(y);
  }

  /** Two tiles have the same location exactly when they have the same coordinates. */
  lemma LocationInjective(x1: int, y1: int, x2: int, y2: int)
    ensures Location(x1, y1) == Location(x2, y2) <==> x1 == x2 && y1 == y2
  {
    LocationRoundTrip(x1, y1);
    LocationRoundTrip(x2, y2);
  }

  /** A tile; its random `id` is not modelled. */
  datatype Tile = Tile(x: int, y: int, image: string, location: string)

  /** `Tile.init(x:y:)`. */
  function NewTile(x: int, y: int): (t: Tile)
    ensures t.x == x && t.y == y && t.image == Untouched
    ensures ParseLocation(t.location) == Some((x, y))
  {
    LocationRoundTrip(x, y);
    Tile(x, y, Untouched, Location(x, y))
  }

  /** `g` is an n-by-n grid just as `Board.init` leaves it. */
  predicate IsFreshGrid(g: seq<seq<Tile>>, n: nat) {
    |g| == n && forall x :: 0 <= x < n ==> |g[x]| == n && forall y :: 0 <= y < n ==> g[x][y] == NewTile(x, y)
  }

  /** `g` is an n-by-n grid whose tile at [x][y] keeps coordinates x, y and location "x,y";
      only the images may have changed, and each is one of the three tags. */
  predicate IsGrid(g: seq<seq<Tile>>, n: nat) {
    |g| == n && forall x :: 0 <= x < n ==> |g[x]| == n && forall y :: 0 <= y < n ==>
      g[x][y].x == x && g[x][y].y == y && g[x][y].location == Location(x, y) && IsImage(g[x][y].image)
  }

  /** The nested loops of `Board.init`. */
  method BuildGrid(n: nat) returns (tiles: seq<seq<Tile>>)
    ensures IsFreshGrid(tiles, n)
  {
    tiles := [];
    for x := 0 to n
      invariant |tiles| == x
      invariant forall i :: 0 <= i < x ==> |tiles[i]| == n && forall j :: 0 <= j < n ==> tiles[i][j] == NewTile(i, j)
    {
      var tileRow := [];
      for y := 0 to n
        invariant |tileRow| == y
        invariant forall j :: 0 <= j < y ==> tileRow[j] == NewTile(x, j)
      {
        tileRow := tileRow + [NewTile(x, y)];
      }
      tiles := tiles + [tileRow];
    }
  }

  lemma FreshGridIsGrid(g: seq<seq<Tile>>, n: nat)
    requires IsFreshGrid(g, n)
    ensures IsGrid(g, n)
    ensures forall x, y :: 0 <= x < n && 0 <= y < n ==> g[x][y].image == Untouched
  {
  }

  /** No two tiles of a grid share a location, however often their images have changed. */
  lemma GridLocationsDistinct(g: seq<seq<Tile>>, n: nat, x1: nat, y1: nat, x2: nat, y2: nat)
    requires IsGrid(g, n) && x1 < n && y1 < n && x2 < n && y2 < n
    ensures g[x1][y1].location == g[x2][y2].location <==> x1 == x2 && y1 == y2
  {
    LocationInjective(x1, y1, x2, y2);
  }

  /** Changing the image of one tile to one of the three tags keeps the grid a grid. */
  lemma SetImageKeepsGrid(g: seq<seq<Tile>>, n: nat, x: nat, y: nat, image: string)
    requires IsGrid(g, n) && x < n && y < n && IsImage(image)
    ensures IsGrid(g[x := g[x][y := g[x][y].(image := image)]], n)
  {
  }

  class Board {
    const boardSize: nat := 10
    var tiles: seq<seq<Tile>>

    ghost predicate Valid()
      reads this
    {
      IsGrid(tiles, boardSize)
    }

    constructor ()
      ensures IsFreshGrid(tiles, boardSize) && Valid()
    {
      var grid := BuildGrid(boardSize);
      FreshGridIsGrid(grid, boardSize);
      tiles := grid;
    }

    /** The write-back of `tile.image = image` through the tile's binding. */
    method SetImage(x: nat, y: nat, image: string)
      requires Valid() && x < boardSize && y < boardSize && IsImage(image)
      modifies this
      ensures Valid()
      ensures tiles == old(tiles)[x := old(tiles)[x][y := old(tiles)[x][y].(image := image)]]
    {
      SetImageKeepsGrid(tiles, boardSize, x, y, image);
      tiles := tiles[x := tiles[x][y := tiles[x][y].(image := image)]];
    }
  }
}
