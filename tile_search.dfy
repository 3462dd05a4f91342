/** Tiles, positions and the two "nearest tile" scans of the enemy controller
    (FindNearestTile and GetOffsetTile in Assets/Scripts/Enemy.cs).

    Positions are exact reals and distances are compared through the squared
    Euclidean distance: the square root is monotone, so `d1 < d2` on distances
    and on squared distances always agree. */
module TileSearch {

  /** Stands in for a nullable reference. */
  datatype Option<+T> = None | Some(value: T)

  /** A world-space position (Unity's Vector3). */
  datatype Vec3 = Vec3(x: real, y: real, z: real)

  /** A map cell: where its game object stands and whether it can be walked on. */
  datatype Tile = Tile(position: Vec3, walkable: bool)

  /** The square of Vector3.Distance(a, b). */
  function SqDistance(a: Vec3, b: Vec3): (d: real)
    ensures d >= 0.0
  {
    (a.x - b.x) * (a.x - b.x) + (a.y - b.y) * (a.y - b.y) + (a.z - b.z) * (a.z - b.z)
  }

  /** `p + new Vector3(offset, 0, 0)`. */
  function OffsetPosition(p: Vec3, offset: int): Vec3 {
    Vec3(p.x + offset as real, p.y, p.z)
  }

  /** The map's children as enumerated, each with its Tile component or None
      when the child has none. This predicate says that some child is a tile. */
  ghost predicate HasTile(children: seq<Option<Tile>>) {
    exists i :: 0 <= i < |children| && children[i].Some?
  }

  /** Child `k` is a tile, no tile is strictly closer to `pos`, and every tile
      enumerated before it is strictly farther: the tile a left-to-right scan
      with a strict `<` keeps. */
  ghost predicate IsFirstNearest(children: seq<Option<Tile>>, pos: Vec3, k: int) {
    && 0 <= k < |children|
    && children[k].Some?
    && (forall j :: 0 <= j < |children| && children[j].Some? ==>
          SqDistance(pos, children[k].value.position) <= SqDistance(pos, children[j].value.position))
    && (forall j :: 0 <= j < k && children[j].Some? ==>
          SqDistance(pos, children[k].value.position) < SqDistance(pos, children[j].value.position))
  }

  /** At most one child is the first nearest tile. */
  lemma FirstNearestUnique(children: seq<Option<Tile>>, pos: Vec3, k1: int, k2: int)
    requires IsFirstNearest(children, pos, k1) && IsFirstNearest(children, pos, k2)
    ensures k1 == k2
  {
  }

  /** Reference definition of the nearest tile, written as a right fold that
      keeps the head on a tie (`<=`): the earliest of the closest tiles. */
  function Nearest(children: seq<Option<Tile>>, pos: Vec3): Option<Tile>
    decreases |children|
  {
    if children == [] then None
    else
      var rest := Nearest(children[1..], pos);
      match children[0]
      case None => rest
      case Some(t) =>
        if rest.None? || SqDistance(pos, t.position) <= SqDistance(pos, rest.value.position) then Some(t)
        else rest
  }

  /** There is no nearest tile exactly when no child carries a tile. */
  lemma {:induction false} NearestNoneIff(children: seq<Option<Tile>>, pos: Vec3)
    ensures Nearest(children, pos).None? <==> !HasTile(children)
    decreases |children|
  {
    if children != [] {
      NearestNoneIff(children[1..], pos);
      HasTileCons(children);
    }
  }

  /** The nearest tile is the first of the closest tiles. */
  lemma {:induction false} NearestIsFirstNearest(children: seq<Option<Tile>>, pos: Vec3)
    ensures Nearest(children, pos).Some? ==>
      exists k :: IsFirstNearest(children, pos, k) && children[k] == Nearest(children, pos)
    decreases |children|
  {
    if children != [] {
      var rest := Nearest(children[1..], pos);
      NearestIsFirstNearest(children[1..], pos);
      NearestNoneIff(children[1..], pos);
      if rest.Some? {
        var k :| IsFirstNearest(children[1..], pos, k) && children[1..][k] == rest;
        assert children[k + 1] == rest;
        if children[0].None? || SqDistance(pos, rest.value.position) < SqDistance(pos, children[0].value.position) {
          FirstNearestShift(children, pos, k);
        } else {
          FirstNearestHead(children, pos, k);
        }
      } else if children[0].Some? {
        OnlyTileIsHead(children, pos);
      }
    }
  }

  lemma HasTileCons(children: seq<Option<Tile>>)
    requires children != []
    ensures HasTile(children) <==> children[0].Some? || HasTile(children[1..])
  {
    if HasTile(children) && children[0].None? {
      var i :| 0 <= i < |children| && children[i].Some?;
      assert children[1..][i - 1].Some?;
    }
    if HasTile(children[1..]) {
      var i :| 0 <= i < |children[1..]| && children[1..][i].Some?;
      assert children[i + 1].Some?;
    }
  }

  /** The tail's first nearest tile stays first nearest when the head is not
      a strictly closer tile. */
  lemma FirstNearestShift(children: seq<Option<Tile>>, pos: Vec3, k: int)
    requires children != [] && IsFirstNearest(children[1..], pos, k)
    requires children[0].None? ||
      SqDistance(pos, children[k + 1].value.position) < SqDistance(pos, children[0].value.position)
    ensures IsFirstNearest(children, pos, k + 1)
  {
    var tail := children[1..];
    assert children[k + 1] == tail[k];
    forall j | 1 <= j < |children| && children[j].Some?
      ensures SqDistance(pos, children[k + 1].value.position) <= SqDistance(pos, children[j].value.position)
    {
      assert tail[j - 1] == children[j];
    }
    forall j | 1 <= j < k + 1 && children[j].Some?
      ensures SqDistance(pos, children[k + 1].value.position) < SqDistance(pos, children[j].value.position)
    {
      assert tail[j - 1] == children[j];
    }
  }

  /** A head tile no farther than the tail's first nearest tile is itself the
      first nearest. */
  lemma FirstNearestHead(children: seq<Option<Tile>>, pos: Vec3, k: int)
    requires children != [] && children[0].Some? && IsFirstNearest(children[1..], pos, k)
    requires SqDistance(pos, children[0].value.position) <= SqDistance(pos, children[k + 1].value.position)
    ensures IsFirstNearest(children, pos, 0)
  {
    var tail := children[1..];
    assert children[k + 1] == tail[k];
    forall j | 1 <= j < |children| && children[j].Some?
      ensures SqDistance(pos, children[0].value.position) <= SqDistance(pos, children[j].value.position)
    {
      assert tail[j - 1] == children[j];
    }
  }

  /** A head tile followed by no other tile is the first nearest. */
  lemma OnlyTileIsHead(children: seq<Option<Tile>>, pos: Vec3)
    requires children != [] && children[0].Some? && !HasTile(children[1..])
    ensures IsFirstNearest(children, pos, 0)
  {
    forall j | 1 <= j < |children|
      ensures children[j].None?
    {
      assert children[1..][j - 1] == children[j];
    }
  }

  /** Enemy.FindNearestTile: one pass over the map's children that keeps the
      tile whose distance is strictly below the closest seen so far. */
  method FindNearestTile(children: seq<Option<Tile>>, position: Vec3) returns (nearest: Option<Tile>)
    ensures nearest == Nearest(children, position)
  {
    nearest := None;
    var closest: Option<real> := None;  // None stands for Mathf.Infinity
    ghost var k := 0;
    for i := 0 to |children|
      invariant nearest.None? <==> !HasTile(children[..i])
      invariant nearest.None? <==> closest.None?
      invariant nearest.Some? ==>
        && IsFirstNearest(children[..i], position, k)
        && children[k] == nearest
        && closest == Some(SqDistance(position, nearest.value.position))
    {
      assert children[..i + 1] == children[..i] + [children[i]];
      if children[i].Some? {
        var d := SqDistance(position, children[i].value.position);
        if closest.None? || d < closest.value {
          closest := Some(d);
          nearest := children[i];
          k := i;
        }
      }
    }
    assert children[..|children|] == children;
    ghost var r := Nearest(children, position);
    NearestNoneIff(children, position);
    NearestIsFirstNearest(children, position);
    if r.Some? {
      ghost var k' :| IsFirstNearest(children, position, k') && children[k'] == r;
      FirstNearestUnique(children, position, k, k');
    }
  }

  /** Enemy.GetOffsetTile: the tile nearest to `originTile`'s position shifted
      by `offset` along x. Enemy.cs repeats FindNearestTile's loop with the
      shifted position; here the scan is shared. */
  method GetOffsetTile(children: seq<Option<Tile>>, originTile: Tile, offset: int) returns (nearestOffset: Option<Tile>)
    ensures nearestOffset == Nearest(children, OffsetPosition(originTile.position, offset))
  {
    var targetPosition := OffsetPosition(originTile.position, offset);
    nearestOffset := FindNearestTile(children, targetPosition);
  }
}
