/** The client viewport (`Camera` in src/core/client/Camera.ts and its
    legacy copy src/client/classes/Camera.js): it centres on an entity's
    scaled centre and is then pushed back inside the scaled map, first
    against the zero edge and then against the far edge. The canvas it
    resizes is not part of this model. */
module Viewport {
  import opened Common

  /** The viewport coordinate that puts the scaled centre of a box at
      `p` with extent `s` in the middle of a viewport of extent `view`. */
  function CentreOn(p: real, s: real, view: real, proportion: real): (c: real)
    ensures c + view / 2.0 == p * proportion + s * proportion / 2.0
  {
    (p * proportion) - (view / 2.0) + (s * (proportion / 2.0))
  }

  /** The clamps of `follow` on one axis: a coordinate below 0 becomes 0,
      then one whose far edge passes `limit` is set so that the far edge
      meets `bound`. The x axis passes `mapWidth + 1` as `limit`, the y
      axis `mapHeight`; `bound` is the map extent on both. */
  function Clamp(c: real, view: real, limit: real, bound: real): (r: real)
  {
    var a := if c - view < -view then 0.0 else c;
    if a + view > limit then bound - view else a
  }

  /** The position `follow` leaves, for an entity at `p` with size `s`. */
  function FollowTarget(p: Vec, s: Size, view: Size, proportion: real, bounds: Size): Vec
  {
    Vec(Clamp(CentreOn(p.x, s.width, view.width, proportion), view.width, bounds.width + 1.0, bounds.width),
        Clamp(CentreOn(p.y, s.height, view.height, proportion), view.height, bounds.height, bounds.height))
  }

  /** On a map at least as large as the viewport the camera stays on the
      map: x within [0, mapWidth - width + 1] (the far clamp tolerates one
      extra unit on x), y within [0, mapHeight - height]. */
  lemma FollowStaysOnMap(p: Vec, s: Size, view: Size, proportion: real, bounds: Size)
    requires view.width >= 0.0 && view.height >= 0.0
    requires bounds.width >= view.width && bounds.height >= view.height
    ensures var r := FollowTarget(p, s, view, proportion, bounds);
            && 0.0 <= r.x <= bounds.width - view.width + 1.0
            && 0.0 <= r.y <= bounds.height - view.height
  {
  }

  /** While neither clamp fires, the entity's scaled centre sits exactly in
      the middle of the viewport. */
  lemma FollowCentresInside(p: Vec, s: Size, view: Size, proportion: real, bounds: Size)
    requires var cx := CentreOn(p.x, s.width, view.width, proportion);
             0.0 <= cx && cx + view.width <= bounds.width + 1.0
    requires var cy := CentreOn(p.y, s.height, view.height, proportion);
             0.0 <= cy && cy + view.height <= bounds.height
    ensures var r := FollowTarget(p, s, view, proportion, bounds);
            && r.x + view.width / 2.0 == p.x * proportion + s.width * proportion / 2.0
            && r.y + view.height / 2.0 == p.y * proportion + s.height * proportion / 2.0
  {
  }

  /** The far clamp runs last, so on a map narrower than the viewport (by
      more than the one unit of tolerance on x) the camera ends at a
      negative coordinate, whatever the entity's position. */
  lemma FollowOnSmallMap(p: Vec, s: Size, view: Size, proportion: real, bounds: Size)
    ensures bounds.width + 1.0 < view.width ==>
              FollowTarget(p, s, view, proportion, bounds).x == bounds.width - view.width < 0.0
    ensures bounds.height < view.height ==>
              FollowTarget(p, s, view, proportion, bounds).y == bounds.height - view.height < 0.0
  {
  }

  /** `getEdges()`: the inner rectangle a quarter of the way in from each side. */
  datatype Edges = Edges(left: real, right: real, top: real, bottom: real)

  class Camera {
    var size: Size
    var position: Vec
    var proportion: real
    var mapBoundaries: Size

    /** `position || {x: 0, y: 0}`: an absent position starts at the origin. */
    constructor (size: Size, position: Option<Vec>, mapBoundaries: Size, proportion: real)
      ensures this.size == size && this.mapBoundaries == mapBoundaries && this.proportion == proportion
      ensures this.position == (if position.Some? then position.value else Vec(0.0, 0.0))
    {
      this.size := size;
      this.position := if position.Some? then position.value else Vec(0.0, 0.0);
      this.mapBoundaries := mapBoundaries;
      this.proportion := proportion;
    }

    /** `follow(gameObject)`: both coordinates are overwritten, so the new
        position depends on the entity and the camera's settings only. */
    method Follow(p: Vec, s: Size)
      modifies this
      ensures position == FollowTarget(p, s, size, proportion, mapBoundaries)
      ensures size == old(size) && proportion == old(proportion) && mapBoundaries == old(mapBoundaries)
    {
      position := position.(x := (p.x * proportion) - (size.width / 2.0) + (s.width * (proportion / 2.0)));
      position := position.(y := (p.y * proportion) - (size.height / 2.0) + (s.height * (proportion / 2.0)));
      assert position == Vec(CentreOn(p.x, s.width, size.width, proportion), CentreOn(p.y, s.height, size.height, proportion));
      if position.x - size.width < -size.width {
        position := position.(x := 0.0);
      }
      if position.x + size.width > mapBoundaries.width + 1.0 {
        position := position.(x := mapBoundaries.width - size.width);
      }
      if position.y - size.height < -size.height {
        position := position.(y := 0.0);
      }
      if position.y + size.height > mapBoundaries.height {
        position := position.(y := mapBoundaries.height - size.height);
      }
    }

    /** The edges lie a quarter and three quarters of the way across: the
        middle half of the viewport, centred on the viewport's centre. */
    function GetEdges(): (e: Edges)
      reads this
      ensures e.right - e.left == size.width / 2.0 && e.bottom - e.top == size.height / 2.0
      ensures (e.left + e.right) / 2.0 == Centre(position, size).x
      ensures (e.top + e.bottom) / 2.0 == Centre(position, size).y
    {
      Edges(position.x + (size.width * 0.25), position.x + (size.width * 0.75),
            position.y + (size.height * 0.25), position.y + (size.height * 0.75))
    }
  }

  /** The legacy `getEdges()` reads `x`, `y`, `width` and `height` off the
      camera itself, where they are undefined, so every edge is `NaN`
      (`None` here). */
  datatype LegacyEdges = LegacyEdges(left: Option<real>, right: Option<real>, top: Option<real>, bottom: Option<real>)

  class LegacyCamera {
    var size: Size
    var position: Vec
    var proportion: real
    var mapBoundaries: Size

    constructor (size: Size, position: Option<Vec>, mapBoundaries: Size, proportion: real)
      ensures this.size == size && this.mapBoundaries == mapBoundaries && this.proportion == proportion
      ensures this.position == (if position.Some? then position.value else Vec(0.0, 0.0))
    {
      this.size := size;
      this.position := if position.Some? then position.value else Vec(0.0, 0.0);
      this.mapBoundaries := mapBoundaries;
      this.proportion := proportion;
    }

    /** `follow(player)`: the same centring and clamps as the current camera. */
    method Follow(p: Vec, s: Size)
      modifies this
      ensures position == FollowTarget(p, s, size, proportion, mapBoundaries)
      ensures size == old(size) && proportion == old(proportion) && mapBoundaries == old(mapBoundaries)
    {
      position := position.(x := (p.x * proportion) - (size.width / 2.0) + (s.width * (proportion / 2.0)));
      position := position.(y := (p.y * proportion) - (size.height / 2.0) + (s.height * (proportion / 2.0)));
      assert position == Vec(CentreOn(p.x, s.width, size.width, proportion), CentreOn(p.y, s.height, size.height, proportion));
      if position.x - size.width < -size.width {
        position := position.(x := 0.0);
      }
      if position.x + size.width > mapBoundaries.width + 1.0 {
        position := position.(x := mapBoundaries.width - size.width);
      }
      if position.y - size.height < -size.height {
        position := position.(y := 0.0);
      }
      if position.y + size.height > mapBoundaries.height {
        position := position.(y := mapBoundaries.height - size.height);
      }
    }

    /** Every edge is undefined arithmetic, whatever the camera's state. */
    function GetEdges(): (e: LegacyEdges)
      ensures e.left.None? && e.right.None? && e.top.None? && e.bottom.None?
    {
      LegacyEdges(None, None, None, None)
    }
  }
}
