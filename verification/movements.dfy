/**
 * Successor generation for the four movement categories (step forward, step
 * up with a jump, drop down, diagonal step) and the guard logic of their
 * per-tick control. A generator reads a few neighbouring cells from the
 * world oracle, decides whether the edge is feasible, accumulates its cost
 * and the break/place sub-tasks it needs, and appends at most one move.
 */
module Movements {
  import opened Wrappers
  import opened Blocks
  import Handlers

  /** A sub-task as a generator creates it: the arguments of `BreakHandler.fromVec` / `PlaceHandler.fromVec`. */
  datatype Task = Task(pos: Vec3, kind: Handlers.InteractType, offhand: bool)

  /** `fromVec(p, "solid")`, the only sub-task the generators create. */
  function SolidTask(p: Vec3): Task {
    Task(p, Handlers.Solid, false)
  }

  /** What `safeOrBreak` does for one cell: the cost it returns and the breaks it appends. */
  datatype Surcharge = Surcharge(cost: real, breaks: seq<Task>)

  /**
   * The collaborators a generator consults: the block classification, the
   * base class's `safeToBreak` and `safeOrBreak`, and the world's lowest `y`.
   */
  datatype World = World(cells: Cells, safeToBreak: BlockInfo -> bool, safeOrBreak: BlockInfo -> Surcharge, minY: int)

  /** The node a move starts from: its cell and the placeable blocks still available. */
  datatype Node = Node(pos: Vec3, remainingBlocks: int)

  /** The movement categories; the drop-down category carries its two settings. */
  datatype Kind = Forward | ForwardJump | ForwardDropDown(maxDropDown: int, infiniteLiquidDropdownDistance: bool) | Diagonal

  /** `ForwardDropDown` with its field initialisers: `maxDropDown = 3`, `infiniteLiquidDropdownDistance = true`. */
  const DefaultDropDown: Kind := ForwardDropDown(3, true)

  /** A generated edge: the arguments of `Move.fromPrevious(cost, exitPos, start, movement, toPlace, toBreak)`. */
  datatype Move = Move(cost: real, exit: Point, from: Node, kind: Kind, toPlace: seq<Task>, toBreak: seq<Task>)

  /** Candidates costing more than this are discarded. */
  const CostCeiling: real := 100.0
  /** Surcharge for every scheduled placement. */
  const PlaceCost: real := 0.1
  /** Base cost of a diagonal step, the double nearest to the square root of 2. */
  const DiagonalCost: real := 1.4142135623730951
  /** Largest height a jump may climb. */
  const MaxJumpHeight: real := 1.2
  /** Largest amount by which the start may stand higher than a diagonal target. */
  const MaxDiagonalDrop: real := 0.6
  /** Ticks after which a move's per-tick logic gives up. */
  const MaxTicks: int := 160

  /** `getBlockInfo(pos, dx, dy, dz)`. */
  function Info(w: World, p: Vec3, dx: int, dy: int, dz: int): BlockInfo {
    InfoAt(w.cells, p.Offset(dx, dy, dz))
  }

  function OptSeq(o: Option<Move>): (r: seq<Move>)
    ensures |r| <= 1
  {
    if o.Some? then [o.value] else []
  }

  /** What every emitted move satisfies: within the ceiling, from `start`, by `k`, exiting at the centre of a cell in column `start + dir`. */
  predicate Emitted(m: Move, k: Kind, start: Node, dir: Vec3) {
    && m.cost <= CostCeiling
    && m.from == start
    && m.kind == k
    && m.exit.x == (start.pos.x + dir.x) as real + 0.5
    && m.exit.z == (start.pos.z + dir.z) as real + 0.5
    && m.exit.y == m.exit.y.Floor as real
  }

  // ---------------------------------------------------------------- Forward

  /** Forward needs a floor placed at D: D is not physical and C is not liquid. */
  predicate ForwardNeedsFloor(w: World, start: Node, dir: Vec3) {
    !Info(w, start.pos, dir.x, -1, dir.z).physical && !Info(w, start.pos, dir.x, 0, dir.z).liquid
  }

  /** The forward step into `start + dir` (B head, C body, D floor), if feasible. */
  function ForwardEdge(w: World, start: Node, dir: Vec3): (r: Option<Move>)
    ensures r.Some? ==> Emitted(r.value, Forward, start, dir) && r.value.exit == Centre(start.pos.Plus(dir))
    ensures Info(w, start.pos, 0, 0, 0).liquid ==> r.None?
    ensures ForwardNeedsFloor(w, start, dir) && start.remainingBlocks == 0 ==> r.None?
    ensures (ForwardNeedsFloor(w, start, dir) && !Info(w, start.pos, dir.x, -1, dir.z).isReplaceable
             && !w.safeToBreak(Info(w, start.pos, dir.x, -1, dir.z))) ==> r.None?
    ensures r.Some? ==>
      var D := Info(w, start.pos, dir.x, -1, dir.z);
      var sB := w.safeOrBreak(Info(w, start.pos, dir.x, 1, dir.z));
      var sC := w.safeOrBreak(Info(w, start.pos, dir.x, 0, dir.z));
      && r.value.toPlace == (if ForwardNeedsFloor(w, start, dir) then [SolidTask(D.position)] else [])
      && r.value.cost == 1.0 + PlaceCost * |r.value.toPlace| as real + sC.cost + sB.cost
      && r.value.toBreak == (if ForwardNeedsFloor(w, start, dir) && !D.isReplaceable then [SolidTask(D.position)] else [])
                            + sC.breaks + sB.breaks
    ensures r.None? <==> (
      var D := Info(w, start.pos, dir.x, -1, dir.z);
      var base := if ForwardNeedsFloor(w, start, dir) then 1.0 + PlaceCost else 1.0;
      var sC := w.safeOrBreak(Info(w, start.pos, dir.x, 0, dir.z));
      var sB := w.safeOrBreak(Info(w, start.pos, dir.x, 1, dir.z));
      Info(w, start.pos, 0, 0, 0).liquid
      || (ForwardNeedsFloor(w, start, dir) && start.remainingBlocks == 0)
      || (ForwardNeedsFloor(w, start, dir) && !D.isReplaceable && !w.safeToBreak(D))
      || base + sC.cost > CostCeiling
      || base + sC.cost + sB.cost > CostCeiling)
  {
    var pos := start.pos;
    var B := Info(w, pos, dir.x, 1, dir.z);
    var C := Info(w, pos, dir.x, 0, dir.z);
    var D := Info(w, pos, dir.x, -1, dir.z);
    var placeD := ForwardNeedsFloor(w, start, dir);
    var breakD := placeD && !D.isReplaceable;
    var base := if placeD then 1.0 + PlaceCost else 1.0;
    var sC := w.safeOrBreak(C);
    var sB := w.safeOrBreak(B);
    if Info(w, pos, 0, 0, 0).liquid then None
    else if placeD && start.remainingBlocks == 0 then None
    else if breakD && !w.safeToBreak(D) then None
    else if base + sC.cost > CostCeiling || base + sC.cost + sB.cost > CostCeiling then None
    else
      Some(Move(base + sC.cost + sB.cost, Centre(pos.Plus(dir)), start, Forward,
                if placeD then [SolidTask(D.position)] else [],
                (if breakD then [SolidTask(D.position)] else []) + sC.breaks + sB.breaks))
  }

  /** `Forward.getMoveForward`: appends the forward move in direction `dir`, if feasible. */
  method GetMoveForward(w: World, start: Node, dir: Vec3, neighbors: seq<Move>) returns (out: seq<Move>)
    ensures out == neighbors + OptSeq(ForwardEdge(w, start, dir))
  {
    out := neighbors;
    var pos := start.pos;
    if Info(w, pos, 0, 0, 0).liquid {
      return;
    }
    var blockB := Info(w, pos, dir.x, 1, dir.z);
    var blockC := Info(w, pos, dir.x, 0, dir.z);
    var blockD := Info(w, pos, dir.x, -1, dir.z);
    var cost := 1.0;
    var toBreak: seq<Task> := [];
    var toPlace: seq<Task> := [];
    if !blockD.physical && !blockC.liquid {
      if start.remainingBlocks == 0 {
        return;
      }
      if !blockD.isReplaceable {
        if !w.safeToBreak(blockD) {
          return;
        }
        toBreak := toBreak + [SolidTask(blockD.position)];
      }
      toPlace := toPlace + [SolidTask(blockD.position)];
      cost := cost + PlaceCost;
    }
    var s := w.safeOrBreak(blockC);
    cost, toBreak := cost + s.cost, toBreak + s.breaks;
    if cost > CostCeiling {
      return;
    }
    s := w.safeOrBreak(blockB);
    cost, toBreak := cost + s.cost, toBreak + s.breaks;
    if cost > CostCeiling {
      return;
    }
    assert ForwardEdge(w, start, dir).Some?;
    assert ForwardEdge(w, start, dir).value.cost == cost;
    assert ForwardEdge(w, start, dir).value.toPlace == toPlace;
    assert ForwardEdge(w, start, dir).value.toBreak == toBreak;
    out := neighbors + [Move(cost, Centre(pos.Plus(dir)), start, Forward, toPlace, toBreak)];
  }

  // ------------------------------------------------------------ ForwardJump

  /** The jump lands on C, so C must be placed when it is not physical. */
  predicate JumpPlacesC(w: World, start: Node, dir: Vec3) {
    !Info(w, start.pos, dir.x, 0, dir.z).physical
  }

  /** Placing C needs a floor under it too when D is not physical. */
  predicate JumpPlacesD(w: World, start: Node, dir: Vec3) {
    JumpPlacesC(w, start, dir) && !Info(w, start.pos, dir.x, -1, dir.z).physical
  }

  /** Height to climb: C's height (one more if C is placed) above the block under the start. */
  function JumpHeight(w: World, start: Node, dir: Vec3): real {
    Info(w, start.pos, dir.x, 0, dir.z).height + (if JumpPlacesC(w, start, dir) then 1.0 else 0.0)
      - Info(w, start.pos, 0, -1, 0).height
  }

  /** The step up onto `start + dir` (A above the head, H and B the target's head room, C the step, D below it). */
  function JumpEdge(w: World, start: Node, dir: Vec3): (r: Option<Move>)
    ensures r.Some? ==> Emitted(r.value, ForwardJump, start, dir) && r.value.exit == Centre(start.pos.Offset(dir.x, 1, dir.z))
    ensures JumpPlacesC(w, start, dir) && start.remainingBlocks == 0 ==> r.None?
    ensures JumpPlacesD(w, start, dir) && start.remainingBlocks == 1 ==> r.None?
    ensures JumpHeight(w, start, dir) > MaxJumpHeight ==> r.None?
    ensures r.Some? ==>
      var C := Info(w, start.pos, dir.x, 0, dir.z);
      var D := Info(w, start.pos, dir.x, -1, dir.z);
      var sA := w.safeOrBreak(Info(w, start.pos, 0, 2, 0));
      var sB := w.safeOrBreak(Info(w, start.pos, dir.x, 1, dir.z));
      var sH := w.safeOrBreak(Info(w, start.pos, dir.x, 2, dir.z));
      && |r.value.toPlace| <= 2
      && r.value.toPlace == (if JumpPlacesD(w, start, dir) then [SolidTask(D.position)] else [])
                            + (if JumpPlacesC(w, start, dir) then [SolidTask(C.position)] else [])
      && r.value.cost == 2.0 + PlaceCost * |r.value.toPlace| as real + sA.cost + sB.cost + sH.cost
      && r.value.toBreak == (if JumpPlacesD(w, start, dir) && !D.isReplaceable then [SolidTask(D.position)] else [])
                            + (if JumpPlacesC(w, start, dir) && !C.isReplaceable then [SolidTask(C.position)] else [])
                            + sA.breaks + sB.breaks + sH.breaks
    ensures r.None? <==> (
      var C := Info(w, start.pos, dir.x, 0, dir.z);
      var D := Info(w, start.pos, dir.x, -1, dir.z);
      var base := 2.0 + (if JumpPlacesD(w, start, dir) then PlaceCost else 0.0) + (if JumpPlacesC(w, start, dir) then PlaceCost else 0.0);
      var sA := w.safeOrBreak(Info(w, start.pos, 0, 2, 0));
      var sB := w.safeOrBreak(Info(w, start.pos, dir.x, 1, dir.z));
      var sH := w.safeOrBreak(Info(w, start.pos, dir.x, 2, dir.z));
      (JumpPlacesC(w, start, dir) && start.remainingBlocks == 0)
      || (JumpPlacesD(w, start, dir) && start.remainingBlocks == 1)
      || (JumpPlacesD(w, start, dir) && !D.isReplaceable && !w.safeToBreak(D))
      || (JumpPlacesC(w, start, dir) && !C.isReplaceable && !w.safeToBreak(C))
      || JumpHeight(w, start, dir) > MaxJumpHeight
      || base + sA.cost > CostCeiling
      || base + sA.cost + sB.cost > CostCeiling
      || base + sA.cost + sB.cost + sH.cost > CostCeiling)
  {
    var pos := start.pos;
    var C := Info(w, pos, dir.x, 0, dir.z);
    var D := Info(w, pos, dir.x, -1, dir.z);
    var placeC := JumpPlacesC(w, start, dir);
    var placeD := JumpPlacesD(w, start, dir);
    var breakC := placeC && !C.isReplaceable;
    var breakD := placeD && !D.isReplaceable;
    var places := (if placeD then [SolidTask(D.position)] else []) + (if placeC then [SolidTask(C.position)] else []);
    var base := 2.0 + PlaceCost * |places| as real;
    var sA := w.safeOrBreak(Info(w, pos, 0, 2, 0));
    var sB := w.safeOrBreak(Info(w, pos, dir.x, 1, dir.z));
    var sH := w.safeOrBreak(Info(w, pos, dir.x, 2, dir.z));
    if placeC && start.remainingBlocks == 0 then None
    else if placeD && start.remainingBlocks == 1 then None
    else if (breakD && !w.safeToBreak(D)) || (breakC && !w.safeToBreak(C)) then None
    else if JumpHeight(w, start, dir) > MaxJumpHeight then None
    else if base + sA.cost > CostCeiling || base + sA.cost + sB.cost > CostCeiling
         || base + sA.cost + sB.cost + sH.cost > CostCeiling then None
    else
      Some(Move(base + sA.cost + sB.cost + sH.cost, Centre(pos.Offset(dir.x, 1, dir.z)), start, ForwardJump, places,
                (if breakD then [SolidTask(D.position)] else []) + (if breakC then [SolidTask(C.position)] else [])
                + sA.breaks + sB.breaks + sH.breaks))
  }

  /** `ForwardJump.getMoveJumpUp`: appends the jump move in direction `dir`, if feasible. */
  method GetMoveJumpUp(w: World, node: Node, dir: Vec3, neighbors: seq<Move>) returns (out: seq<Move>)
    ensures out == neighbors + OptSeq(JumpEdge(w, node, dir))
  {
    out := neighbors;
    var pos := node.pos;
    var blockA := Info(w, pos, 0, 2, 0);
    var blockH := Info(w, pos, dir.x, 2, dir.z);
    var blockB := Info(w, pos, dir.x, 1, dir.z);
    var blockC := Info(w, pos, dir.x, 0, dir.z);
    var cost := 2.0;
    var toBreak: seq<Task> := [];
    var toPlace: seq<Task> := [];
    var cHeight := blockC.height;
    if !blockC.physical {
      if node.remainingBlocks == 0 {
        return;
      }
      var blockD := Info(w, pos, dir.x, -1, dir.z);
      if !blockD.physical {
        if node.remainingBlocks == 1 {
          return;
        }
        if !blockD.isReplaceable {
          if !w.safeToBreak(blockD) {
            return;
          }
          toBreak := toBreak + [SolidTask(blockD.position)];
        }
        toPlace := toPlace + [SolidTask(blockD.position)];
        cost := cost + PlaceCost;
      }
      if !blockC.isReplaceable {
        if !w.safeToBreak(blockC) {
          return;
        }
        toBreak := toBreak + [SolidTask(blockC.position)];
      }
      toPlace := toPlace + [SolidTask(blockC.position)];
      cost := cost + PlaceCost;
      cHeight := cHeight + 1.0;
    }
    var block0 := Info(w, pos, 0, -1, 0);
    if cHeight - block0.height > MaxJumpHeight {
      return;
    }
    var s := w.safeOrBreak(blockA);
    cost, toBreak := cost + s.cost, toBreak + s.breaks;
    if cost > CostCeiling {
      return;
    }
    s := w.safeOrBreak(blockB);
    cost, toBreak := cost + s.cost, toBreak + s.breaks;
    if cost > CostCeiling {
      return;
    }
    s := w.safeOrBreak(blockH);
    cost, toBreak := cost + s.cost, toBreak + s.breaks;
    if cost > CostCeiling {
      return;
    }
    assert JumpEdge(w, node, dir).Some?;
    assert JumpEdge(w, node, dir).value.cost == cost;
    assert JumpEdge(w, node, dir).value.toPlace == toPlace;
    assert JumpEdge(w, node, dir).value.toBreak == toBreak;
    out := neighbors + [Move(cost, Centre(blockB.position), node, ForwardJump, toPlace, toBreak)];
  }

  // ------------------------------------------------------- ForwardDropDown

  /** A cell the downward landing scan passes through: not a safe liquid, not physical, safe. */
  predicate Passable(w: World, p: Vec3) {
    var b := InfoAt(w.cells, p);
    !(b.liquid && b.safe) && !b.physical && b.safe
  }

  /** Every cell of column `(x, z)` strictly above `y0` up to `y1` is passable. */
  predicate PassableAbove(w: World, x: int, z: int, y0: int, y1: int) {
    forall y :: y0 < y <= y1 ==> Passable(w, Vec3(x, y, z))
  }

  /** Landing in `q`, a safe liquid above `minY`, after falling from `top` through passable cells. */
  predicate LiquidLanding(w: World, q: Vec3, top: Vec3) {
    var b := InfoAt(w.cells, q);
    && b.liquid && b.safe && q.y > w.minY
    && PassableAbove(w, q.x, q.z, q.y, top.y)
  }

  /** Landing in `q`, on the physical cell below it, at most `maxDrop` below `fromY`, after falling from `top` through passable cells. */
  predicate FloorLanding(w: World, maxDrop: int, fromY: int, q: Vec3, top: Vec3) {
    var f := q.Offset(0, -1, 0);
    var b := InfoAt(w.cells, f);
    && b.physical && !(b.liquid && b.safe) && f.y > w.minY
    && fromY - f.y <= maxDrop
    && PassableAbove(w, q.x, q.z, f.y, top.y)
  }

  /**
   * The downward scan of `getLandingBlock` from cell `p`: the first safe
   * liquid, or the cell above the first physical block when the drop from
   * `fromY` is at most `maxDrop`; nothing on an unsafe cell, a too deep
   * floor, or at `minY`.
   */
  function Landing(w: World, maxDrop: int, fromY: int, p: Vec3): (r: Option<Vec3>)
    ensures p.y <= w.minY ==> r.None?
    ensures r.Some? ==> r.value.x == p.x && r.value.z == p.z
    ensures r.Some? ==> LiquidLanding(w, r.value, p) || FloorLanding(w, maxDrop, fromY, r.value, p)
    decreases p.y - w.minY
  {
    if p.y <= w.minY then None
    else
      var b := InfoAt(w.cells, p);
      if b.liquid && b.safe then Some(p)
      else if b.physical then
        (if fromY - p.y <= maxDrop then Some(p.Offset(0, 1, 0)) else None)
      else if !b.safe then None
      else
        var r := Landing(w, maxDrop, fromY, p.Offset(0, -1, 0));
        assert r.Some? ==> Passable(w, Vec3(r.value.x, p.y, r.value.z));
        r
  }

  /** `ForwardDropDown.getLandingBlock`: the landing cell of column `node + dir`, scanning down from two below the node. */
  method GetLandingBlock(w: World, maxDropDown: int, node: Node, dir: Vec3) returns (r: Option<Vec3>)
    ensures r == Landing(w, maxDropDown, node.pos.y, node.pos.Offset(dir.x, -2, dir.z))
  {
    var blockLand := Info(w, node.pos, dir.x, -2, dir.z);
    while blockLand.position.y > w.minY
      invariant Landing(w, maxDropDown, node.pos.y, blockLand.position) == Landing(w, maxDropDown, node.pos.y, node.pos.Offset(dir.x, -2, dir.z))
      invariant blockLand == InfoAt(w.cells, blockLand.position)
      decreases blockLand.position.y - w.minY
    {
      if blockLand.liquid && blockLand.safe {
        return Some(blockLand.position);
      }
      if blockLand.physical {
        if node.pos.y - blockLand.position.y <= maxDropDown {
          return Some(blockLand.position.Offset(0, 1, 0));
        }
        return None;
      }
      if !blockLand.safe {
        return None;
      }
      blockLand := Info(w, blockLand.position, 0, -1, 0);
    }
    return None;
  }

  /**
   * The scan misses no landing: a safe liquid, or a floor within reach, with
   * only passable cells above it in the column, is exactly what it returns.
   */
  lemma {:induction false} LandingComplete(w: World, maxDrop: int, fromY: int, p: Vec3, q: Vec3)
    requires q.x == p.x && q.z == p.z
    requires (q.y <= p.y && LiquidLanding(w, q, p)) || (q.y - 1 <= p.y && FloorLanding(w, maxDrop, fromY, q, p))
    ensures Landing(w, maxDrop, fromY, p) == Some(q)
    decreases p.y - w.minY
  {
    if q.y <= p.y && LiquidLanding(w, q, p) {
      if q.y == p.y {
        assert q == p;
      } else {
        assert p == Vec3(q.x, p.y, q.z);
        LandingComplete(w, maxDrop, fromY, p.Offset(0, -1, 0), q);
      }
    } else {
      if q.y - 1 == p.y {
        assert q == p.Offset(0, 1, 0);
      } else {
        assert p == Vec3(q.x, p.y, q.z);
        LandingComplete(w, maxDrop, fromY, p.Offset(0, -1, 0), q);
      }
    }
  }

  /** The drop into column `node + dir` (A, B, C, D the cells to pass, top to bottom), if feasible. */
  function DropEdge(w: World, maxDropDown: int, infiniteLiquid: bool, node: Node, dir: Vec3): (r: Option<Move>)
    ensures r.Some? ==> Emitted(r.value, ForwardDropDown(maxDropDown, infiniteLiquid), node, dir) && r.value.toPlace == []
    ensures Info(w, node.pos, dir.x, 0, dir.z).liquid ==> r.None?
    ensures r.Some? ==>
      var q := Landing(w, maxDropDown, node.pos.y, node.pos.Offset(dir.x, -2, dir.z));
      && q.Some? && r.value.exit == Centre(q.value)
      && (!infiniteLiquid ==> node.pos.y - q.value.y <= maxDropDown)
    ensures r.Some? ==>
      var sA := w.safeOrBreak(Info(w, node.pos, dir.x, 2, dir.z));
      var sB := w.safeOrBreak(Info(w, node.pos, dir.x, 1, dir.z));
      var sC := w.safeOrBreak(Info(w, node.pos, dir.x, 0, dir.z));
      var sD := w.safeOrBreak(Info(w, node.pos, dir.x, -1, dir.z));
      && r.value.cost == 1.0 + sA.cost + sB.cost + sC.cost + sD.cost
      && r.value.toBreak == sA.breaks + sB.breaks + sC.breaks + sD.breaks
    ensures r.None? <==> (
      var q := Landing(w, maxDropDown, node.pos.y, node.pos.Offset(dir.x, -2, dir.z));
      var sA := w.safeOrBreak(Info(w, node.pos, dir.x, 2, dir.z));
      var sB := w.safeOrBreak(Info(w, node.pos, dir.x, 1, dir.z));
      var sC := w.safeOrBreak(Info(w, node.pos, dir.x, 0, dir.z));
      var sD := w.safeOrBreak(Info(w, node.pos, dir.x, -1, dir.z));
      q.None?
      || (!infiniteLiquid && node.pos.y - q.value.y > maxDropDown)
      || 1.0 + sA.cost > CostCeiling
      || 1.0 + sA.cost + sB.cost > CostCeiling
      || 1.0 + sA.cost + sB.cost + sC.cost > CostCeiling
      || 1.0 + sA.cost + sB.cost + sC.cost + sD.cost > CostCeiling
      || Info(w, node.pos, dir.x, 0, dir.z).liquid)
  {
    var q := Landing(w, maxDropDown, node.pos.y, node.pos.Offset(dir.x, -2, dir.z));
    var sA := w.safeOrBreak(Info(w, node.pos, dir.x, 2, dir.z));
    var sB := w.safeOrBreak(Info(w, node.pos, dir.x, 1, dir.z));
    var sC := w.safeOrBreak(Info(w, node.pos, dir.x, 0, dir.z));
    var sD := w.safeOrBreak(Info(w, node.pos, dir.x, -1, dir.z));
    var c1 := 1.0 + sA.cost;
    var c2 := c1 + sB.cost;
    var c3 := c2 + sC.cost;
    var c4 := c3 + sD.cost;
    if q.None? then None
    else if !infiniteLiquid && node.pos.y - q.value.y > maxDropDown then None
    else if c1 > CostCeiling || c2 > CostCeiling || c3 > CostCeiling || c4 > CostCeiling then None
    else if Info(w, node.pos, dir.x, 0, dir.z).liquid then None
    else
      Some(Move(c4, Centre(q.value), node, ForwardDropDown(maxDropDown, infiniteLiquid), [],
                sA.breaks + sB.breaks + sC.breaks + sD.breaks))
  }

  /** `ForwardDropDown.getMoveDropDown`: appends the drop move in direction `dir`, if feasible. */
  method GetMoveDropDown(w: World, maxDropDown: int, infiniteLiquid: bool, node: Node, dir: Vec3, neighbors: seq<Move>)
    returns (out: seq<Move>)
    ensures out == neighbors + OptSeq(DropEdge(w, maxDropDown, infiniteLiquid, node, dir))
  {
    out := neighbors;
    var blockA := Info(w, node.pos, dir.x, 2, dir.z);
    var blockB := Info(w, node.pos, dir.x, 1, dir.z);
    var blockC := Info(w, node.pos, dir.x, 0, dir.z);
    var blockD := Info(w, node.pos, dir.x, -1, dir.z);
    var cost := 1.0;
    var toBreak: seq<Task> := [];
    var toPlace: seq<Task> := [];
    var blockLand := GetLandingBlock(w, maxDropDown, node, dir);
    if blockLand.None? {
      return;
    }
    if !infiniteLiquid && node.pos.y - blockLand.value.y > maxDropDown {
      return;
    }
    var s := w.safeOrBreak(blockA);
    cost, toBreak := cost + s.cost, toBreak + s.breaks;
    if cost > CostCeiling {
      return;
    }
    s := w.safeOrBreak(blockB);
    cost, toBreak := cost + s.cost, toBreak + s.breaks;
    if cost > CostCeiling {
      return;
    }
    s := w.safeOrBreak(blockC);
    cost, toBreak := cost + s.cost, toBreak + s.breaks;
    if cost > CostCeiling {
      return;
    }
    s := w.safeOrBreak(blockD);
    cost, toBreak := cost + s.cost, toBreak + s.breaks;
    if cost > CostCeiling {
      return;
    }
    if blockC.liquid {
      return;
    }
    assert DropEdge(w, maxDropDown, infiniteLiquid, node, dir).Some?;
    assert DropEdge(w, maxDropDown, infiniteLiquid, node, dir).value.cost == cost;
    assert DropEdge(w, maxDropDown, infiniteLiquid, node, dir).value.toPlace == toPlace;
    assert DropEdge(w, maxDropDown, infiniteLiquid, node, dir).value.toBreak == toBreak;
    out := neighbors + [Move(cost, Centre(blockLand.value), node, ForwardDropDown(maxDropDown, infiniteLiquid), toPlace, toBreak)];
  }

  // --------------------------------------------------------------- Diagonal

  /** The diagonal step into `node + dir`, squeezing past the two corner columns, if feasible. */
  function DiagonalEdge(w: World, node: Node, dir: Vec3): (r: Option<Move>)
    ensures r.Some? ==> Emitted(r.value, Diagonal, node, dir) && r.value.exit == Centre(node.pos.Plus(dir))
    ensures r.Some? ==> r.value.toPlace == []
    ensures Info(w, node.pos, 0, 0, 0).height - Info(w, node.pos, dir.x, 0, dir.z).height > MaxDiagonalDrop ==> r.None?
    ensures !Info(w, node.pos, dir.x, -1, dir.z).physical ==> r.None?
    ensures (Info(w, node.pos, 0, 0, 0).height < Info(w, node.pos, dir.x, 0, dir.z).height
             && (Info(w, node.pos, dir.x, -1, 0).physical || Info(w, node.pos, 0, -1, dir.z).physical)) ==> r.None?
    ensures r.Some? ==>
      var s := DiagonalSurcharges(w, node, dir);
      && r.value.cost == DiagonalCost + s[0].cost + s[1].cost + s[2].cost + s[3].cost + s[4].cost + s[5].cost
      && r.value.toBreak == s[0].breaks + s[1].breaks + s[2].breaks + s[3].breaks + s[4].breaks + s[5].breaks
    ensures r.None? <==> (
      var s := DiagonalSurcharges(w, node, dir);
      var h00 := Info(w, node.pos, 0, 0, 0).height;
      var h0 := Info(w, node.pos, dir.x, 0, dir.z).height;
      h00 - h0 > MaxDiagonalDrop
      || !Info(w, node.pos, dir.x, -1, dir.z).physical
      || DiagonalCost + s[0].cost + s[1].cost + s[2].cost + s[3].cost + s[4].cost + s[5].cost > CostCeiling
      || (h00 < h0 && (Info(w, node.pos, dir.x, -1, 0).physical || Info(w, node.pos, 0, -1, dir.z).physical)))
  {
    var s := DiagonalSurcharges(w, node, dir);
    var cost := DiagonalCost + s[0].cost + s[1].cost + s[2].cost + s[3].cost + s[4].cost + s[5].cost;
    var h00 := Info(w, node.pos, 0, 0, 0).height;
    var h0 := Info(w, node.pos, dir.x, 0, dir.z).height;
    if h00 - h0 > MaxDiagonalDrop then None
    else if !Info(w, node.pos, dir.x, -1, dir.z).physical then None
    else if cost > CostCeiling then None
    else if h00 - h0 < 0.0 && (Info(w, node.pos, dir.x, -1, 0).physical || Info(w, node.pos, 0, -1, dir.z).physical) then None
    else
      Some(Move(cost, Centre(node.pos.Plus(dir)), node, Diagonal, [],
                s[0].breaks + s[1].breaks + s[2].breaks + s[3].breaks + s[4].breaks + s[5].breaks))
  }

  /** `safeOrBreak` of the six cells a diagonal step passes, in query order. */
  function DiagonalSurcharges(w: World, node: Node, dir: Vec3): (s: seq<Surcharge>)
    ensures |s| == 6
  {
    [ w.safeOrBreak(Info(w, node.pos, dir.x, 0, dir.z)),
      w.safeOrBreak(Info(w, node.pos, dir.x, 1, dir.z)),
      w.safeOrBreak(Info(w, node.pos, dir.x, 0, 0)),
      w.safeOrBreak(Info(w, node.pos, 0, 0, dir.z)),
      w.safeOrBreak(Info(w, node.pos, dir.x, 1, 0)),
      w.safeOrBreak(Info(w, node.pos, 0, 1, dir.z)) ]
  }

  /** `Diagonal.getMoveDiagonal`: appends the diagonal move in direction `dir`, if feasible. */
  method GetMoveDiagonal(w: World, node: Node, dir: Vec3, neighbors: seq<Move>) returns (out: seq<Move>)
    ensures out == neighbors + OptSeq(DiagonalEdge(w, node, dir))
  {
    out := neighbors;
    var cost := DiagonalCost;
    var toBreak: seq<Task> := [];
    var toPlace: seq<Task> := [];
    var block00 := Info(w, node.pos, 0, 0, 0);
    var block0 := Info(w, node.pos, dir.x, 0, dir.z);
    if block00.height - block0.height > MaxDiagonalDrop {
      return;
    }
    var needSideClearance := block00.height - block0.height < 0.0;
    var block1 := Info(w, node.pos, dir.x, 1, dir.z);
    var blockN1 := Info(w, node.pos, dir.x, -1, dir.z);
    if !blockN1.physical {
      return;
    }
    var s := w.safeOrBreak(block0);
    cost, toBreak := cost + s.cost, toBreak + s.breaks;
    s := w.safeOrBreak(block1);
    cost, toBreak := cost + s.cost, toBreak + s.breaks;
    s := w.safeOrBreak(Info(w, node.pos, dir.x, 0, 0));
    cost, toBreak := cost + s.cost, toBreak + s.breaks;
    s := w.safeOrBreak(Info(w, node.pos, 0, 0, dir.z));
    cost, toBreak := cost + s.cost, toBreak + s.breaks;
    s := w.safeOrBreak(Info(w, node.pos, dir.x, 1, 0));
    cost, toBreak := cost + s.cost, toBreak + s.breaks;
    s := w.safeOrBreak(Info(w, node.pos, 0, 1, dir.z));
    cost, toBreak := cost + s.cost, toBreak + s.breaks;
    if cost > CostCeiling {
      return;
    }
    if needSideClearance {
      var blockN1A := Info(w, node.pos, dir.x, -1, 0);
      var blockN1B := Info(w, node.pos, 0, -1, dir.z);
      if blockN1A.physical || blockN1B.physical {
        return;
      }
    }
    assert DiagonalEdge(w, node, dir).Some?;
    assert DiagonalEdge(w, node, dir).value.cost == cost;
    assert DiagonalEdge(w, node, dir).value.toPlace == toPlace;
    assert DiagonalEdge(w, node, dir).value.toBreak == toBreak;
    out := neighbors + [Move(cost, Centre(node.pos.Plus(dir)), node, Diagonal, toPlace, toBreak)];
  }

  /** Walking forward onto a solid floor with nothing in the way is one move of cost 1 with no sub-tasks. */
  lemma ForwardClearFloor(w: World, start: Node, dir: Vec3)
    requires !Info(w, start.pos, 0, 0, 0).liquid
    requires Info(w, start.pos, dir.x, -1, dir.z).physical
    requires w.safeOrBreak(Info(w, start.pos, dir.x, 0, dir.z)) == Surcharge(0.0, [])
    requires w.safeOrBreak(Info(w, start.pos, dir.x, 1, dir.z)) == Surcharge(0.0, [])
    ensures ForwardEdge(w, start, dir) == Some(Move(1.0, Centre(start.pos.Plus(dir)), start, Forward, [], []))
  {
  }

  /**
   * With the default settings the drop into a safe liquid is taken however
   * deep it lies, when the column above it is clear and costs nothing.
   */
  lemma DefaultDropIntoLiquid(w: World, node: Node, dir: Vec3, q: Vec3)
    requires q.x == node.pos.x + dir.x && q.z == node.pos.z + dir.z && q.y <= node.pos.y - 2
    requires LiquidLanding(w, q, node.pos.Offset(dir.x, -2, dir.z))
    requires !Info(w, node.pos, dir.x, 0, dir.z).liquid
    requires forall dy :: -1 <= dy <= 2 ==> w.safeOrBreak(Info(w, node.pos, dir.x, dy, dir.z)) == Surcharge(0.0, [])
    ensures Edge(DefaultDropDown, w, node, dir) == Some(Move(1.0, Centre(q), node, DefaultDropDown, [], []))
  {
    LandingComplete(w, 3, node.pos.y, node.pos.Offset(dir.x, -2, dir.z), q);
    assert w.safeOrBreak(Info(w, node.pos, dir.x, 2, dir.z)) == Surcharge(0.0, []);
    assert w.safeOrBreak(Info(w, node.pos, dir.x, 1, dir.z)) == Surcharge(0.0, []);
    assert w.safeOrBreak(Info(w, node.pos, dir.x, 0, dir.z)) == Surcharge(0.0, []);
    assert w.safeOrBreak(Info(w, node.pos, dir.x, -1, dir.z)) == Surcharge(0.0, []);
  }

  /** When no surcharge is negative, every move costs at least its category's base (and never less than 1). */
  lemma EdgeCostAtLeastOne(k: Kind, w: World, start: Node, dir: Vec3)
    requires forall b :: w.safeOrBreak(b).cost >= 0.0
    ensures Edge(k, w, start, dir).Some? ==> Edge(k, w, start, dir).value.cost >= 1.0
  {
    if k.Diagonal? {
      var s := DiagonalSurcharges(w, start, dir);
      assert forall i :: 0 <= i < 6 ==> s[i].cost >= 0.0;
    }
  }

  // ------------------------------------------------------ provideMovements

  /** The candidate of category `k` in direction `dir`. */
  function Edge(k: Kind, w: World, start: Node, dir: Vec3): (r: Option<Move>)
    ensures r.Some? ==> Emitted(r.value, k, start, dir)
  {
    match k
    case Forward => ForwardEdge(w, start, dir)
    case ForwardJump => JumpEdge(w, start, dir)
    case ForwardDropDown(maxDrop, infinite) => DropEdge(w, maxDrop, infinite, start, dir)
    case Diagonal => DiagonalEdge(w, start, dir)
  }

  /** The moves `provideMovements` appends for the direction list `dirs`: at most one per direction, in order. */
  function AllEdges(k: Kind, w: World, start: Node, dirs: seq<Vec3>): (r: seq<Move>)
    ensures |r| <= |dirs|
    ensures forall i :: 0 <= i < |r| ==> exists j :: 0 <= j < |dirs| && Emitted(r[i], k, start, dirs[j])
    decreases |dirs|
  {
    if dirs == [] then []
    else
      var init := dirs[..|dirs| - 1];
      var r := AllEdges(k, w, start, init) + OptSeq(Edge(k, w, start, dirs[|dirs| - 1]));
      assert forall j :: 0 <= j < |init| ==> init[j] == dirs[j];
      r
  }

  /** The generator of category `k`, as `provideMovements` of that category calls it. */
  method GetMove(k: Kind, w: World, start: Node, dir: Vec3, neighbors: seq<Move>) returns (out: seq<Move>)
    ensures out == neighbors + OptSeq(Edge(k, w, start, dir))
  {
    match k {
      case Forward =>
        out := GetMoveForward(w, start, dir, neighbors);
      case ForwardJump =>
        out := GetMoveJumpUp(w, start, dir, neighbors);
      case ForwardDropDown(maxDrop, infinite) =>
        out := GetMoveDropDown(w, maxDrop, infinite, start, dir, neighbors);
      case Diagonal =>
        out := GetMoveDiagonal(w, start, dir, neighbors);
    }
  }

  /** One more direction appends that direction's candidate, after whatever `storage` held. */
  lemma AllEdgesStep(k: Kind, w: World, start: Node, dirs: seq<Vec3>, i: nat, storage: seq<Move>)
    requires i < |dirs|
    ensures storage + AllEdges(k, w, start, dirs[..i + 1])
            == (storage + AllEdges(k, w, start, dirs[..i])) + OptSeq(Edge(k, w, start, dirs[i]))
  {
    assert dirs[..i + 1][..i] == dirs[..i];
  }

  /** `provideMovements` of category `k`: calls the category's generator once per direction, in order. */
  method ProvideMovements(k: Kind, w: World, start: Node, dirs: seq<Vec3>, storage: seq<Move>) returns (out: seq<Move>)
    ensures out == storage + AllEdges(k, w, start, dirs)
  {
    out := storage;
    var i := 0;
    while i < |dirs|
      invariant 0 <= i <= |dirs|
      invariant out == storage + AllEdges(k, w, start, dirs[..i])
    {
      AllEdgesStep(k, w, start, dirs, i, storage);
      out := GetMove(k, w, start, dirs[i], out);
      i := i + 1;
    }
    assert dirs[..|dirs|] == dirs;
  }

  // ---------------------------------------------------------- performPerTick

  /**
   * What one tick of a move observes: the tick count, whether the bot is on
   * the ground, its height above the exit position, and its horizontal
   * distance to the exit position.
   */
  datatype TickSnapshot = TickSnapshot(tickCount: int, onGround: bool, dy: real, xzDist: real)

  /** The `CancelError`s a per-tick step raises. */
  datatype CancelReason = TickLimit | NotOnGround | TooLowInAir | TooLowOnLanding

  /** The outcome of one tick: keep going (possibly after clearing the controls), reached the exit, or cancelled. */
  datatype TickDecision = Continue(clearedControls: bool) | Reached | Cancelled(reason: CancelReason)

  /** The interaction gate: a current interaction exists and forbids outside influence. */
  predicate GateClosed(cI: Handlers.InteractHandler?, predicted: Point)
    reads cI
  {
    cI != null && !cI.AllowExternalInfluence(predicted)
  }

  /** `Forward.performPerTick` (and `Diagonal.performPerTick`, whose guards are the same). */
  function WalkTick(gate: bool, s: TickSnapshot): (r: TickDecision)
    ensures gate <==> r == Continue(true)
    ensures !gate && s.tickCount > MaxTicks ==> r == Cancelled(TickLimit)
    ensures !gate && s.tickCount <= MaxTicks && !s.onGround ==> r == Cancelled(NotOnGround)
    ensures r == Reached <==> !gate && s.tickCount <= MaxTicks && s.onGround && s.xzDist < 0.2
  {
    if gate then Continue(true)
    else if s.tickCount > MaxTicks then Cancelled(TickLimit)
    else if !s.onGround then Cancelled(NotOnGround)
    else if s.xzDist < 0.2 then Reached
    else Continue(false)
  }

  /** `ForwardJump.performPerTick`. */
  function JumpTick(gate: bool, s: TickSnapshot): (r: TickDecision)
    ensures gate <==> r == Continue(true)
    ensures !gate && s.tickCount > MaxTicks ==> r == Cancelled(TickLimit)
    ensures !gate && s.tickCount <= MaxTicks && s.dy < -1.0 ==> r == Cancelled(TooLowInAir)
    ensures r == Cancelled(TooLowOnLanding) <==>
      !gate && s.tickCount <= MaxTicks && -1.0 <= s.dy < 0.0 && s.tickCount > 0 && s.onGround
    ensures r == Reached <==>
      !gate && 0 < s.tickCount <= MaxTicks && s.onGround && s.dy >= 0.0 && s.xzDist < 0.3
  {
    if gate then Continue(true)
    else if s.tickCount > MaxTicks then Cancelled(TickLimit)
    else if s.dy < -1.0 then Cancelled(TooLowInAir)
    else if s.tickCount > 0 && s.onGround then
      (if s.dy < 0.0 then Cancelled(TooLowOnLanding)
       else if s.xzDist < 0.3 then Reached
       else Continue(false))
    else Continue(false)
  }

  /** `ForwardDropDown.performPerTick`: apart from the tick limit it never cancels, it waits. */
  function DropTick(gate: bool, s: TickSnapshot): (r: TickDecision)
    ensures gate <==> r == Continue(true)
    ensures !gate && s.tickCount > MaxTicks ==> r == Cancelled(TickLimit)
    ensures r.Cancelled? ==> r.reason == TickLimit
    ensures r == Reached <==> !gate && s.tickCount <= MaxTicks && s.onGround && s.dy == 0.0 && s.xzDist < 0.2
  {
    if gate then Continue(true)
    else if s.tickCount > MaxTicks then Cancelled(TickLimit)
    else if !s.onGround then Continue(false)
    else if s.dy != 0.0 then Continue(false)
    else if s.xzDist < 0.2 then Reached
    else Continue(false)
  }

  /** The per-tick step of category `k`, with the gate read from the current interaction. */
  function PerTick(k: Kind, cI: Handlers.InteractHandler?, predicted: Point, s: TickSnapshot): (r: TickDecision)
    reads cI
    ensures GateClosed(cI, predicted) <==> r == Continue(true)
    ensures !GateClosed(cI, predicted) && s.tickCount > MaxTicks ==> r == Cancelled(TickLimit)
    ensures r == Reached ==> !GateClosed(cI, predicted) && s.tickCount <= MaxTicks && s.onGround && s.xzDist < 0.3
  {
    var gate := GateClosed(cI, predicted);
    match k
    case Forward => WalkTick(gate, s)
    case ForwardJump => JumpTick(gate, s)
    case ForwardDropDown(_, _) => DropTick(gate, s)
    case Diagonal => WalkTick(gate, s)
  }

  /** A current interaction that is not performing never holds a move back. */
  lemma IdleInteractionOpensGate(k: Kind, cI: Handlers.InteractHandler?, predicted: Point, s: TickSnapshot)
    requires cI != null ==> !cI.performing
    ensures PerTick(k, cI, predicted, s) != Continue(true)
  {
    assert !GateClosed(cI, predicted);
  }
}
