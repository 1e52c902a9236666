/**
 * Block interaction handlers: one break or place sub-task of a move, with its
 * small `performing` / `done` lifecycle, the face-to-offset mapping, the six
 * face neighbours of the target cell and the earliest-tick visibility search
 * of a solid placement.
 */
module Handlers {
  import opened Wrappers
  import opened Blocks

  /** The kind of block an interaction deals with ("water", "solid", "replaceable"). */
  datatype InteractType = Water | Solid | Replaceable

  /** Which of the two handler classes an object is. */
  datatype Role = Place | Break

  /** A face reported by a raycast; `UnknownFace` stands for any other enum value. */
  datatype Face = Bottom | Top | North | South | West | East | UnknownFace

  /** The errors a handler throws. */
  datatype HandlerError = AlreadyPerforming | InvalidItem | InvalidBlock | InvalidFace | NotImplemented

  datatype Item = Item(name: string)

  /** A raycast that hit block `position` on `face` (the float intersection point is not modelled). */
  datatype RayHit = RayHit(position: Vec3, face: Face)

  /** A tick count that may be `Infinity`. */
  datatype Ticks = Finite(n: nat) | Infinity

  /** What `performInfo` returns: the tick to place at, the crouch tick and the usable rays. */
  datatype InfoResult = InfoResult(ticks: Ticks, shiftTick: Ticks, raycasts: seq<RayHit>)

  /** How a `perform` call ends: it completes, throws, or is still polling for a usable ray. */
  datatype PerformResult = Completed | Threw(error: HandlerError) | StillWaiting

  /** Interaction reach of both handler kinds, in blocks. */
  const Reach: real := 4.0

  function Abs(n: int): nat {
    if n < 0 then -n else n
  }

  /** `v` is one of the six unit vectors along an axis. */
  predicate IsUnitAxis(v: Vec3) {
    Abs(v.x) + Abs(v.y) + Abs(v.z) == 1
  }

  /** Offset from a block to the neighbour that shares `face`; any other face value throws. */
  function FaceToVec(face: Face): (r: Result<Vec3, HandlerError>)
    ensures r.Failure? <==> face == UnknownFace
    ensures r.Failure? ==> r.error == InvalidFace
  {
    match face
    case Bottom => Success(Vec3(0, -1, 0))
    case Top => Success(Vec3(0, 1, 0))
    case North => Success(Vec3(0, 0, -1))
    case South => Success(Vec3(0, 0, 1))
    case West => Success(Vec3(-1, 0, 0))
    case East => Success(Vec3(1, 0, 0))
    case UnknownFace => Failure(InvalidFace)
  }

  /** Every face offset is a unit vector along one axis. */
  lemma FaceToVecUnit(f: Face)
    requires f != UnknownFace
    ensures FaceToVec(f).Success? && IsUnitAxis(FaceToVec(f).value)
  {
  }

  /** The face whose neighbour lies in direction `v`: the inverse of `FaceToVec`. */
  function VecToFace(v: Vec3): Face {
    if v == Vec3(0, -1, 0) then Bottom
    else if v == Vec3(0, 1, 0) then Top
    else if v == Vec3(0, 0, -1) then North
    else if v == Vec3(0, 0, 1) then South
    else if v == Vec3(-1, 0, 0) then West
    else if v == Vec3(1, 0, 0) then East
    else UnknownFace
  }

  /** The six faces map to six distinct unit vectors: `VecToFace` undoes `FaceToVec`. */
  lemma FaceToVecInverse(f: Face)
    requires f != UnknownFace
    ensures VecToFace(FaceToVec(f).value) == f
  {
  }

  /** Every unit axis vector is the offset of some face. */
  lemma FaceToVecOnto(v: Vec3)
    requires IsUnitAxis(v)
    ensures FaceToVec(VecToFace(v)) == Success(v)
  {
    if v.x > 0 {
      assert v == Vec3(1, 0, 0);
    } else if v.x < 0 {
      assert v == Vec3(-1, 0, 0);
    } else if v.y > 0 {
      assert v == Vec3(0, 1, 0);
    } else if v.y < 0 {
      assert v == Vec3(0, -1, 0);
    } else if v.z > 0 {
      assert v == Vec3(0, 0, 1);
    } else {
      assert v == Vec3(0, 0, -1);
    }
  }

  /** The order in which `getNearbyBlocks` queries the neighbours: up, down, -z, +z, -x, +x. */
  const NearbyOrder: seq<Face> := [Top, Bottom, North, South, West, East]

  /** A raycast hit is usable for placing at `target`: the cell beside the hit face is `target`. */
  predicate Aims(target: Vec3, h: RayHit) {
    match FaceToVec(h.face)
    case Success(v) => h.position.Plus(v) == target
    case Failure(_) => false
  }

  /**
   * The rays of one predicted tick that a solid placement at `target` accepts,
   * scanned in sample order; `blocked` says that the target cell's box meets
   * the predicted player box at that tick. A hit on an unknown face throws.
   */
  function AcceptedHits(target: Vec3, hits: seq<Option<RayHit>>, blocked: bool): Result<seq<RayHit>, HandlerError>
    decreases |hits|
  {
    if hits == [] then Success([])
    else
      var last := hits[|hits| - 1];
      var prev := AcceptedHits(target, hits[..|hits| - 1], blocked);
      if prev.Failure? then prev
      else
        var works := prev.value;
        if last.None? then prev
        else match FaceToVec(last.value.face)
          case Failure(e) => Failure(e)
          case Success(v) =>
            if last.value.position.Plus(v) == target && !blocked then Success(works + [last.value])
            else Success(works)
  }

  /**
   * Every ray a tick accepts aims at the target, no ray is accepted while the target
   * cell meets the player box, and the only error is an unknown face.
   */
  lemma {:induction false} AcceptedHitsSound(target: Vec3, hits: seq<Option<RayHit>>, blocked: bool)
    ensures var r := AcceptedHits(target, hits, blocked);
      && (r.Failure? ==> r.error == InvalidFace)
      && (r.Success? ==> |r.value| <= |hits|)
      && (r.Success? ==> forall k :: 0 <= k < |r.value| ==> Aims(target, r.value[k]))
      && (r.Success? && blocked ==> r.value == [])
    decreases |hits|
  {
    if hits != [] {
      AcceptedHitsSound(target, hits[..|hits| - 1], blocked);
    }
  }

  /** Some non-null sample of `hits` hit an unknown face. */
  predicate HasUnknownFace(hits: seq<Option<RayHit>>) {
    exists i :: 0 <= i < |hits| && hits[i].Some? && hits[i].value.face == UnknownFace
  }

  /** A tick throws exactly when one of its sample rays hit an unknown face. */
  lemma {:induction false} AcceptedHitsFailure(target: Vec3, hits: seq<Option<RayHit>>, blocked: bool)
    ensures AcceptedHits(target, hits, blocked).Failure? <==> HasUnknownFace(hits)
    decreases |hits|
  {
    if hits != [] {
      var init := hits[..|hits| - 1];
      AcceptedHitsFailure(target, init, blocked);
      HasUnknownFaceSnoc(hits);
    }
  }

  /** A sequence of samples has an unknown face exactly when its prefix or its last sample has one. */
  lemma HasUnknownFaceSnoc(hits: seq<Option<RayHit>>)
    requires hits != []
    ensures HasUnknownFace(hits) <==>
      HasUnknownFace(hits[..|hits| - 1]) || (hits[|hits| - 1].Some? && hits[|hits| - 1].value.face == UnknownFace)
  {
    var init := hits[..|hits| - 1];
    if HasUnknownFace(init) {
      var i :| 0 <= i < |init| && init[i].Some? && init[i].value.face == UnknownFace;
      assert hits[i] == init[i];
    }
    if HasUnknownFace(hits) {
      var i :| 0 <= i < |hits| && hits[i].Some? && hits[i].value.face == UnknownFace;
      if i < |init| {
        assert init[i] == hits[i];
      }
    }
  }

  /** No usable ray is dropped: every sample aimed at the target is kept unless the player box is in the way. */
  lemma {:induction false} AcceptedHitsComplete(target: Vec3, hits: seq<Option<RayHit>>, blocked: bool, i: nat)
    requires i < |hits| && hits[i].Some? && Aims(target, hits[i].value) && !blocked
    requires AcceptedHits(target, hits, blocked).Success?
    ensures hits[i].value in AcceptedHits(target, hits, blocked).value
    decreases |hits|
  {
    var init := hits[..|hits| - 1];
    var prev := AcceptedHits(target, init, blocked);
    AcceptedHitsStep(target, hits, blocked);
    if i < |init| {
      assert init[i] == hits[i];
      AcceptedHitsComplete(target, init, blocked, i);
    }
  }

  /** One unfolding of `AcceptedHits`: a successful tick extends the successful result of its prefix. */
  lemma AcceptedHitsStep(target: Vec3, hits: seq<Option<RayHit>>, blocked: bool)
    requires hits != []
    requires AcceptedHits(target, hits, blocked).Success?
    ensures AcceptedHits(target, hits[..|hits| - 1], blocked).Success?
    ensures var prev := AcceptedHits(target, hits[..|hits| - 1], blocked).value;
            var last := hits[|hits| - 1];
            AcceptedHits(target, hits, blocked).value ==
              if last.Some? && Aims(target, last.value) && !blocked then prev + [last.value] else prev
  {
  }

  /** Once a prefix of the samples throws, the whole tick throws. */
  lemma {:induction false} AcceptedHitsPrefixFailure(target: Vec3, hits: seq<Option<RayHit>>, k: nat, blocked: bool)
    requires k <= |hits|
    requires AcceptedHits(target, hits[..k], blocked).Failure?
    ensures AcceptedHits(target, hits, blocked) == Failure(InvalidFace)
    decreases |hits| - k
  {
    if k < |hits| {
      assert hits[..k + 1][..k] == hits[..k];
      AcceptedHitsPrefixFailure(target, hits, k + 1, blocked);
    } else {
      assert hits[..k] == hits;
      AcceptedHitsSound(target, hits, blocked);
    }
  }

  /** One sample more: how the result of a prefix of the samples is extended by sample `k`. */
  lemma AcceptedHitsExtend(target: Vec3, hits: seq<Option<RayHit>>, k: nat, blocked: bool)
    requires k < |hits|
    requires AcceptedHits(target, hits[..k], blocked).Success?
    ensures var works := AcceptedHits(target, hits[..k], blocked).value;
      AcceptedHits(target, hits[..k + 1], blocked) ==
        if hits[k].None? then Success(works)
        else match FaceToVec(hits[k].value.face)
          case Failure(e) => Failure(e)
          case Success(v) =>
            if hits[k].value.position.Plus(v) == target && !blocked then Success(works + [hits[k].value])
            else Success(works)
  {
    assert hits[..k + 1][..k] == hits[..k];
  }

  /** No tick in `[i, j)` yields an accepted ray, and none throws. */
  predicate NothingAccepted(target: Vec3, casts: nat -> seq<Option<RayHit>>, selfBox: nat -> bool, i: nat, j: nat) {
    forall t: nat :: i <= t < j ==> AcceptedHits(target, casts(t), selfBox(t)) == Success([])
  }

  /**
   * The earliest-tick search of a solid placement, from tick `i` up to `ticks`:
   * `casts(t)` are the raycasts toward the sample points at predicted tick `t`,
   * `selfBox(t)` whether the target cell meets the predicted player box then.
   */
  function Search(target: Vec3, casts: nat -> seq<Option<RayHit>>, selfBox: nat -> bool, i: nat, ticks: nat): Result<InfoResult, HandlerError>
    decreases ticks - i
  {
    if i >= ticks then Success(InfoResult(Infinity, Infinity, []))
    else match AcceptedHits(target, casts(i), selfBox(i))
      case Failure(e) => Failure(e)
      case Success(works) =>
        if works != [] then Success(InfoResult(Finite(i), Infinity, works))
        else Search(target, casts, selfBox, i + 1, ticks)
  }

  /**
   * The search is sound: a finite result is a tick in `[i, ticks)` whose rays are exactly
   * the accepted ones, after a quiet interval; an infinite one follows a quiet interval
   * up to `ticks`; the crouch tick is never set, and the only error is an unknown face.
   */
  lemma {:induction false} SearchSound(target: Vec3, casts: nat -> seq<Option<RayHit>>, selfBox: nat -> bool, i: nat, ticks: nat)
    ensures var r := Search(target, casts, selfBox, i, ticks);
      && (r.Success? ==> r.value.shiftTick == Infinity)
      && (r.Success? && r.value.ticks.Finite? ==>
            var t := r.value.ticks.n;
            && i <= t < ticks
            && r.value.raycasts != []
            && AcceptedHits(target, casts(t), selfBox(t)) == Success(r.value.raycasts)
            && NothingAccepted(target, casts, selfBox, i, t))
      && (r.Success? && r.value.ticks == Infinity ==>
            r.value.raycasts == [] && NothingAccepted(target, casts, selfBox, i, ticks))
      && (r.Failure? ==> r.error == InvalidFace)
    decreases ticks - i
  {
    if i < ticks {
      AcceptedHitsSound(target, casts(i), selfBox(i));
    }
    if i < ticks && AcceptedHits(target, casts(i), selfBox(i)) == Success([]) {
      SearchSkips(target, casts, selfBox, i, ticks);
      SearchSound(target, casts, selfBox, i + 1, ticks);
      var r := Search(target, casts, selfBox, i + 1, ticks);
      if r.Success? {
        var end := if r.value.ticks.Finite? then r.value.ticks.n else ticks;
        NothingAcceptedExtend(target, casts, selfBox, i, end);
      }
    }
  }

  /** A tick without accepted rays in front of a quiet interval extends it. */
  lemma NothingAcceptedExtend(target: Vec3, casts: nat -> seq<Option<RayHit>>, selfBox: nat -> bool, i: nat, j: nat)
    requires AcceptedHits(target, casts(i), selfBox(i)) == Success([])
    requires NothingAccepted(target, casts, selfBox, i + 1, j)
    ensures NothingAccepted(target, casts, selfBox, i, j)
  {
  }

  /** The search is complete: a tick with an accepted ray, before any tick that throws, is never missed. */
  lemma SearchFindsEarliest(target: Vec3, casts: nat -> seq<Option<RayHit>>, selfBox: nat -> bool, i: nat, ticks: nat, t: nat)
    requires i <= t < ticks
    requires NothingAccepted(target, casts, selfBox, i, t)
    requires AcceptedHits(target, casts(t), selfBox(t)).Success?
    requires AcceptedHits(target, casts(t), selfBox(t)).value != []
    ensures Search(target, casts, selfBox, i, ticks) == Success(InfoResult(Finite(t), Infinity, AcceptedHits(target, casts(t), selfBox(t)).value))
  {
    SearchSkipsTo(target, casts, selfBox, i, ticks, t);
    SearchHits(target, casts, selfBox, t, ticks);
  }

  /** The search passes over a quiet interval `[i, t)` unchanged. */
  lemma {:induction false} SearchSkipsTo(target: Vec3, casts: nat -> seq<Option<RayHit>>, selfBox: nat -> bool, i: nat, ticks: nat, t: nat)
    requires i <= t < ticks
    requires NothingAccepted(target, casts, selfBox, i, t)
    ensures Search(target, casts, selfBox, i, ticks) == Search(target, casts, selfBox, t, ticks)
    decreases t - i
  {
    if i < t {
      assert AcceptedHits(target, casts(i), selfBox(i)) == Success([]);
      SearchSkips(target, casts, selfBox, i, ticks);
      SearchSkipsTo(target, casts, selfBox, i + 1, ticks, t);
    }
  }

  /** One unfolding of `Search` at a tick that accepts some ray. */
  lemma SearchHits(target: Vec3, casts: nat -> seq<Option<RayHit>>, selfBox: nat -> bool, i: nat, ticks: nat)
    requires i < ticks
    requires AcceptedHits(target, casts(i), selfBox(i)).Success?
    requires AcceptedHits(target, casts(i), selfBox(i)).value != []
    ensures Search(target, casts, selfBox, i, ticks) == Success(InfoResult(Finite(i), Infinity, AcceptedHits(target, casts(i), selfBox(i)).value))
  {
  }

  /** One unfolding of `Search` at a tick that accepts no ray and does not throw. */
  lemma SearchSkips(target: Vec3, casts: nat -> seq<Option<RayHit>>, selfBox: nat -> bool, i: nat, ticks: nat)
    requires i < ticks
    requires AcceptedHits(target, casts(i), selfBox(i)) == Success([])
    ensures Search(target, casts, selfBox, i, ticks) == Search(target, casts, selfBox, i + 1, ticks)
  {
  }

  /** Settled: a poll of `performInfo` that ends the wait in `perform` (it threw, or found rays). */
  predicate Settled(p: Result<InfoResult, HandlerError>) {
    p.Failure? || p.value.raycasts != []
  }

  /**
   * How the polling loop of a solid `perform` ends over successive `performInfo`
   * results: at the first poll that throws or that has rays.
   */
  function Settle(polls: seq<Result<InfoResult, HandlerError>>): (r: PerformResult)
    ensures r == Completed <==>
      exists i :: 0 <= i < |polls| && polls[i].Success? && polls[i].value.raycasts != [] &&
        forall j :: 0 <= j < i ==> !Settled(polls[j])
    ensures r == StillWaiting <==> forall j :: 0 <= j < |polls| ==> !Settled(polls[j])
    ensures r.Threw? ==> exists i ::
      && 0 <= i < |polls|
      && polls[i] == Failure(r.error)
      && (forall j :: 0 <= j < i ==> !Settled(polls[j]))
  {
    if polls == [] then StillWaiting
    else match polls[0]
      case Failure(e) => Threw(e)
      case Success(info) =>
        if info.raycasts != [] then Completed
        else
          var rest := Settle(polls[1..]);
          assert forall j :: 1 <= j < |polls| ==> polls[j] == polls[1..][j - 1];
          rest
  }

  /** A break or place sub-task of a move. */
  class InteractHandler {
    const role: Role
    const pos: Vec3
    const kind: InteractType
    const offhand: bool
    var performing: bool
    var done: bool

    /** `PlaceHandler.fromVec`. */
    constructor PlaceFromVec(v: Vec3, t: InteractType, offhand: bool)
      ensures role == Place && pos == v && kind == t && this.offhand == offhand
      ensures !performing && !done
    {
      role := Place;
      pos := v;
      kind := t;
      this.offhand := offhand;
      performing := false;
      done := false;
    }

    /** `BreakHandler.fromVec`. */
    constructor BreakFromVec(v: Vec3, t: InteractType, offhand: bool)
      ensures role == Break && pos == v && kind == t && this.offhand == offhand
      ensures !performing && !done
    {
      role := Break;
      pos := v;
      kind := t;
      this.offhand := offhand;
      performing := false;
      done := false;
    }

    /**
     * Whether outside movement control may act this tick. `predicted` is where
     * the physics engine puts the player after the requested number of ticks.
     */
    function AllowExternalInfluence(predicted: Point): (r: bool)
      reads this
      ensures !performing ==> r
      ensures performing ==> (r <==> DistSq(pos, predicted) < Reach * Reach)
    {
      !performing || DistSq(pos, predicted) < Reach * Reach
    }

    /** `getNearbyBlocks`: the six face neighbours of the target, in query order, as the world classifies them. */
    function NearbyBlocks(cells: Cells): (r: seq<BlockInfo>)
      requires role == Place
      ensures |r| == |NearbyOrder|
      ensures forall k :: 0 <= k < |r| ==> r[k].position != pos
    {
      [ InfoAt(cells, pos.Offset(0, 1, 0)),
        InfoAt(cells, pos.Offset(0, -1, 0)),
        InfoAt(cells, pos.Offset(0, 0, -1)),
        InfoAt(cells, pos.Offset(0, 0, 1)),
        InfoAt(cells, pos.Offset(-1, 0, 0)),
        InfoAt(cells, pos.Offset(1, 0, 0)) ]
    }

    /** The `k`-th neighbour lies across face `NearbyOrder[k]`: up, down, north (-z), south (+z), west (-x), east (+x). */
    lemma NearbyBlocksAcrossFaces(cells: Cells, k: nat)
      requires role == Place && k < |NearbyOrder|
      ensures FaceToVec(NearbyOrder[k]).Success?
      ensures NearbyBlocks(cells)[k] == InfoAt(cells, pos.Plus(FaceToVec(NearbyOrder[k]).value))
    {
      var r := NearbyBlocks(cells);
      if k == 0 {
        assert FaceToVec(Top) == Success(Vec3(0, 1, 0));
      } else if k == 1 {
        assert FaceToVec(Bottom) == Success(Vec3(0, -1, 0));
      } else if k == 2 {
        assert FaceToVec(North) == Success(Vec3(0, 0, -1));
      } else if k == 3 {
        assert FaceToVec(South) == Success(Vec3(0, 0, 1));
      } else if k == 4 {
        assert FaceToVec(West) == Success(Vec3(-1, 0, 0));
      } else {
        assert FaceToVec(East) == Success(Vec3(1, 0, 0));
      }
    }

    /**
     * `PlaceHandler.performInfo`: for a solid block, the earliest predicted tick
     * below `ticks` at which some sample ray can place the block, with that
     * tick's accepted rays; the other kinds are not implemented.
     */
    method PerformInfo(casts: nat -> seq<Option<RayHit>>, selfBox: nat -> bool, ticks: nat)
      returns (r: Result<InfoResult, HandlerError>)
      requires role == Place
      ensures kind != Solid ==> r == Failure(NotImplemented)
      ensures kind == Solid ==> r == Search(pos, casts, selfBox, 0, ticks)
    {
      if kind != Solid {
        return Failure(NotImplemented);
      }
      var works: seq<RayHit> := [];
      var shiftTick := Infinity;
      var i: nat := 0;
      while i < ticks
        invariant i <= ticks
        invariant works == [] && shiftTick == Infinity
        invariant Search(pos, casts, selfBox, i, ticks) == Search(pos, casts, selfBox, 0, ticks)
      {
        var scan;
        scan, shiftTick := ScanSamples(casts(i), selfBox(i), i, shiftTick);
        if scan.Failure? {
          return Failure(scan.error);
        }
        works := scan.value;
        if works != [] {
          return Success(InfoResult(Finite(i), shiftTick, works));
        }
        i := i + 1;
      }
      return Success(InfoResult(Infinity, shiftTick, works));
    }

    /**
     * The sample loop of predicted tick `i` in `performInfo`: the accepted
     * rays, or the error of a hit on an unknown face. The crouch tick is only
     * overwritten when one was already recorded, so an unset one stays unset.
     */
    method ScanSamples(hits: seq<Option<RayHit>>, blocked: bool, i: nat, shiftTick0: Ticks)
      returns (r: Result<seq<RayHit>, HandlerError>, shiftTick: Ticks)
      ensures r == AcceptedHits(pos, hits, blocked)
      ensures shiftTick0 == Infinity ==> shiftTick == Infinity
    {
      shiftTick := shiftTick0;
      var works: seq<RayHit> := [];
      var k := 0;
      while k < |hits|
        invariant k <= |hits|
        invariant shiftTick0 == Infinity ==> shiftTick == Infinity
        invariant AcceptedHits(pos, hits[..k], blocked) == Success(works)
      {
        AcceptedHitsExtend(pos, hits, k, blocked);
        if hits[k].Some? {
          var hit := hits[k].value;
          var face := FaceToVec(hit.face);
          if face.Failure? {
            AcceptedHitsPrefixFailure(pos, hits, k + 1, blocked);
            return Failure(face.error), shiftTick;
          }
          if hit.position.Plus(face.value) == pos {
            if blocked {
              if shiftTick != Infinity {
                shiftTick := Finite(i);
              }
            } else {
              works := works + [hit];
            }
          }
        }
        k := k + 1;
      }
      assert hits[..|hits|] == hits;
      return Success(works), shiftTick;
    }

    /**
     * `PlaceHandler.perform`. `polls` are the successive `performInfo` results
     * the solid case waits on (one tick apart); the source waits without bound,
     * the model stops with `StillWaiting` when they run out.
     */
    method PerformPlace(item: Option<Item>, polls: seq<Result<InfoResult, HandlerError>>) returns (r: PerformResult)
      requires role == Place
      modifies this
      ensures old(performing) ==> r == Threw(AlreadyPerforming) && performing && done == old(done)
      ensures !old(performing) ==> performing == !r.Completed? && done == (old(done) || r.Completed?)
      ensures !old(performing) && item.None? ==> r == Threw(InvalidItem)
      ensures !old(performing) && item.Some? && kind == Water ==>
        r == if item.value.name == "water_bucket" then Completed else Threw(InvalidItem)
      ensures !old(performing) && item.Some? && kind == Solid ==> r == Settle(polls)
      ensures !old(performing) && item.Some? && kind == Replaceable ==> r == Threw(NotImplemented)
    {
      if performing {
        return Threw(AlreadyPerforming);
      }
      performing := true;
      if item.None? {
        return Threw(InvalidItem);
      }
      match kind {
        case Water =>
          if item.value.name != "water_bucket" {
            return Threw(InvalidItem);
          }
        case Solid =>
          var i := 0;
          while i < |polls| && !Settled(polls[i])
            invariant i <= |polls|
            invariant Settle(polls[i..]) == Settle(polls)
          {
            assert polls[i..][1..] == polls[i + 1..];
            i := i + 1;
          }
          if i == |polls| {
            return StillWaiting;
          }
          if polls[i].Failure? {
            return Threw(polls[i].error);
          }
        case Replaceable =>
          return Threw(NotImplemented);
      }
      done := true;
      performing := false;
      return Completed;
    }

    /** `BreakHandler.perform`: `blockPresent` says whether the world has a block at the target. */
    method PerformBreak(item: Option<Item>, blockPresent: bool) returns (r: PerformResult)
      requires role == Break
      modifies this
      ensures done == old(done) && r != StillWaiting
      ensures old(performing) ==> r == Threw(AlreadyPerforming) && performing
      ensures !old(performing) ==> performing == r.Threw?
      ensures !old(performing) && item.None? ==> r == Threw(InvalidItem)
      ensures !old(performing) && item.Some? && kind == Water ==>
        r == if item.value.name == "bucket" then Completed else Threw(InvalidItem)
      ensures !old(performing) && item.Some? && kind == Solid ==>
        r == if blockPresent then Completed else Threw(InvalidBlock)
      ensures !old(performing) && item.Some? && kind == Replaceable ==> r == Threw(NotImplemented)
    {
      if performing {
        return Threw(AlreadyPerforming);
      }
      performing := true;
      if item.None? {
        return Threw(InvalidItem);
      }
      match kind {
        case Water =>
          if item.value.name != "bucket" {
            return Threw(InvalidItem);
          }
        case Solid =>
          if !blockPresent {
            return Threw(InvalidBlock);
          }
        case Replaceable =>
          return Threw(NotImplemented);
      }
      performing := false;
      return Completed;
    }
  }

  /** Squared distance from the origin corner of cell `p` to point `q`. */
  function DistSq(p: Vec3, q: Point): real {
    var dx := q.x - p.x as real;
    var dy := q.y - p.y as real;
    var dz := q.z - p.z as real;
    dx * dx + dy * dy + dz * dz
  }
}
