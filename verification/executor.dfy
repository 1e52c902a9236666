/**
 * The session state of a movement while it executes: the `cancelled` and
 * `resetting` flags and the entry guards they drive, `abort`, the guard
 * prefix of `isComplete`, the choice of the next interaction, and the
 * bookkeeping of the current interaction while one runs.
 */
module Executor {
  import opened Wrappers
  import opened Blocks
  import opened Handlers
  import Movements

  /** The handler lists of the move being executed. */
  datatype MoveRun = MoveRun(toBreak: seq<InteractHandler>, toPlace: seq<InteractHandler>)

  /** Errors the executor raises: the entry-guard errors and the `CancelError`s of an interaction. */
  datatype ExecError = ResetError | AbortError | NoItemToPlace | NoBlockToBreak | InteractionFailed

  /** The optional settings of `abort`. */
  datatype AbortOpts = AbortOpts(resetting: Option<bool>, timeout: Option<int>)

  /** `abort`'s timeout when none is given. */
  const DefaultAbortTimeout := 1000

  /** The part of the bot's state `safeToCancel` reads. */
  datatype BotState = BotState(onGround: bool, inWater: bool)

  /** How the wait at the end of `abort` ends: skipped (already aborting), resolved at a tick, or timed out. */
  datatype AbortOutcome = Skipped | Resolved(tick: nat) | TimedOut

  /**
   * `safeToCancel`: it is safe to cancel exactly when the bot is on the ground
   * or in water; the source ignores its move arguments, so they are left out.
   */
  function SafeToCancel(s: BotState): (r: bool)
    ensures r <==> s.onGround || s.inWater
  {
    s.onGround || s.inWater
  }

  /** The end of the wait over the physics ticks observed before the timer fires. */
  function FirstSafe(states: seq<BotState>): (r: AbortOutcome)
    ensures r != Skipped
    ensures r.Resolved? ==>
      && r.tick < |states|
      && SafeToCancel(states[r.tick])
      && (forall j :: 0 <= j < r.tick ==> !SafeToCancel(states[j]))
    ensures r == TimedOut <==> forall j :: 0 <= j < |states| ==> !SafeToCancel(states[j])
    decreases |states|
  {
    if states == [] then TimedOut
    else
      var r := FirstSafe(states[..|states| - 1]);
      if r.Resolved? then r
      else if SafeToCancel(states[|states| - 1]) then Resolved(|states| - 1)
      else TimedOut
  }

  /** The `physicsTick` listener of `abort`: resolves at the first tick on which cancelling is safe. */
  method WaitSafe(states: seq<BotState>) returns (outcome: AbortOutcome)
    ensures outcome == FirstSafe(states)
  {
    var i := 0;
    while i < |states|
      invariant 0 <= i <= |states|
      invariant FirstSafe(states[..i]) == TimedOut
    {
      assert states[..i + 1][..i] == states[..i];
      if SafeToCancel(states[i]) {
        FirstSafePrefix(states, i + 1);
        return Resolved(i);
      }
      i := i + 1;
    }
    assert states[..i] == states;
    return TimedOut;
  }

  /** A tick that resolves a prefix of the observations resolves all of them. */
  lemma {:induction false} FirstSafePrefix(states: seq<BotState>, n: nat)
    requires n <= |states|
    requires FirstSafe(states[..n]).Resolved?
    ensures FirstSafe(states) == FirstSafe(states[..n])
    decreases |states| - n
  {
    if n < |states| {
      assert states[..n + 1][..n] == states[..n];
      FirstSafePrefix(states, n + 1);
    } else {
      assert states[..n] == states;
    }
  }

  /**
   * `interactPossible` asks a handler for its info (`performInfo`) when it is not the
   * current interaction and not done. `info(h)` is that answer: whether its ticks are
   * finite, or the error the call throws.
   */
  predicate Probed(h: InteractHandler, cI: InteractHandler?)
    reads h
  {
    h != cI && !h.done
  }

  /** A probed handler whose info has finite ticks: `interactPossible` returns it. */
  predicate Eligible(h: InteractHandler, cI: InteractHandler?, info: InteractHandler -> Result<bool, HandlerError>)
    reads h
  {
    Probed(h, cI) && info(h) == Success(true)
  }

  /** A probed handler whose info throws: `interactPossible` rethrows its error. */
  predicate Throws(h: InteractHandler, cI: InteractHandler?, info: InteractHandler -> Result<bool, HandlerError>)
    reads h
  {
    Probed(h, cI) && info(h).Failure?
  }

  /** The scan stops at `h`: it is returned, or its info throws. */
  predicate Stops(h: InteractHandler, cI: InteractHandler?, info: InteractHandler -> Result<bool, HandlerError>)
    reads h
  {
    Eligible(h, cI, info) || Throws(h, cI, info)
  }

  /** The scan of `hs` in order: the first eligible handler, the error of the first probe that throws, or null. */
  function FirstEligible(hs: seq<InteractHandler>, cI: InteractHandler?, info: InteractHandler -> Result<bool, HandlerError>): Result<InteractHandler?, HandlerError>
    reads hs
    decreases |hs|
  {
    if hs == [] then Success(null)
    else if Eligible(hs[0], cI, info) then Success(hs[0])
    else if Throws(hs[0], cI, info) then Failure(info(hs[0]).error)
    else FirstEligible(hs[1..], cI, info)
  }

  /**
   * The scan decides at the first handler where it stops: null exactly when it
   * stops nowhere, otherwise that handler when it is eligible, or its error.
   */
  lemma {:induction false} FirstEligibleSound(hs: seq<InteractHandler>, cI: InteractHandler?, info: InteractHandler -> Result<bool, HandlerError>)
    ensures var r := FirstEligible(hs, cI, info);
      && (r == Success(null) <==> forall i :: 0 <= i < |hs| ==> !Stops(hs[i], cI, info))
      && (r.Success? && r.value != null ==> exists i ::
            && 0 <= i < |hs|
            && hs[i] == r.value
            && Eligible(hs[i], cI, info)
            && (forall j :: 0 <= j < i ==> !Stops(hs[j], cI, info)))
      && (r.Failure? ==> exists i ::
            && 0 <= i < |hs|
            && Throws(hs[i], cI, info)
            && info(hs[i]) == Failure(r.error)
            && (forall j :: 0 <= j < i ==> !Stops(hs[j], cI, info)))
    decreases |hs|
  {
    if hs != [] {
      FirstEligibleSound(hs[1..], cI, info);
      assert forall j :: 1 <= j < |hs| ==> hs[j] == hs[1..][j - 1];
      if !Stops(hs[0], cI, info) {
        var r := FirstEligible(hs, cI, info);
        if r.Success? && r.value != null {
          var i :| 0 <= i < |hs[1..]| && hs[1..][i] == r.value && Eligible(hs[1..][i], cI, info)
            && (forall j :: 0 <= j < i ==> !Stops(hs[1..][j], cI, info));
          assert hs[i + 1] == r.value;
        }
        if r.Failure? {
          var i :| 0 <= i < |hs[1..]| && Throws(hs[1..][i], cI, info) && info(hs[1..][i]) == Failure(r.error)
            && (forall j :: 0 <= j < i ==> !Stops(hs[1..][j], cI, info));
          assert Throws(hs[i + 1], cI, info);
        }
      }
    }
  }

  /** Breaks are examined before places: a break that is eligible or throws always decides before any place is asked. */
  lemma {:induction false} BreaksBeforePlaces(breaks: seq<InteractHandler>, places: seq<InteractHandler>, cI: InteractHandler?, info: InteractHandler -> Result<bool, HandlerError>)
    ensures FirstEligible(breaks + places, cI, info)
      == if FirstEligible(breaks, cI, info) != Success(null) then FirstEligible(breaks, cI, info) else FirstEligible(places, cI, info)
    decreases |breaks|
  {
    if breaks != [] {
      assert (breaks + places)[0] == breaks[0];
      assert (breaks + places)[1..] == breaks[1..] + places;
      BreaksBeforePlaces(breaks[1..], places, cI, info);
    } else {
      assert breaks + places == places;
    }
  }

  class MovementExecutor {
    /** The move being executed. */
    var currentMove: MoveRun
    /** `_cI`, the interaction now running, if any. */
    var cI: InteractHandler?
    var cancelled: bool
    var resetting: bool

    constructor (move: MoveRun)
      ensures currentMove == move && cI == null && !cancelled && !resetting
    {
      currentMove := move;
      cI := null;
      cancelled := false;
      resetting := false;
    }

    /** `reset`: clears both flags, which reopens the entry points. */
    method Reset()
      modifies this`cancelled, this`resetting
      ensures !cancelled && !resetting
      ensures EntryGuard() == Pass
    {
      cancelled := false;
      resetting := false;
    }

    /** The check opening `_performInit`, `_performPerTick` and `_align`: resetting first, then cancelled. */
    function EntryGuard(): (r: Outcome<ExecError>)
      reads this
      ensures r == Pass <==> !resetting && !cancelled
      ensures resetting ==> r == Fail(ResetError)
      ensures !resetting && cancelled ==> r == Fail(AbortError)
    {
      if resetting then Fail(ResetError)
      else if cancelled then Fail(AbortError)
      else Pass
    }

    /**
     * `abort`: unless already cancelled or resetting, sets the flags, calls
     * `_abort` on every break then every place handler of `move` (returned as
     * the call log), and waits over the ticks `observe(timeout)` seen before
     * the timer fires.
     */
    method Abort(move: MoveRun, opts: AbortOpts, observe: int -> seq<BotState>)
      returns (calls: seq<InteractHandler>, timeout: int, outcome: AbortOutcome)
      modifies this`cancelled, this`resetting
      ensures old(cancelled || resetting) ==>
        calls == [] && outcome == Skipped && cancelled == old(cancelled) && resetting == old(resetting)
      ensures !old(cancelled || resetting) ==>
        && cancelled
        && resetting == opts.resetting.GetOr(false)
        && timeout == opts.timeout.GetOr(DefaultAbortTimeout)
        && calls == move.toBreak + move.toPlace
        && outcome == FirstSafe(observe(timeout))
      ensures EntryGuard().Fail?
    {
      calls, timeout := [], DefaultAbortTimeout;
      if cancelled || resetting {
        return calls, timeout, Skipped;
      }
      timeout := opts.timeout.GetOr(DefaultAbortTimeout);
      var resettingOpt := opts.resetting.GetOr(false);
      cancelled := true;
      resetting := resettingOpt;
      for i := 0 to |move.toBreak|
        invariant calls == move.toBreak[..i]
      {
        calls := calls + [move.toBreak[i]];
      }
      for i := 0 to |move.toPlace|
        invariant calls == move.toBreak + move.toPlace[..i]
      {
        calls := calls + [move.toPlace[i]];
      }
      outcome := WaitSafe(observe(timeout));
    }

    /**
     * `_performInit`: the entry guard, then the category's `performInit`,
     * whose outcome (it may run an interaction and throw) is `initOutcome`.
     */
    method PerformInit(initOutcome: Outcome<ExecError>) returns (r: Outcome<ExecError>)
      ensures EntryGuard().Fail? ==> r == EntryGuard()
      ensures EntryGuard() == Pass ==> r == initOutcome
      ensures r == Pass <==> !resetting && !cancelled && initOutcome == Pass
    {
      if resetting {
        return Fail(ResetError);
      }
      if cancelled {
        return Fail(AbortError);
      }
      return initOutcome;
    }

    /** `_performPerTick` for a move of category `k`: the entry guard, then that category's per-tick step. */
    method PerformPerTick(k: Movements.Kind, predicted: Point, s: Movements.TickSnapshot)
      returns (r: Result<Movements.TickDecision, ExecError>)
      ensures EntryGuard().Fail? ==> r == Failure(EntryGuard().error)
      ensures EntryGuard() == Pass ==> r == Success(Movements.PerTick(k, cI, predicted, s))
    {
      if resetting {
        return Failure(ResetError);
      }
      if cancelled {
        return Failure(AbortError);
      }
      var d := Movements.PerTick(k, cI, predicted, s);
      return Success(d);
    }

    /** `_align`; the geometric `align` it delegates to is given by its answer `aligned`. */
    method Align(aligned: bool) returns (r: Result<bool, ExecError>)
      ensures r.Success? <==> !resetting && !cancelled
      ensures resetting ==> r == Failure(ResetError)
      ensures !resetting && cancelled ==> r == Failure(AbortError)
      ensures r.Success? ==> r.value == aligned
    {
      if resetting {
        return Failure(ResetError);
      }
      if cancelled {
        return Failure(AbortError);
      }
      return Success(aligned);
    }

    /**
     * `isComplete`: false while any break or place is pending or the current
     * interaction forbids exit; otherwise the geometric test `geometric`.
     */
    function IsComplete(pendingBreaks: nat, pendingPlaces: nat, cIAllowsExit: bool, geometric: bool): (r: bool)
      reads this
      ensures r ==> pendingBreaks == 0 && pendingPlaces == 0
      ensures r && cI != null ==> cIAllowsExit
      ensures pendingBreaks == 0 && pendingPlaces == 0 && (cI != null ==> cIAllowsExit) ==> (r <==> geometric)
    {
      if pendingBreaks > 0 then false
      else if pendingPlaces > 0 then false
      else if cI != null && !cIAllowsExit then false
      else geometric
    }

    /**
     * `interactPossible`: the first break, then the first place, that is not
     * the current interaction, not done, and whose info has finite ticks.
     * A throwing `performInfo` ends the scan with its error.
     */
    method InteractPossible(info: InteractHandler -> Result<bool, HandlerError>) returns (r: Result<InteractHandler?, HandlerError>)
      ensures r == FirstEligible(currentMove.toBreak + currentMove.toPlace, cI, info)
    {
      var breaks, places := currentMove.toBreak, currentMove.toPlace;
      for i := 0 to |breaks|
        invariant FirstEligible(breaks + places, cI, info) == FirstEligible(breaks[i..] + places, cI, info)
      {
        assert (breaks[i..] + places)[0] == breaks[i];
        assert (breaks[i..] + places)[1..] == breaks[i + 1..] + places;
        if breaks[i] != cI && !breaks[i].done {
          var res := info(breaks[i]);
          if res.Failure? {
            return Failure(res.error);
          }
          if res.value {
            return Success(breaks[i]);
          }
        }
      }
      assert breaks[|breaks|..] + places == places;
      for j := 0 to |places|
        invariant FirstEligible(breaks + places, cI, info) == FirstEligible(places[j..], cI, info)
      {
        assert places[j..][1..] == places[j + 1..];
        if places[j] != cI && !places[j].done {
          var res := info(places[j]);
          if res.Failure? {
            return Failure(res.error);
          }
          if res.value {
            return Success(places[j]);
          }
        }
      }
      return Success(null);
    }

    /**
     * `performInteraction`: makes `h` the current interaction, then places or
     * breaks. `available` says whether the item to place or the block to break
     * exists, `performOk` whether the handler's `_perform` succeeds.
     */
    method PerformInteraction(h: InteractHandler, available: bool, performOk: bool) returns (r: Outcome<ExecError>)
      modifies this`cI
      ensures r == Pass <==> available && performOk
      ensures r == Pass ==> cI == null
      ensures r.Fail? ==> cI == h
      ensures !available ==> r == Fail(if h.role == Place then NoItemToPlace else NoBlockToBreak)
    {
      cI := h;
      if h.role == Place {
        r := PerformPlace(h, available, performOk);
      } else {
        r := PerformBreak(h, available, performOk);
      }
    }

    /** `performPlace`: `CancelError` without an item; clears the current interaction only after success. */
    method PerformPlace(place: InteractHandler, itemFound: bool, performOk: bool) returns (r: Outcome<ExecError>)
      modifies this`cI
      ensures !itemFound ==> r == Fail(NoItemToPlace)
      ensures itemFound && !performOk ==> r == Fail(InteractionFailed)
      ensures r == Pass <==> itemFound && performOk
      ensures r == Pass ==> cI == null
      ensures r.Fail? ==> cI == old(cI)
    {
      if !itemFound {
        return Fail(NoItemToPlace);
      }
      if !performOk {
        return Fail(InteractionFailed);
      }
      cI := null;
      return Pass;
    }

    /** `performBreak`: `CancelError` without a block; clears the current interaction only after success. */
    method PerformBreak(breakTarget: InteractHandler, blockFound: bool, performOk: bool) returns (r: Outcome<ExecError>)
      modifies this`cI
      ensures !blockFound ==> r == Fail(NoBlockToBreak)
      ensures blockFound && !performOk ==> r == Fail(InteractionFailed)
      ensures r == Pass <==> blockFound && performOk
      ensures r == Pass ==> cI == null
      ensures r.Fail? ==> cI == old(cI)
    {
      if !blockFound {
        return Fail(NoBlockToBreak);
      }
      if !performOk {
        return Fail(InteractionFailed);
      }
      cI := null;
      return Pass;
    }
  }
}
