/** The reel engine of the lootbox component: its React state, the spin that animates it in two
    wall-clock-driven phases, and the two ways a spin is started. Each animation frame is an
    explicit tick call carrying the frame's wall-clock time `now` in milliseconds; each
    `Math.random()` draw is a parameter in [0, 1). */
module Lootbox {
  import opened Wrappers
  import opened Rarity
  import opened JsNumber
  import opened Tween

  /** The constants a spin fixes when it starts, captured by the coarse-phase callback. */
  datatype SpinPlan = SpinPlan(
    targetIndex: int,
    rotations: int,
    randomOffset: real,
    stepsToTarget: int,
    totalSteps: real,
    startTime: int,
    startIndex: int)

  /** The constants the fine phase captures from the last coarse tick. */
  datatype Settle = Settle(
    landedItemIndex: int,
    centerStartTime: int,
    startCenterIndex: int,
    startOffset: real,
    itemsToMove: int,
    totalPixelDistance: real)

  /** The animation frame that is requested, if any, and which callback it will run. */
  datatype Frame = NoFrame | Animate(plan: SpinPlan) | CenterAnimate(settle: Settle)

  /** How `spin` is reached: through the host's permission callback, or with no callback,
      in which case it draws the target itself. */
  datatype SpinRequest = HostCallback(granted: bool) | LocalDraw(draw: real)

  /** What `spin` did. */
  datatype SpinOutcome = Busy | Denied | AwaitingResult | SpunLocally(targetIndex: int)

  /** The plan `spinToItem` makes for a spin from `centerItemIndex` to `targetIndex`. */
  function PlanSpin(targetIndex: int, rotations: int, randomOffset: real, now: int,
                    centerItemIndex: int, n: int): (plan: SpinPlan)
    requires n > 0 && 0 <= targetIndex < n && 0 <= centerItemIndex < n
    ensures plan.targetIndex == targetIndex && plan.startIndex == centerItemIndex && plan.startTime == now
    ensures plan.rotations == rotations && plan.randomOffset == randomOffset
    ensures plan.totalSteps - plan.totalSteps.Floor as real == randomOffset - randomOffset.Floor as real
    ensures 0 <= plan.stepsToTarget < n && (centerItemIndex + plan.stepsToTarget) % n == targetIndex
    ensures 0 <= rotations && 0.0 <= randomOffset < 1.0 ==>
      0.0 <= plan.totalSteps &&
      plan.totalSteps.Floor == rotations * n + plan.stepsToTarget &&
      (centerItemIndex + plan.totalSteps.Floor) % n == targetIndex
  {
    var stepsToTarget := StepsToTarget(targetIndex, centerItemIndex, n);
    ModShift(centerItemIndex + stepsToTarget, rotations, n);
    assert 0 <= rotations ==> 0 <= rotations * n;
    SpinPlan(targetIndex, rotations, randomOffset, stepsToTarget,
             TotalSteps(rotations, n, stepsToTarget, randomOffset), now, centerItemIndex)
  }

  /** The fine phase set up from where the coarse phase stopped. */
  function StartSettle(landedItemIndex: int, now: int, pos: Position, n: int): (s: Settle)
    requires n > 0 && 0 <= landedItemIndex < n && 0 <= pos.center < n
    ensures s.landedItemIndex == landedItemIndex && s.centerStartTime == now
    ensures s.startCenterIndex == pos.center && s.startOffset == pos.offset
    ensures 0 <= s.itemsToMove < n && (pos.center + s.itemsToMove) % n == landedItemIndex
    ensures s.startOffset + s.totalPixelDistance == s.itemsToMove as real * TileWidth
    ensures s.itemsToMove == 0 <==> pos.center == landedItemIndex
  {
    var itemsToMove := StepsToTarget(landedItemIndex, pos.center, n);
    Settle(landedItemIndex, now, pos.center, pos.offset, itemsToMove,
           itemsToMove as real * TileWidth - pos.offset)
  }

  ghost predicate PlanValid(plan: SpinPlan, n: int)
  {
    n > 0 && 0 <= plan.targetIndex < n && 0 <= plan.startIndex < n &&
    8 <= plan.rotations <= 12 && 0.1 <= plan.randomOffset < 0.5 &&
    plan.stepsToTarget == StepsToTarget(plan.targetIndex, plan.startIndex, n) &&
    plan.totalSteps == TotalSteps(plan.rotations, n, plan.stepsToTarget, plan.randomOffset)
  }

  /** A fine phase as the coarse phase leaves it: already on the target, with only the jitter's
      residual offset to remove. */
  ghost predicate SettleValid(s: Settle, n: int)
  {
    n > 0 && 0 <= s.landedItemIndex < n && s.startCenterIndex == s.landedItemIndex &&
    19.8 <= s.startOffset < 99.0 && s.itemsToMove == 0 &&
    s.totalPixelDistance == s.itemsToMove as real * TileWidth - s.startOffset
  }

  /** The lootbox component's reel: its state, and the closure variables of the running spin. */
  class LootboxUI {
    /** The items with their tiers (`itemsWithRarity`). */
    const items: seq<Item>
    var isSpinning: bool
    var selectedItem: Option<Item>
    var currentOffset: real
    var centerItemIndex: int
    var isWinning: bool
    /** `animationRef.current` together with the callback the requested frame will run. */
    var frame: Frame
    var lastSoundTime: int
    var lastItemIndex: int
    /** The times at which a click sound was played, oldest first. */
    var clicks: seq<int>

    ghost predicate Valid()
      reads this
    {
      |items| > 0 &&
      0 <= centerItemIndex < |items| && 0.0 <= currentOffset < TileWidth &&
      (isSpinning <==> !frame.NoFrame?) &&
      (selectedItem.Some? <==> isWinning) &&
      (isWinning ==> !isSpinning && currentOffset == 0.0 && selectedItem == Some(items[centerItemIndex])) &&
      (frame.Animate? ==> PlanValid(frame.plan, |items|)) &&
      (frame.CenterAnimate? ==>
        SettleValid(frame.settle, |items|) && centerItemIndex == frame.settle.landedItemIndex)
    }

    constructor (propsItems: seq<Item>)
      requires |propsItems| > 0
      ensures Valid()
      ensures items == WithRarity(propsItems)
      ensures !isSpinning && selectedItem == None && !isWinning
      ensures currentOffset == 0.0 && centerItemIndex == 0
      ensures frame == NoFrame && clicks == []
    {
      items := WithRarity(propsItems);
      isSpinning := false;
      selectedItem := None;
      currentOffset := 0.0;
      centerItemIndex := 0;
      isWinning := false;
      frame := NoFrame;
      lastSoundTime := 0;
      lastItemIndex := 0;
      clicks := [];
    }

    /** Starts a spin to `targetIndex` unless one is running; the draws pick the rotations and the
        overshoot. */
    method SpinToItem(targetIndex: int, rotationDraw: real, offsetDraw: real, now: int)
      requires Valid()
      requires 0 <= targetIndex < |items|
      requires 0.0 <= rotationDraw < 1.0 && 0.0 <= offsetDraw < 1.0
      modifies this
      ensures Valid()
      ensures old(isSpinning) ==> unchanged(this)
      ensures !old(isSpinning) ==>
        isSpinning && selectedItem == None && !isWinning &&
        centerItemIndex == old(centerItemIndex) && currentOffset == old(currentOffset) &&
        frame == Animate(PlanSpin(targetIndex, Rotations(rotationDraw), RandomOffset(offsetDraw), now,
                                  old(centerItemIndex), |items|)) &&
        lastSoundTime == 0 && lastItemIndex == old(centerItemIndex) && clicks == old(clicks)
    {
      if isSpinning {
        return;
      }
      isSpinning := true;
      selectedItem := None;
      isWinning := false;

      var rotations := Rotations(rotationDraw);
      var randomOffset := RandomOffset(offsetDraw);
      lastSoundTime := 0;
      lastItemIndex := centerItemIndex;
      frame := Animate(PlanSpin(targetIndex, rotations, randomOffset, now, centerItemIndex, |items|));
    }

    /** One frame of the coarse phase (`animate`). Returns whether a click was played. Once
        the 8000 ms have run out, the reel stands on the target and the fine phase is requested. */
    method AnimateTick(now: int) returns (played: bool)
      requires Valid() && frame.Animate? && now >= frame.plan.startTime
      modifies this
      ensures Valid()
      ensures var plan := old(frame.plan);
        var progress := Progress(now - plan.startTime, SpinDuration);
        Position(centerItemIndex, currentOffset) ==
          CoarsePosition(plan.startIndex, plan.totalSteps, EaseOut(progress, 4), |items|) &&
        (played <==> centerItemIndex != old(lastItemIndex) && ClickDue(now, old(lastSoundTime), progress))
      ensures lastItemIndex == centerItemIndex
      ensures lastSoundTime == (if played then now else old(lastSoundTime))
      ensures clicks == old(clicks) + (if played then [now] else [])
      ensures isSpinning && selectedItem == None && !isWinning
      ensures now - old(frame.plan.startTime) < SpinDuration ==> frame == old(frame)
      ensures now - old(frame.plan.startTime) >= SpinDuration ==>
        centerItemIndex == old(frame.plan.targetIndex) && 19.8 <= currentOffset < 99.0 &&
        frame == CenterAnimate(Settle(old(frame.plan.targetIndex), now, centerItemIndex, currentOffset,
                                      0, -currentOffset))
    {
      var plan := frame.plan;
      var progress := Progress(now - plan.startTime, SpinDuration);
      var easeOut := EaseOut(progress, 4);
      var pos := CoarsePosition(plan.startIndex, plan.totalSteps, easeOut, |items|);

      centerItemIndex := pos.center;
      currentOffset := pos.offset;

      played := false;
      if pos.center != lastItemIndex {
        lastItemIndex := pos.center;
        if ClickDue(now, lastSoundTime, progress) {
          clicks := clicks + [now];
          lastSoundTime := now;
          played := true;
        }
      }

      if progress == 1.0 {
        assert easeOut == 1.0;
        CoarseLandsOnTarget(plan.startIndex, plan.targetIndex, plan.rotations, plan.randomOffset, |items|);
        var settle := StartSettle(plan.targetIndex, now, pos, |items|);
        assert SettleValid(settle, |items|);
        frame := CenterAnimate(settle);
      }
    }

    /** One frame of the fine phase (`centerAnimate`). The reel keeps the target under the
        landing marker while the residual offset eases out; after 800 ms it snaps and the spin is over. */
    method CenterTick(now: int)
      requires Valid() && frame.CenterAnimate? && now >= frame.settle.centerStartTime
      modifies this
      ensures Valid()
      ensures var s := old(frame.settle);
        var progress := Progress(now - s.centerStartTime, CenterDuration);
        if progress < 1.0 then
          Position(centerItemIndex, currentOffset) ==
            FinePosition(s.startCenterIndex, s.startOffset, s.totalPixelDistance, s.itemsToMove,
                         EaseOut(progress, 3), |items|) &&
          currentOffset <= s.startOffset &&
          frame == old(frame) && isSpinning && selectedItem == None && !isWinning
        else
          currentOffset == 0.0 && !isSpinning && isWinning &&
          selectedItem == Some(items[s.landedItemIndex]) && frame == NoFrame
      ensures now - old(frame.settle.centerStartTime) >= CenterDuration <==> !isSpinning
      ensures centerItemIndex == old(frame.settle.landedItemIndex)
      ensures lastSoundTime == old(lastSoundTime) && lastItemIndex == old(lastItemIndex)
      ensures clicks == old(clicks)
    {
      var s := frame.settle;
      var centerProgress := Progress(now - s.centerStartTime, CenterDuration);
      var easeCenter := EaseOut(centerProgress, 3);

      if centerProgress < 1.0 {
        var pos := FinePosition(s.startCenterIndex, s.startOffset, s.totalPixelDistance, s.itemsToMove,
                                easeCenter, |items|);
        centerItemIndex := pos.center;
        currentOffset := pos.offset;
      } else {
        centerItemIndex := s.landedItemIndex;
        currentOffset := 0.0;
        isSpinning := false;
        selectedItem := Some(items[s.landedItemIndex]);
        isWinning := true;
        frame := NoFrame;
      }
    }

    /** The effect run when the `spinResult` prop changes: a result that arrives while idle is
        looked up by id and spun to if present, and handed back to the host either way. Returns
        whether `onSpinResultHandled` was called. */
    method OnSpinResult(spinResult: Option<int>, rotationDraw: real, offsetDraw: real, now: int)
      returns (handled: bool)
      requires Valid()
      requires 0.0 <= rotationDraw < 1.0 && 0.0 <= offsetDraw < 1.0
      modifies this
      ensures Valid()
      ensures handled <==> spinResult.Some? && !old(isSpinning)
      ensures !handled ==> unchanged(this)
      ensures handled && FindIndex(items, spinResult.value).None? ==> unchanged(this)
      ensures handled && FindIndex(items, spinResult.value).Some? ==>
        var targetIndex := FindIndex(items, spinResult.value).value;
        items[targetIndex].id == spinResult.value &&
        isSpinning && selectedItem == None && !isWinning &&
        centerItemIndex == old(centerItemIndex) && currentOffset == old(currentOffset) &&
        frame == Animate(PlanSpin(targetIndex, Rotations(rotationDraw), RandomOffset(offsetDraw), now,
                                  old(centerItemIndex), |items|)) &&
        lastSoundTime == 0 && lastItemIndex == old(centerItemIndex) && clicks == old(clicks)
    {
      handled := false;
      if spinResult.Some? && !isSpinning {
        var targetIndex := FindIndex(items, spinResult.value);
        if targetIndex.Some? {
          SpinToItem(targetIndex.value, rotationDraw, offsetDraw, now);
        }
        handled := true;
      }
    }

    /** The spin button. With a host callback the component only asks for permission and then
        waits for the host's `spinResult`; without one it draws a target itself and spins. */
    method Spin(request: SpinRequest, rotationDraw: real, offsetDraw: real, now: int)
      returns (outcome: SpinOutcome)
      requires Valid()
      requires request.LocalDraw? ==> 0.0 <= request.draw < 1.0
      requires 0.0 <= rotationDraw < 1.0 && 0.0 <= offsetDraw < 1.0
      modifies this
      ensures Valid()
      ensures old(isSpinning) ==> outcome == Busy && unchanged(this)
      ensures !old(isSpinning) && request.HostCallback? ==>
        outcome == (if request.granted then AwaitingResult else Denied) && unchanged(this)
      ensures !old(isSpinning) && request.LocalDraw? ==>
        var targetIndex := TargetDraw(request.draw, |items|);
        outcome == SpunLocally(targetIndex) &&
        isSpinning && selectedItem == None && !isWinning &&
        centerItemIndex == old(centerItemIndex) && currentOffset == old(currentOffset) &&
        frame == Animate(PlanSpin(targetIndex, Rotations(rotationDraw), RandomOffset(offsetDraw), now,
                                  old(centerItemIndex), |items|)) &&
        lastSoundTime == 0 && lastItemIndex == old(centerItemIndex) && clicks == old(clicks)
    {
      if isSpinning {
        return Busy;
      }
      match request
      case HostCallback(granted) =>
        outcome := if granted then AwaitingResult else Denied;
      case LocalDraw(draw) =>
        var targetIndex := TargetDraw(draw, |items|);
        SpinToItem(targetIndex, rotationDraw, offsetDraw, now);
        outcome := SpunLocally(targetIndex);
    }
  }

  /** The index of the first item with the given id (`findIndex`), or None when there is none. */
  function FindIndex(items: seq<Item>, id: int): (r: Option<nat>)
    ensures r.Some? ==> r.value < |items| && items[r.value].id == id
    ensures r.Some? ==> forall j :: 0 <= j < r.value ==> items[j].id != id
    ensures r.None? <==> forall j :: 0 <= j < |items| ==> items[j].id != id
  {
    if |items| == 0 then None
    else if items[0].id == id then Some(0)
    else match FindIndex(items[1..], id)
      case None => None
      case Some(k) => Some(k + 1)
  }

  /** The target the component draws itself when there is no host callback. */
  function TargetDraw(u: real, n: int): (targetIndex: int)
    requires 0.0 <= u < 1.0 && n > 0
    ensures 0 <= targetIndex < n
  {
    MulNonNegative(u, n as real);
    assert n as real - u * n as real == (1.0 - u) * n as real;
    MulNonNegative(1.0 - u, n as real - 1.0);
    assert (1.0 - u) * n as real == (1.0 - u) * (n as real - 1.0) + (1.0 - u);
    (u * n as real).Floor
  }

  /** A spin started while idle lands on its target within 8000 + 800 ms of wall-clock time,
      whatever the draws: a coarse frame at or after 8000 ms ends the coarse phase, and a fine frame
      at or after 800 ms more ends the spin. */
  method SpinLandsOnTarget(propsItems: seq<Item>, targetIndex: int, rotationDraw: real, offsetDraw: real,
                           startTime: int, coarseEnd: int, fineEnd: int)
    returns (ui: LootboxUI)
    requires |propsItems| > 0 && 0 <= targetIndex < |propsItems|
    requires 0.0 <= rotationDraw < 1.0 && 0.0 <= offsetDraw < 1.0
    requires startTime + SpinDuration <= coarseEnd && coarseEnd + CenterDuration <= fineEnd
    ensures ui.Valid()
    ensures ui.centerItemIndex == targetIndex && ui.currentOffset == 0.0
    ensures !ui.isSpinning && ui.isWinning && ui.frame == NoFrame
    ensures ui.selectedItem.Some? && ui.selectedItem.value.id == propsItems[targetIndex].id
  {
    ui := new LootboxUI(propsItems);
    ui.SpinToItem(targetIndex, rotationDraw, offsetDraw, startTime);
    var _ := ui.AnimateTick(coarseEnd);
    ui.CenterTick(fineEnd);
  }
}
