# Lootbox reel engine

A model of the reel engine of the case-opening overlay's `LootboxUI` component: a strip of reward
tiles that spins through many full passes over the item list, decelerates, and lands exactly on a
target item chosen by the host, with click sounds paced as tiles pass the landing marker.

The model has six modules:

- `Wrappers` (`wrappers.dfy`): the `Option` type, for a lookup that may find nothing.
- `Rarity` (`rarity.dfy`): an item's tier from its win percentage, and the item list with the tiers filled in.
- `JsNumber` (`jsnumber.dfy`): JavaScript's truncating `%`, and facts about Euclidean division used by the rest.
- `ReelLayout` (`layout.dfy`): the nine tiles drawn around the centre item. They are built by a loop that wraps around the list.
- `Tween` (`tween.dfy`): the arithmetic of a spin. It covers the random plan, the quartic coarse tween over 8000 ms, the cubic fine tween over 800 ms, and the click pacing.
- `Lootbox` (`lootbox.dfy`): the class `LootboxUI`. Its fields are the component's React state (`isSpinning`, `selectedItem`, `currentOffset`, `centerItemIndex`, `isWinning`). It also holds the spin's closure variables (`lastSoundTime`, `lastItemIndex`) and the requested animation frame with the callback it will run.

In the class, `SpinToItem` starts a spin. `AnimateTick` runs one coarse frame and `CenterTick` one fine frame. `OnSpinResult` is the effect that reacts to a host result, and `Spin` is the spin button.

Each animation frame is a tick call that takes the frame's wall-clock time `now` in milliseconds.
Each `Math.random()` draw is a real parameter in [0, 1). A played click sound is recorded as its
time in the `clicks` log.

The main results:

- The plan of every spin lands on its target. When the coarse phase ends, the target is under the landing marker. The offset left is the jitter's share of a tile, in [19.8, 99) pixels, and no whole tile remains to move.
- In the fine phase, the reel stays on the target while that offset eases out.
- A fine frame 800 ms after the coarse phase ended snaps the offset to 0. It stops the spin, selects the target item and marks it winning.
- Every frame keeps the centre index in [0, item count) and the offset in [0, 198).

## Model

| member | source | states |
|---|---|---|
| `Rarity.CalculateRarity` | web/src/components/LootboxUI.tsx:56-61 | common exactly for percentage ≥ 30, rare for [15, 30), epic for [5, 15), legendary below 5 |
| `Rarity.RarityMonotone` | web/src/components/LootboxUI.tsx:56-61 | a larger percentage never gives a rarer tier |
| `Rarity.WithRarity` | web/src/components/LootboxUI.tsx:63-66 | same length; every item gets the tier of its own percentage and nothing else about it changes |
| `JsNumber.JsRem` | web/src/components/LootboxUI.tsx:94 | JavaScript `%`: the result has the sign of the dividend, is smaller than the divisor in size, and differs from the dividend by a multiple of the divisor |
| `JsNumber.TrueModulo` | web/src/components/LootboxUI.tsx:94-95 | adding the length to a negative remainder gives the true modulus |
| `ReelLayout.WindowIndex` | web/src/components/LootboxUI.tsx:94-95 | the index shown at a position is always a valid index of the list |
| `ReelLayout.GetDisplayItems` | web/src/components/LootboxUI.tsx:91-103 | exactly 9 tiles; positions -4..4 in order; each index is (centre + position) mod length and the tile shows that item; the position-0 tile shows the centre item |
| `ReelLayout.WindowRepeats` | web/src/components/LootboxUI.tsx:91-103 | two positions show the same index exactly when they are a multiple of the length apart, so indices repeat when there are fewer than 9 items and are distinct otherwise |
| `Tween.Rotations` | web/src/components/LootboxUI.tsx:370 | a spin makes 8 to 12 full passes |
| `Tween.RandomOffset` | web/src/components/LootboxUI.tsx:371 | the overshoot jitter lies in [0.1, 0.5) of a tile |
| `Tween.StepsToTarget` | web/src/components/LootboxUI.tsx:372 | the steps lie in [0, length), moving them from the centre reaches the target, and they are 0 exactly when the centre is the target |
| `Tween.TotalSteps` | web/src/components/LootboxUI.tsx:373 | with a jitter in [0, 1), the whole part of the total is rotations·length + steps to target and the fractional part is the jitter's |
| `Tween.Progress` | web/src/components/LootboxUI.tsx:382-383 | progress lies in [0, 1]; it is 1 exactly when the elapsed time has reached the duration, and before that it is elapsed / duration |
| `Tween.ProgressMonotone` | web/src/components/LootboxUI.tsx:382-383 | a later frame of the same phase never has less progress, for any duration |
| `Tween.Pow` | web/src/components/LootboxUI.tsx:384 | powers of a base in [0, 1] stay in [0, 1], are 0 only for base 0 and 1 only for base 1 |
| `Tween.EaseOut` | web/src/components/LootboxUI.tsx:384 | eased progress lies in [0, 1], is 1 exactly at the end and 0 exactly at the start |
| `Tween.EaseOutMonotone` | web/src/components/LootboxUI.tsx:381-386 | a larger progress never has less eased progress, nor a smaller eased share of the total steps; with `Tween.ProgressMonotone` the coarse reel never runs backwards |
| `Tween.CoarsePosition` | web/src/components/LootboxUI.tsx:385-389 | the centre index is in [0, length) and is the start index advanced by the whole steps; the offset is in [0, 198) and is the fractional step in pixels |
| `Tween.CoarseLandsOnTarget` | web/src/components/LootboxUI.tsx:370-389 | at progress 1 the whole steps are rotations·length + steps to target, the centre is the target, the offset is in [19.8, 99), and the fine phase has no tile to move |
| `Tween.FineTravel` | web/src/components/LootboxUI.tsx:413-424 | the fine-phase pixel position is a convex combination of the start offset and itemsToMove·198, so it is non-negative and never passes the target |
| `Tween.FinePosition` | web/src/components/LootboxUI.tsx:423-427 | centre in [0, length) and offset in [0, 198); the centre is between 0 and itemsToMove tiles past the start; centre and offset together give the travelled pixels; with no tile to move the centre stays put |
| `Tween.ClickThreshold` | web/src/components/LootboxUI.tsx:397 | the minimum gap between clicks lies in [50, 200] ms |
| `Tween.ClickDue` | web/src/components/LootboxUI.tsx:398 | a click is due only when more than 50 ms passed, always when more than 200 ms passed, and with the exact strict thresholds at progress 0 and 1 |
| `Lootbox.FindIndex` | web/src/components/LootboxUI.tsx:119 | returns the first index whose item has the id, or none when no item has it |
| `Lootbox.TargetDraw` | web/src/components/LootboxUI.tsx:456 | the locally drawn target is a valid index |
| `Lootbox.PlanSpin` | web/src/components/LootboxUI.tsx:370-379 | the plan starts at the current centre and time and keeps the drawn rotations and jitter; its steps reach the target; the fractional part of the total is the jitter's; for non-negative rotations and a jitter in [0, 1) the total is non-negative and its whole steps from the centre land on the target |
| `Lootbox.StartSettle` | web/src/components/LootboxUI.tsx:407-415 | the fine phase starts at the coarse phase's final centre, offset and time; itemsToMove in [0, length) reaches the target, is 0 exactly when the centre is already the target, and the pixel distance plus the start offset is itemsToMove tiles |
| `Lootbox.LootboxUI.constructor` | web/src/components/LootboxUI.tsx:42-66 | idle, nothing selected, not winning, centre 0 and offset 0; the items carry their tiers |
| `Lootbox.LootboxUI.SpinToItem` | web/src/components/LootboxUI.tsx:363-379 | no change at all while spinning; otherwise spinning, selection cleared, not winning, the coarse frame requested with the plan from the draws, and the click state reset |
| `Lootbox.LootboxUI.AnimateTick` | web/src/components/LootboxUI.tsx:381-415 | the reel stands where the quartic tween puts it. A click plays exactly when the centre changed and the throttle allows it, and the click state follows. Once 8000 ms have passed, the reel is on the target with offset in [19.8, 99) and the fine phase is requested |
| `Lootbox.LootboxUI.CenterTick` | web/src/components/LootboxUI.tsx:417-442 | the centre stays on the target and no click plays. Before 800 ms the offset follows the cubic tween and never exceeds its start offset. From 800 ms the offset is 0, spinning stops, the target is selected and winning, and no frame is requested |
| `Lootbox.LootboxUI.OnSpinResult` | web/src/components/LootboxUI.tsx:117-126 | a result is handled exactly when one is present and no spin runs. A found id starts a spin to its first index. An unknown id changes nothing |
| `Lootbox.LootboxUI.Spin` | web/src/components/LootboxUI.tsx:449-459 | no effect while spinning. With a host callback only the permission answer is reported and the state is unchanged. Without one a drawn index is spun to |
| `Lootbox.SpinLandsOnTarget` | web/src/components/LootboxUI.tsx:363-447 | whatever the draws, a spin started idle ends after a coarse frame at 8000 ms and a fine frame 800 ms later. It ends on the target, with offset 0, not spinning, winning, and that item selected |

## Left out

- Sound synthesis (`playClickSound`, web/src/components/LootboxUI.tsx:128-361) is Web Audio and random noise. A played click is only recorded as its time in `clicks`.
- Creating and closing the audio context, and cancelling the frame on unmount (web/src/components/LootboxUI.tsx:105-115), are runtime plumbing. `requestAnimationFrame` is modelled only by which callback the next frame runs.
- A frame reads `Date.now()` several times. The model uses one `now` per tick for all of them. A tick requires `now` to be no earlier than the start of its phase, so the clock is taken not to run backwards.
- `Math.random()` draws are parameters. So is the host's permission answer, which `spin` awaits. Between that await and the host's `spinResult`, another press can request again. This interleaving is not modelled.
- Number arithmetic is exact `real` arithmetic, not IEEE doubles. `Math.pow` with integer exponents is `Pow`.
- The empty item list is excluded by `requires |items| > 0`. The component has no guard for it, and `% 0` gives NaN.
- The sound picker, rarity colours and labels, the sound option table and the JSX render are presentation only.
- web/src/App.tsx is not part of this model. It covers the host messages, the fetch calls and the Escape key. The `spinDuration` prop it passes is never read by the component, which hard-codes 8000 ms (`Tween.SpinDuration`).
- Where the system's design description differs from the code, the model follows the code:
  - After landing, the reel is idle again at once, because `isSpinning` is false. There is no separate reset step.
  - An unknown result id does not raise an error. The spin is skipped and the result is still acknowledged.
  - Clicks are paced only in the coarse phase, never in the fine phase.
  - The coarse duration is a constant, not a configurable value.
