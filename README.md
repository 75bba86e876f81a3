# Circular step-progress indicator

A model of the custom Android view `MyCustomView`. The view draws a ring that is split into `totalSteps` arcs. Each arc is coloured by its step's state:
- successful steps come first;
- failed steps come next;
- pending steps fill the rest.

The model covers the following:
- how a step index is classified (`getStatus` and the `State` enum);
- the three counts that `setData` stores, and the two fields it derives from them (`pendingSteps` and `widthOfEachStep`);
- the default counts 12/2/2;
- the loop in `onDraw` that emits one arc per step. The loop keeps an angular cursor that starts at 270 degrees and moves on by `width + gap` after every arc.

Modules:
- `StepStatus` (`step_status.dfy`) covers Kotlin's 32-bit `Int` (`Int32`, `Wrap32`), `State` and `GetStatus`. It also proves facts about the bands that the classification forms: they are ordered, they are contiguous, and their sizes have a closed form.
- `ProgressRing` (`progress_ring.dfy`) holds the following:
  - the derived quantities `PendingSteps` and `WidthOfEachStep`;
  - the specification of the draw loop (`Emit` and `Layout`) and the lemmas about it;
  - the class `MyCustomView`, with the fields of the view, its constructor, `SetData` and `Draw`. `Draw` returns the arcs it emits in place of a canvas, and it also returns the final cursor.

Notes on behaviour, where the code is followed:
- `360f / totalSteps` is a `Float` division. When `totalSteps == 0` it gives positive infinity rather than an exception, so the model stores the width as `Width.Infinite`. The loop `0..<totalSteps` draws nothing when `totalSteps <= 0`, so in the model an infinite width is never drawn. The animator is left out of the model; in the program it can raise `totalSteps` to 1 while the width is still infinite.
- `successfulSteps + failedSteps > totalSteps` is not rejected. For non-negative counts, `pendingSteps` then turns negative, and the ring shows no pending arc (`LayoutOverfull`). This holds only when `success + failed` does not overflow. If the `Int` sum wraps around, the failed band is empty and every index from `success` on is pending.
- `pendingSteps` and the `success + failed` threshold use `Int` arithmetic, so they wrap around modulo 2^32.
- Kotlin runs property initialisers in order. `widthOfEachStep` is computed with the default gap (`MyCustomView.kt:48-49`). After that, the `init` block replaces `gapBetweenEachStep` with the themed value (`:105`) and does not compute the width again. The constructor takes both gaps. It ensures that width and gap are consistent, and the ring closes, only when the two gaps are equal. `SetData` makes them consistent again.

## Model

| member | source | states |
|---|---|---|
| StepStatus.Wrap32 | app/src/main/java/com/example/basiccustomview/MyCustomView.kt:240 | the result lies in `Int` range, is congruent to the exact value modulo 2^32, and equals it when it is in range |
| StepStatus.GetStatus | app/src/main/java/com/example/basiccustomview/MyCustomView.kt:237-243 | SUCCESS exactly when `index < success`; FAILED exactly when `success <= index <` the `Int` sum `success + failed`; PENDING exactly when neither holds |
| StepStatus.FailedBandExact | app/src/main/java/com/example/basiccustomview/MyCustomView.kt:240-242 | when `success + failed` does not overflow, FAILED exactly when `success <= index < success + failed`, PENDING exactly when `index >=` both bounds |
| StepStatus.BandsOrdered | app/src/main/java/com/example/basiccustomview/MyCustomView.kt:237-243 | for `i <= j` the state of `i` is never later than the state of `j` in the order SUCCESS < FAILED < PENDING |
| StepStatus.BandSizes | app/src/main/java/com/example/basiccustomview/MyCustomView.kt:237-243 | closed form of how many indices of `[i, n)` fall in each band, for any counts, including negative ones and a wrapped threshold |
| StepStatus.BandSizesValid | app/src/main/java/com/example/basiccustomview/MyCustomView.kt:237-243 | with `0 <= s`, `0 <= f`, `s + f <= t`, the indices `0..t-1` hold exactly `s` SUCCESS, `f` FAILED and `t - s - f` PENDING |
| StepStatus.NoPendingWhenOverfull | app/src/main/java/com/example/basiccustomview/MyCustomView.kt:237-243 | with non-negative counts and `t < s + f` (no overflow), no index of `0..t-1` is PENDING |
| ProgressRing.PendingSteps | app/src/main/java/com/example/basiccustomview/MyCustomView.kt:185 | the result is `t - s - f` modulo 2^32; exactly `t - s - f` when in range; between 0 and `t` for valid counts |
| ProgressRing.WidthOfEachStep | app/src/main/java/com/example/basiccustomview/MyCustomView.kt:186 | the width is infinite exactly when `total == 0`; otherwise `total` slots of `width + gap` make exactly 360 degrees |
| ProgressRing.Emit | app/src/main/java/com/example/basiccustomview/MyCustomView.kt:146-159 | the loop over `[i, n)`, with the cursor advanced by `width + gap` per arc, emits `n - i` arcs (none when `n <= i`), each sweeping `width` |
| ProgressRing.Layout | app/src/main/java/com/example/basiccustomview/MyCustomView.kt:146-159 | one draw emits `max(total, 0)` arcs from the cursor 270, each sweeping `width` |
| ProgressRing.CursorClosedForm | app/src/main/java/com/example/basiccustomview/MyCustomView.kt:146-158 | the cursor that starts at 270 and moves on by `width + gap` after each of `i` arcs is at `270 + i(width + gap)` |
| ProgressRing.DrawStep | app/src/main/java/com/example/basiccustomview/MyCustomView.kt:148-158 | one pass of the loop (draw the arc at the cursor, then advance the cursor) keeps "arcs drawn so far, then the remaining run, form the whole layout" |
| ProgressRing.EmitAt | app/src/main/java/com/example/basiccustomview/MyCustomView.kt:146-158 | arc `k` of a run that starts at cursor `start` sits at `start + (k - i)(width + gap)`, sweeps `width` and has the state of index `k` |
| ProgressRing.LayoutArcs | app/src/main/java/com/example/basiccustomview/MyCustomView.kt:146-158 | one draw emits `max(total, 0)` arcs for indices `0..total-1` in order; arc `k` starts at `270 + k(width + gap)`, sweeps `width` and has state `GetStatus(s, f, k)` |
| ProgressRing.CountEmit | app/src/main/java/com/example/basiccustomview/MyCustomView.kt:148-154 | the number of emitted arcs with a given state equals the number of indices with that state |
| ProgressRing.LayoutCounts | app/src/main/java/com/example/basiccustomview/MyCustomView.kt:148-154 | with `0 <= s`, `0 <= f`, `s + f <= t`, the ring shows exactly `s` SUCCESS, `f` FAILED and `PendingSteps(t, s, f)` PENDING arcs |
| ProgressRing.LayoutOverfull | app/src/main/java/com/example/basiccustomview/MyCustomView.kt:185 | with `t < s + f` (non-negative counts, no overflow) the stored pending count is negative and no pending arc is drawn |
| ProgressRing.RingCloses | app/src/main/java/com/example/basiccustomview/MyCustomView.kt:186 | with the derived width and `total > 0`, after `total` steps the cursor is at 270 + 360 degrees |
| ProgressRing.DefaultLayout | app/src/main/java/com/example/basiccustomview/MyCustomView.kt:29-31 | the defaults 12/2/2 give 8 pending steps and draw 2 SUCCESS, 2 FAILED and 8 PENDING arcs |
| ProgressRing.SampleActivityLayout | app/src/main/java/com/example/basiccustomview/MainActivity.kt:15 | `setData(10, 5, 3)` gives 2 pending steps; arcs 0-4 SUCCESS, 5-7 FAILED, 8-9 PENDING |
| ProgressRing.MyCustomView.constructor | app/src/main/java/com/example/basiccustomview/MyCustomView.kt:43-49 | default counts 12/2/2, 8 pending, width derived from the default gap, gap then replaced by the themed gap; width and gap consistent exactly when both gaps are equal |
| ProgressRing.MyCustomView.SetData | app/src/main/java/com/example/basiccustomview/MyCustomView.kt:164-169 | the counts become `t`, `s`, `f`; `pendingSteps = PendingSteps(t, s, f)`; `widthOfEachStep = WidthOfEachStep(t, gap)`; the gap is unchanged; width and gap are consistent afterwards |
| ProgressRing.MyCustomView.Draw | app/src/main/java/com/example/basiccustomview/MyCustomView.kt:146-159 | the emitted arcs are `Layout` of the current fields; the final cursor is `270 + total(width + gap)` when `total > 0` and 270 otherwise; when width and gap are consistent and `total > 0` the cursor ends at 270 + 360 |
| ProgressRing.SetDataTwice | app/src/main/java/com/example/basiccustomview/MyCustomView.kt:164-169 | calling `setData` twice with the same arguments leaves the same state and the same drawing as calling it once |

## Left out

- Attribute and theme parsing (`init`, `extractValues`, `setValues`, `MyCustomView.kt:74-131`): these are platform `TypedArray` calls. Only their effect on the gap is kept: the constructor takes the themed gap as a parameter.
- Paints, colours and `toColorInt` (`:53-72`): style only. An arc carries its `State`, which picks the paint.
- The `dp` extensions (`:17-18`): they depend on the device's display density. Both gaps are opaque `real` parameters.
- Radius, `RectF` geometry and `canvas.drawArc` (`:135-144`, `:156`): pixel geometry and a call into the platform. They are replaced by the sequence of `Arc` values that `Draw` returns.
- The `ValueAnimator` in `setData` (`:171-181`): timer-driven callbacks that overwrite `totalSteps` with intermediate values and do not derive the width again. Also left out are `invalidate`, `postInvalidate` and the cancellation of a running animation.
- The commented-out `onMeasure` (`:188-231`): dead code.
- `Float` rounding: angles are exact reals. A `Float` cursor accumulates rounding error and need not end at exactly 630 degrees. The conversion of a large `totalSteps` to `Float` is not modelled either. A NaN or infinite gap is not modelled.
- `MainActivity.kt`: Android lifecycle and `postDelayed` plumbing. Only its `setData(10, 5, 3)` call is modelled, as an example.
