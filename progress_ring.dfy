/** The progress-ring view of MyCustomView.kt: the step counts it stores, the
    two fields derived from them, and the arcs its draw callback emits.
    Angles are exact reals; the canvas is the sequence of emitted arcs. */
module ProgressRing {
  import opened StepStatus

  const DefaultTotalSteps: Int32 := 12
  const DefaultSuccessSteps: Int32 := 2
  const DefaultFailedSteps: Int32 := 2
  /** The angle, in degrees, at which the first arc starts (the top of the ring). */
  const FirstArcStart: real := 270.0

  /** An arc width in degrees as the view's `Float` holds it: `360f / 0` is
      IEEE positive infinity rather than an exception. */
  datatype Width = Finite(degrees: real) | Infinite

  /** One `drawArc` call: start angle, sweep angle and the state that picks the paint. */
  datatype Arc = Arc(start: real, sweep: real, state: State)

  /** `calculatePendingSteps`: `total - successful - failed` in `Int` arithmetic. */
  function PendingSteps(total: Int32, successful: Int32, failed: Int32): (r: Int32)
    ensures (r - (total - successful - failed)) % 0x1_0000_0000 == 0
    ensures Int32Min <= total - successful - failed <= Int32Max ==> r == total - successful - failed
    ensures 0 <= successful && 0 <= failed && successful + failed <= total ==> 0 <= r <= total
  {
    Wrap32(total - successful - failed)
  }

  /** `calculateWidthOfEachStep`: the ring divided evenly into `total` slots,
      each slot an arc followed by a gap. */
  function WidthOfEachStep(total: Int32, gap: real): (r: Width)
    ensures r == Infinite <==> total == 0
    ensures r.Finite? ==> (r.degrees + gap) * (total as real) == 360.0
  {
    if total == 0 then Infinite else Finite(360.0 / (total as real) - gap)
  }

  /** The arcs the draw loop emits for the indices `[i, n)`, starting with the
      cursor at `start` and advancing it by `width + gap` after every arc. */
  function Emit(successful: Int32, failed: Int32, width: Width, gap: real, i: int, n: int, start: real): (arcs: seq<Arc>)
    requires 0 <= i && n <= Int32Max
    requires i < n ==> width.Finite?
    ensures |arcs| == if n <= i then 0 else n - i
    decreases n - i
  {
    if n <= i then []
    else [Arc(start, width.degrees, GetStatus(successful, failed, i))]
         + Emit(successful, failed, width, gap, i + 1, n, start + width.degrees + gap)
  }

  /** Everything one call of the draw callback emits. */
  function Layout(total: Int32, successful: Int32, failed: Int32, width: Width, gap: real): (arcs: seq<Arc>)
    requires 0 < total ==> width.Finite?
    ensures |arcs| == if total <= 0 then 0 else total
  {
    Emit(successful, failed, width, gap, 0, total, FirstArcStart)
  }

  /** Number of arcs in `arcs` whose state is `st`. */
  function Count(arcs: seq<Arc>, st: State): (c: nat)
    ensures c <= |arcs|
  {
    if arcs == [] then 0
    else (if arcs[0].state == st then 1 else 0) + Count(arcs[1..], st)
  }

  /** The cursor after `i` arcs, each advancing it by `step` degrees from 270. */
  function Cursor(i: nat, step: real): real
  {
    if i == 0 then FirstArcStart else Cursor(i - 1, step) + step
  }

  /** Adding `step` `i` times to 270 lands at `270 + i·step`. */
  lemma {:induction false} CursorClosedForm(i: nat, step: real)
    ensures Cursor(i, step) == FirstArcStart + (i as real) * step
  {
    if i > 0 {
      CursorClosedForm(i - 1, step);
      CursorStep(FirstArcStart, step, i - 1);
    }
  }

  /** Moving the cursor on by one more step of `d` degrees. */
  lemma CursorStep(start: real, d: real, m: int)
    ensures start + d + (m as real) * d == start + ((m + 1) as real) * d
  {
  }

  /** Starting one slot later and going `m` slots further reaches the same
      angle as going `m + 1` slots from the earlier start. */
  lemma ShiftStart(start: real, width: real, gap: real, m: int)
    ensures (start + width + gap) + (m as real) * (width + gap) == start + ((m + 1) as real) * (width + gap)
  {
    CursorStep(start, width + gap, m);
  }

  /** Arc `k` of the emitted run sits at `start + (k - i)·(width + gap)`,
      sweeps `width` and carries the state of index `k`. */
  lemma {:induction false} EmitAt(successful: Int32, failed: Int32, width: Width, gap: real, i: int, n: int, start: real, k: int)
    requires 0 <= i <= k < n <= Int32Max
    requires width.Finite?
    ensures |Emit(successful, failed, width, gap, i, n, start)| == n - i
    ensures Emit(successful, failed, width, gap, i, n, start)[k - i]
            == Arc(start + ((k - i) as real) * (width.degrees + gap), width.degrees, GetStatus(successful, failed, k))
    decreases k - i
  {
    if i < k {
      var next := start + width.degrees + gap;
      EmitAt(successful, failed, width, gap, i + 1, n, next, k);
      ShiftStart(start, width.degrees, gap, k - (i + 1));
      assert (k - (i + 1)) + 1 == k - i;
    }
  }

  /** The layout has one arc per step, for the indices `0 .. total-1` in
      increasing order, arc `k` at `270 + k·(width + gap)` with sweep `width`
      and state `GetStatus(successful, failed, k)`; no arc when `total <= 0`. */
  lemma LayoutArcs(total: Int32, successful: Int32, failed: Int32, width: Width, gap: real)
    requires 0 < total ==> width.Finite?
    ensures |Layout(total, successful, failed, width, gap)| == if total <= 0 then 0 else total
    ensures forall k :: 0 <= k < |Layout(total, successful, failed, width, gap)| ==>
              Layout(total, successful, failed, width, gap)[k]
              == Arc(FirstArcStart + (k as real) * (width.degrees + gap), width.degrees, GetStatus(successful, failed, k))
  {
    if 0 < total {
      forall k | 0 <= k < total
        ensures Layout(total, successful, failed, width, gap)[k]
                == Arc(FirstArcStart + (k as real) * (width.degrees + gap), width.degrees, GetStatus(successful, failed, k))
      {
        EmitAt(successful, failed, width, gap, 0, total, FirstArcStart, k);
      }
    }
  }

  /** Counting the arcs of a run by state is counting its indices by state. */
  lemma {:induction false} CountEmit(successful: Int32, failed: Int32, width: Width, gap: real, i: int, n: int, start: real, st: State)
    requires 0 <= i <= n <= Int32Max
    requires i < n ==> width.Finite?
    ensures Count(Emit(successful, failed, width, gap, i, n, start), st) == CountStatus(successful, failed, st, i, n)
    decreases n - i
  {
    if i < n {
      var rest := Emit(successful, failed, width, gap, i + 1, n, start + width.degrees + gap);
      CountEmit(successful, failed, width, gap, i + 1, n, start + width.degrees + gap, st);
      assert Emit(successful, failed, width, gap, i, n, start)[1..] == rest;
    }
  }

  /** With `0 <= successful`, `0 <= failed` and `successful + failed <= total`
      the ring shows exactly `successful` green, `failed` red and
      `PendingSteps(total, successful, failed)` pending arcs. */
  lemma LayoutCounts(total: Int32, successful: Int32, failed: Int32, width: Width, gap: real)
    requires 0 <= successful && 0 <= failed && successful + failed <= total
    requires 0 < total ==> width.Finite?
    ensures Count(Layout(total, successful, failed, width, gap), Success) == successful
    ensures Count(Layout(total, successful, failed, width, gap), Failed) == failed
    ensures Count(Layout(total, successful, failed, width, gap), Pending) == PendingSteps(total, successful, failed)
  {
    BandSizesValid(total, successful, failed);
    CountEmit(successful, failed, width, gap, 0, total, FirstArcStart, Success);
    CountEmit(successful, failed, width, gap, 0, total, FirstArcStart, Failed);
    CountEmit(successful, failed, width, gap, 0, total, FirstArcStart, Pending);
  }

  /** With `successful + failed > total` the stored pending count is negative
      and the ring shows no pending arc at all. */
  lemma LayoutOverfull(total: Int32, successful: Int32, failed: Int32, width: Width, gap: real)
    requires 0 <= total && 0 <= successful && 0 <= failed
    requires total < successful + failed <= Int32Max
    requires 0 < total ==> width.Finite?
    ensures PendingSteps(total, successful, failed) < 0
    ensures Count(Layout(total, successful, failed, width, gap), Pending) == 0
  {
    NoPendingWhenOverfull(total, successful, failed);
    CountEmit(successful, failed, width, gap, 0, total, FirstArcStart, Pending);
  }

  /** With the width that `WidthOfEachStep` derives, the cursor that started at
      270 degrees is back at the top, 270 + 360 degrees, after `total > 0` steps. */
  lemma RingCloses(total: Int32, gap: real)
    requires 0 < total
    ensures FirstArcStart + (total as real) * (WidthOfEachStep(total, gap).degrees + gap) == FirstArcStart + 360.0
  {
  }

  /** The default counts 12/2/2 give eight pending steps and eight pending arcs. */
  lemma DefaultLayout(width: Width, gap: real)
    requires width.Finite?
    ensures PendingSteps(DefaultTotalSteps, DefaultSuccessSteps, DefaultFailedSteps) == 8
    ensures Count(Layout(DefaultTotalSteps, DefaultSuccessSteps, DefaultFailedSteps, width, gap), Success) == 2
    ensures Count(Layout(DefaultTotalSteps, DefaultSuccessSteps, DefaultFailedSteps, width, gap), Failed) == 2
    ensures Count(Layout(DefaultTotalSteps, DefaultSuccessSteps, DefaultFailedSteps, width, gap), Pending) == 8
  {
    LayoutCounts(DefaultTotalSteps, DefaultSuccessSteps, DefaultFailedSteps, width, gap);
  }

  /** `setData(10, 5, 3)`, the call the sample activity makes: two pending
      steps, and arcs 0-4 succeeded, 5-7 failed, 8-9 pending. */
  lemma SampleActivityLayout(gap: real)
    ensures PendingSteps(10, 5, 3) == 2
    ensures Count(Layout(10, 5, 3, WidthOfEachStep(10, gap), gap), Pending) == 2
    ensures forall k :: 0 <= k < 10 ==>
              Layout(10, 5, 3, WidthOfEachStep(10, gap), gap)[k].state
              == if k < 5 then Success else if k < 8 then Failed else Pending
  {
    LayoutCounts(10, 5, 3, WidthOfEachStep(10, gap), gap);
    LayoutArcs(10, 5, 3, WidthOfEachStep(10, gap), gap);
  }

  /** One pass of the draw loop keeps "arcs drawn so far, then the rest of the
      run, make up the whole layout". */
  lemma DrawStep(successful: Int32, failed: Int32, width: Width, gap: real, i: int, total: Int32, cursor: real, arcs: seq<Arc>)
    requires 0 <= i < total && width.Finite?
    requires arcs + Emit(successful, failed, width, gap, i, total, cursor) == Layout(total, successful, failed, width, gap)
    ensures (arcs + [Arc(cursor, width.degrees, GetStatus(successful, failed, i))])
            + Emit(successful, failed, width, gap, i + 1, total, cursor + width.degrees + gap)
            == Layout(total, successful, failed, width, gap)
  {
    var arc := Arc(cursor, width.degrees, GetStatus(successful, failed, i));
    var rest := Emit(successful, failed, width, gap, i + 1, total, cursor + width.degrees + gap);
    assert arcs + ([arc] + rest) == (arcs + [arc]) + rest;
  }

  /** The state of the view that `setData` and `onDraw` touch. */
  datatype ViewState = ViewState(
    totalSteps: Int32, successfulSteps: Int32, failedSteps: Int32,
    pendingSteps: Int32, widthOfEachStep: Width, gapBetweenEachStep: real)

  /** MyCustomView: the step counts and the two derived fields. */
  class MyCustomView {
    var totalSteps: Int32
    var successfulSteps: Int32
    var failedSteps: Int32
    var pendingSteps: Int32
    var gapBetweenEachStep: real
    var widthOfEachStep: Width

    /** The width is infinite exactly when the view holds zero steps. */
    ghost predicate Valid()
      reads this
    {
      widthOfEachStep.Infinite? <==> totalSteps == 0
    }

    /** The derived width agrees with the counts and the current gap. */
    predicate Consistent()
      reads this
    {
      widthOfEachStep == WidthOfEachStep(totalSteps, gapBetweenEachStep)
    }

    function Snapshot(): ViewState
      reads this
    {
      ViewState(totalSteps, successfulSteps, failedSteps, pendingSteps, widthOfEachStep, gapBetweenEachStep)
    }

    /** Construction: the property initialisers set the default counts and
        derive the width from the default gap `defaultGap` (0.8 dp); the init
        block then replaces the gap by the themed `themeGap` without deriving
        the width again. */
    constructor (defaultGap: real, themeGap: real)
      ensures Valid()
      ensures totalSteps == DefaultTotalSteps && successfulSteps == DefaultSuccessSteps
      ensures failedSteps == DefaultFailedSteps && pendingSteps == 8
      ensures widthOfEachStep == WidthOfEachStep(DefaultTotalSteps, defaultGap)
      ensures gapBetweenEachStep == themeGap
      ensures Consistent() <==> themeGap == defaultGap
    {
      totalSteps := DefaultTotalSteps;
      successfulSteps := DefaultSuccessSteps;
      failedSteps := DefaultFailedSteps;
      pendingSteps := PendingSteps(DefaultTotalSteps, DefaultSuccessSteps, DefaultFailedSteps);
      gapBetweenEachStep := defaultGap;
      widthOfEachStep := WidthOfEachStep(DefaultTotalSteps, defaultGap);
      gapBetweenEachStep := themeGap;
    }

    /** `setData`: replaces the three counts and derives the pending count and
        the width from them; the gap is kept. */
    method SetData(total: Int32, successful: Int32, failed: Int32)
      modifies this
      ensures Valid() && Consistent()
      ensures totalSteps == total && successfulSteps == successful && failedSteps == failed
      ensures pendingSteps == PendingSteps(total, successful, failed)
      ensures widthOfEachStep == WidthOfEachStep(total, old(gapBetweenEachStep))
      ensures gapBetweenEachStep == old(gapBetweenEachStep)
    {
      totalSteps := total;
      successfulSteps := successful;
      failedSteps := failed;
      pendingSteps := PendingSteps(totalSteps, successfulSteps, failedSteps);
      widthOfEachStep := WidthOfEachStep(totalSteps, gapBetweenEachStep);
    }

    /** `onDraw`: one arc per step, the cursor starting at 270 degrees and
        moving on by `width + gap` after each arc. Returns the arcs drawn and
        the final cursor. */
    method Draw() returns (arcs: seq<Arc>, cursor: real)
      requires Valid()
      ensures arcs == Layout(totalSteps, successfulSteps, failedSteps, widthOfEachStep, gapBetweenEachStep)
      ensures totalSteps <= 0 ==> cursor == FirstArcStart
      ensures 0 < totalSteps ==>
                cursor == FirstArcStart + (totalSteps as real) * (widthOfEachStep.degrees + gapBetweenEachStep)
      ensures 0 < totalSteps && Consistent() ==> cursor == FirstArcStart + 360.0
    {
      var total, successful, failed := totalSteps, successfulSteps, failedSteps;
      var width, gap := widthOfEachStep, gapBetweenEachStep;
      cursor := FirstArcStart;
      arcs := [];
      var i: Int32 := 0;
      while i < total
        invariant 0 <= i && (i <= total || i == 0)
        invariant i == 0 ==> cursor == FirstArcStart && arcs == []
        invariant 0 < i ==> width.Finite? && cursor == Cursor(i, width.degrees + gap)
        invariant arcs + Emit(successful, failed, width, gap, i, total, cursor)
                  == Layout(total, successful, failed, width, gap)
      {
        var arc := Arc(cursor, width.degrees, GetStatus(successful, failed, i));
        DrawStep(successful, failed, width, gap, i, total, cursor, arcs);
        arcs := arcs + [arc];
        cursor := cursor + width.degrees + gap;
        i := i + 1;
      }
      if 0 < total {
        CursorClosedForm(total, width.degrees + gap);
        if Consistent() {
          RingCloses(total, gap);
        }
      }
    }
  }

  /** Calling `setData` twice with the same arguments leaves the same state,
      and the same drawing, as calling it once. */
  method SetDataTwice(view: MyCustomView, total: Int32, successful: Int32, failed: Int32)
    returns (once: ViewState, twice: ViewState, drawnOnce: seq<Arc>, drawnTwice: seq<Arc>)
    modifies view
    ensures once == twice && drawnOnce == drawnTwice
    ensures twice == view.Snapshot()
  {
    view.SetData(total, successful, failed);
    once := view.Snapshot();
    var cursorOnce, cursorTwice;
    drawnOnce, cursorOnce := view.Draw();
    view.SetData(total, successful, failed);
    twice := view.Snapshot();
    drawnTwice, cursorTwice := view.Draw();
  }
}
