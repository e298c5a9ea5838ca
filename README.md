# Green lines overlay — a Dafny model

This project models the core of the Green Lines Simulator Android app: the
`GreenLineService` that keeps one full-screen overlay registered with the
window manager, and its `OverlayView`, which lays out a set of coloured lines
once and paints them on every frame.

- `palette.dfy` (`Palette`): `parseColor` — colour names to packed ARGB colours.
- `sorting.dfy` (`Sorting`): the ascending sort applied to randomly drawn line
  positions, with the fact that a sorted permutation is unique.
- `line_plan.dfy` (`LinePlan`): the pure side of the view. It covers the
  configuration, the layout invariants, the rectangles of `drawVerticalLine`
  and `drawHorizontalLine`, and the per-frame plan of `onDraw`. A frame is a
  sequence of integer rectangles with colours, or the division by zero that
  the evenly spaced path raises for `lineCount == 0`. The lemmas state even
  spacing, random placement in ascending order, cyclic colours, line geometry
  and the 300-pixel, three-line example.
- `overlay_view.dfy` (`Overlay`): the `OverlayView` class. Its fields
  `linePositions`, `lineThicknesses` and `isInitialized` are updated by
  `OnSizeChanged` and `InitializeLines`, which run at most once. `OnDraw`
  builds the frame in a loop and is proved equal to `LinePlan.DrawPlan`.
- `green_line_service.dfy` (`Service`): the start request's extras and their
  defaults. `WindowManager` is seen only as the set of views added to it.
  `GreenLineService` keeps the overlay handle. Its invariant is that the
  window manager holds exactly the handled view, so at most one.

Modelling choices:
- Each call to `Random.nextInt` is a value supplied by the caller. `OnSizeChanged`
  takes `positionDraws` and `thicknessDraws`, the values the random source
  yields in the layout pass. It requires positions in `[0, extent)` and
  thicknesses in `[6, 13)`, the ranges `nextInt` guarantees.
- `lineCount` is any integer, as in the code: a non-positive count gives empty
  loops. The non-randomised draw divides by `lineCount` before its loop, so a
  count of 0 yields `DivisionByZero` instead of a frame. Any orientation
  string other than `"vertical"` draws horizontal lines.
- Dafny's `/` is Euclidean and Kotlin's truncates. The dividend here is a
  canvas dimension, never negative, and for that the two agree for every
  non-zero divisor.
- Colours are 32-bit ARGB bit patterns as non-negative integers. `GREEN` is
  `0xFF00FF00`, `MAGENTA` is `0xFFFF00FF` and `TRANSPARENT` is `0`. Kotlin
  holds the same bits in a signed `Int`.
- The non-empty colour list is a precondition of the `OverlayView`
  constructor. The service builds a view only in that case, and line `i`
  reads `colors[i % colors.size]`.

## Model

| member | source | states |
|---|---|---|
| `Palette.ParseColor` | app/src/main/java/com/example/greenlinessimulator/GreenLineService.kt:162-168 | "green" gives GREEN and "purple" gives MAGENTA. Every other name gives TRANSPARENT, not an error. Known names are fully opaque, unknown ones have alpha 0. |
| `Sorting.Insert` | app/src/main/java/com/example/greenlinessimulator/GreenLineService.kt:116 | Inserting into a sorted sequence keeps it sorted and adds exactly one element. |
| `Sorting.SortAscending` | app/src/main/java/com/example/greenlinessimulator/GreenLineService.kt:115-117 | The result is sorted ascending and is a permutation of the input. |
| `Sorting.SortedPermutationUnique` | app/src/main/java/com/example/greenlinessimulator/GreenLineService.kt:115-117 | Two sorted sequences with the same elements are equal. So the positions after layout are determined by the drawn values alone. |
| `LinePlan.VerticalLineRect` | app/src/main/java/com/example/greenlinessimulator/GreenLineService.kt:152-155 | A vertical line at x covers exactly the points of [x, x+thickness) × [0, height). |
| `LinePlan.HorizontalLineRect` | app/src/main/java/com/example/greenlinessimulator/GreenLineService.kt:157-160 | A horizontal line at y covers exactly the points of [0, width) × [y, y+thickness). |
| `LinePlan.DrawPlan` | app/src/main/java/com/example/greenlinessimulator/GreenLineService.kt:120-150 | A frame fails with a division by zero exactly when the view is initialised, not randomised and has `lineCount == 0`. Otherwise it paints one line per loop iteration, or none before initialisation. |
| `LinePlan.NothingBeforeInit` | app/src/main/java/com/example/greenlinessimulator/GreenLineService.kt:122 | A view that is not initialised paints no rectangles. |
| `LinePlan.SpacedOffsetBound` | app/src/main/java/com/example/greenlinessimulator/GreenLineService.kt:133-135 | For i < n, the offset i·(e div n) is non-negative, lies below e when e is positive, and adding one more spacing stays within e. |
| `LinePlan.EvenSpacing` | app/src/main/java/com/example/greenlinessimulator/GreenLineService.kt:133-146 | Without randomisation, line i starts at i·(extent div lineCount). The extent is the width for "vertical" and the height otherwise. Every line starts at or after 0, before the far edge when the extent is positive, and one more spacing fits before the far edge. |
| `LinePlan.RandomPlacement` | app/src/main/java/com/example/greenlinessimulator/GreenLineService.kt:128-142 | With randomisation, in either orientation, one line is painted per stored position, and line i starts at `linePositions[i]`. |
| `LinePlan.RandomLinesAscend` | app/src/main/java/com/example/greenlinessimulator/GreenLineService.kt:128-142 | With randomisation, in either orientation, over positions sorted as at lines 115-117, a later line never starts before an earlier one. |
| `LinePlan.CyclicColors` | app/src/main/java/com/example/greenlinessimulator/GreenLineService.kt:130-146 | Line i is painted `ParseColor(colors[i mod colors.size])`: the colour names are used in turn, starting over after the last. |
| `LinePlan.LineGeometry` | app/src/main/java/com/example/greenlinessimulator/GreenLineService.kt:152-160 | Line i is `lineThicknesses[i]` thick along the main axis and spans the full cross axis: the full height for vertical lines, the full width otherwise. |
| `LinePlan.ThreeVerticalLinesExample` | app/src/main/java/com/example/greenlinessimulator/GreenLineService.kt:133-135 | Green and purple, 3 vertical lines on a canvas 300 wide: the lines start at 0, 100 and 200 and are coloured green, purple, green. |
| `Overlay.OverlayView.constructor` | app/src/main/java/com/example/greenlinessimulator/GreenLineService.kt:83-94 | A new view keeps its settings, is not initialised and holds no layout. |
| `Overlay.OverlayView.OnSizeChanged` | app/src/main/java/com/example/greenlinessimulator/GreenLineService.kt:96-102 | The view becomes initialised exactly when it already was or both w and h are positive. Once initialised, or on a non-positive size, the layout is unchanged. On the first positive size, the thicknesses are the drawn values. The positions are the drawn values sorted ascending if randomised, and empty if not. |
| `Overlay.OverlayView.InitializeLines` | app/src/main/java/com/example/greenlinessimulator/GreenLineService.kt:104-118 | Stores one thickness in [6,13) per line. With randomisation it also stores one position per line in [0, extent), sorted and a permutation of the draws. The extent is the width for "vertical" and the height otherwise. |
| `Overlay.OverlayView.OnDraw` | app/src/main/java/com/example/greenlinessimulator/GreenLineService.kt:120-150 | The frame painted equals `DrawPlan` of the view's settings and current layout on the canvas size. |
| `Service.RequestedConfig` | app/src/main/java/com/example/greenlinessimulator/GreenLineService.kt:37-42 | A request builds a view exactly when it carries a non-empty colour list. Absent extras default to 10 lines, "vertical" and not randomised. |
| `Service.WindowManager.AddView` | app/src/main/java/com/example/greenlinessimulator/GreenLineService.kt:69 | Adds a view that is not yet added. |
| `Service.WindowManager.RemoveView` | app/src/main/java/com/example/greenlinessimulator/GreenLineService.kt:33 | Removes a view that is added, and no other. |
| `Service.GreenLineService.constructor` | app/src/main/java/com/example/greenlinessimulator/GreenLineService.kt:25-28 | A created service has a fresh window manager with no views and no overlay handle. |
| `Service.GreenLineService.OnStartCommand` | app/src/main/java/com/example/greenlinessimulator/GreenLineService.kt:30-73 | The old view is removed before any new one is added, so at most one view is registered afterwards. Without colours no overlay is active. With colours there is one fresh, uninitialised view with the requested settings. The result is START_NOT_STICKY. |
| `Service.GreenLineService.OnDestroy` | app/src/main/java/com/example/greenlinessimulator/GreenLineService.kt:75-81 | The handle ends up null and no view stays registered. Only the view that was active is removed, and with none nothing changes. |
| `Service.StartTwice` | app/src/main/java/com/example/greenlinessimulator/GreenLineService.kt:30-42 | Two start requests in a row leave exactly one registered view if the second names colours, and none otherwise. |
| `Service.StartThenDestroy` | app/src/main/java/com/example/greenlinessimulator/GreenLineService.kt:25-81 | A service that is created, started with any request and destroyed ends with no overlay handle and no added view. |

## Left out

- Window parameters are not modelled: the `LayoutParams` flags, the window type chosen by SDK version, `PixelFormat` and `systemUiVisibility` (GreenLineService.kt lines 43-67). They are platform settings with no effect on the handle logic.
- Painting is not modelled: `Canvas`, `Paint` and the `toFloat()` conversions in `drawRect`. Rectangles stay integer bounds, and a frame is the list of rectangles it would paint.
- `kotlin.random.Random` is not modelled. Each draw is an input constrained to the range `nextInt` guarantees, and there is no seeding.
- Positions are not sorted in place. `MutableList.sort()` is modelled as `SortAscending` on a value, and the field is reassigned with the sorted result. The library's own sorting algorithm is not modelled.
- 32-bit overflow of Kotlin `Int` is not modelled, for `i * lineSpacing` and `x + thickness`. Integers are unbounded. For screen-sized values the products stay far below 2^31.
- `onSizeChanged` ignores `oldw` and `oldh`, and they are not parameters. The `super` calls and `onBind` (which returns null) are left out. The constructor of `GreenLineService` stands for `onCreate`.
- The window manager is abstract: a set of views added by this service.
- `WindowManager.AddView` and `WindowManager.RemoveView` always succeed: the overlay permission is assumed granted. On the platform, `addView` can be refused, for example without that permission. Because the handle is set before `addView` runs (GreenLineService.kt lines 61 and 69), a refusal leaves a non-null handle with no view attached. The next `onStartCommand` or `onDestroy` then calls `removeView` on a view that is not attached (lines 33 and 78). This failure path is not modelled. The invariant that the window manager holds exactly the handled view rests on the assumption.
- MainActivity.kt is not part of this model. That covers widget wiring, button state, saved state and the overlay-permission redirect. Its one relevant fact is that it sends non-empty colours and `lineCount >= 1`. The model does not rely on that: it handles any request the service can receive.
- Later resizes do not recompute the layout. This is modelled as written, without correction.
