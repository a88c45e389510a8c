# CGASceneGraph core, modelled in Dafny

This project models four pieces of a small Java teaching framework for computer graphics:

- the scene-graph translation transform;
- the perspective camera;
- the animation pass of the scene-graph visitor;
- the Java2D software renderer.

It proves properties of each piece.

- `java_arith.dfy` (module `JavaArith`) writes out the parts of Java `int` arithmetic the code relies on:
  - two's-complement wrap-around;
  - truncating `/`, including its `ArithmeticException` and the `MIN_VALUE / -1` wrap;
  - the arithmetic shift `>> 1`;
  - the saturating, truncating `(int)` cast of a `double`.
- `linear.dfy` (module `Linear`) holds minimal value stand-ins for the framework's `Vector3d` and `Matrix`, over `real`.
- `translation.dfy` (module `Transform`) has `Translation` as a class:
  - three offsets;
  - an optional interpolator per axis, modelled as a stream of values with a cursor;
  - a cached 4x4 matrix. It is proved to agree with the offsets after every mutation.
- `camera.dfy` (module `Camera`) has `PerspectiveCamera` as a class:
  - the defaults of its private constructor and both public constructors;
  - the aspect ratio computed by integer division;
  - `update()` deriving the basis n, u, v and the view matrix;
  - clipping-space coordinates. The model proves that these are the point's coordinates along u and v relative to the eye, so the look-at point lands at the centre.
- `animation_visitor.dfy` (module `AnimationVisitor`) has `visit` as a loop over the node's geometry. It is proved to advance every present animation once per shape holding it, in list order, and nothing else.
- `renderer.dfy` (module `Renderer`) has:
  - the logical-to-screen mapping of `putPixel`: origin at the centre, y flipped, truncating casts;
  - a draw buffer of cells that `putPixel` paints and `show` presents and then clears.

## Model

Source paths are relative to the repository root.

| member | source | states |
|---|---|---|
| JavaArith.IntAdd | src/main/java/cga/framework/renderer/RendererJ2d.java:55 | Java `int` addition yields a 32-bit value and agrees with mathematical addition whenever the sum fits |
| JavaArith.TruncDiv | src/main/java/cga/framework/camera/PerspectiveCamera.java:137 | integer division rounds toward zero: the remainder is smaller than the divisor in magnitude and has the sign of the dividend, the quotient is no larger than the dividend in magnitude, and dividing by -1 negates |
| JavaArith.Quotient | src/main/java/cga/framework/camera/PerspectiveCamera.java:137 | Java `a / b` throws `ArithmeticException` exactly when b is 0, is the truncated quotient otherwise, and wraps `MIN_VALUE / -1` to `MIN_VALUE` |
| JavaArith.ShiftRight1 | src/main/java/cga/framework/renderer/RendererJ2d.java:37-38 | `x >> 1` is x / 2 rounded toward negative infinity: 2r <= x < 2r + 2 |
| JavaArith.ShiftRight1IsHalf | src/main/java/cga/framework/renderer/RendererJ2d.java:37-38 | for a non-negative size, the offset `size >> 1` equals the truncated half `size / 2` |
| JavaArith.ShiftRight1IsNotTruncation | src/main/java/cga/framework/renderer/RendererJ2d.java:37-38 | for a negative odd size the shift and the division differ (-3 >> 1 is -2, -3 / 2 is -1) |
| JavaArith.DoubleToInt | src/main/java/cga/framework/renderer/RendererJ2d.java:55 | the `(int)` cast truncates toward zero (the result's magnitude is the floor of the argument's, with the same sign) and saturates at the `int` bounds |
| JavaArith.DoubleToIntOfInt | src/main/java/cga/framework/renderer/RendererJ2d.java:55 | the cast is exact on every integral `double` in range |
| JavaArith.DoubleToIntMonotone | src/main/java/cga/framework/renderer/RendererJ2d.java:55 | the cast never reverses the order of two doubles |
| JavaArith.DoubleToIntNegate | src/main/java/cga/framework/renderer/RendererJ2d.java:55 | within the `int` range the cast commutes with negation, so flipping y before the cast is the same as flipping it after |
| Transform.TranslationMatrix | src/main/java/cga/framework/scenegraph/transform/Translation.java:62-70 | the matrix built from the offsets is 4x4 and carries (tx, ty, tz, 1) as its last column |
| Transform.TranslationMatrixShape | src/main/java/cga/framework/scenegraph/transform/Translation.java:62-70 | the matrix built from the offsets is 4x4, is the identity in its upper-left 3x3 block, has (tx, ty, tz, 1) as column 3 and (0, 0, 0, 1) as row 3 |
| Transform.TranslationMatrixMoves | src/main/java/cga/framework/scenegraph/transform/Translation.java:62-70 | applied to a homogeneous point, the matrix adds the offsets to it |
| Transform.TranslationMatrixComposes | src/main/java/cga/framework/scenegraph/transform/Translation.java:62-70 | the product of two translation matrices is the translation by the sum of their offsets |
| Transform.Interpolation.NextValue | src/main/java/cga/framework/scenegraph/transform/Translation.java:103-111 | `nextValue()` hands out the next value of the interpolator's stream and advances it by exactly one |
| Transform.Translation.constructor | src/main/java/cga/framework/scenegraph/transform/Translation.java:40-45 | the offsets are the arguments, no interpolator is attached, and the matrix agrees with the offsets |
| Transform.Translation.ChangeX | src/main/java/cga/framework/scenegraph/transform/Translation.java:47-50 | translateX grows by exactly diffX; the other offsets and the interpolators are unchanged; the matrix agrees with the offsets |
| Transform.Translation.ChangeY | src/main/java/cga/framework/scenegraph/transform/Translation.java:52-55 | translateY grows by exactly diffY; nothing else but the matrix changes, and it agrees with the offsets |
| Transform.Translation.ChangeZ | src/main/java/cga/framework/scenegraph/transform/Translation.java:57-60 | translateZ grows by exactly diffZ; nothing else but the matrix changes, and it agrees with the offsets |
| Transform.Translation.UpdateMatrix | src/main/java/cga/framework/scenegraph/transform/Translation.java:62-70 | only the cached matrix is reassigned, and it becomes the translation matrix of the current offsets |
| Transform.Translation.GetTransformMatrix | src/main/java/cga/framework/scenegraph/transform/Translation.java:72-75 | the returned matrix is 4x4, has the offsets in column 3, and moves every point by the offsets |
| Transform.Translation.SetInterpolationX | src/main/java/cga/framework/scenegraph/transform/Translation.java:81-83 | attaches the given interpolator (or none) to X and changes nothing else |
| Transform.Translation.SetInterpolationY | src/main/java/cga/framework/scenegraph/transform/Translation.java:89-91 | attaches the given interpolator (or none) to Y and changes nothing else |
| Transform.Translation.SetInterpolationZ | src/main/java/cga/framework/scenegraph/transform/Translation.java:97-99 | attaches the given interpolator (or none) to Z and changes nothing else |
| Transform.Translation.Update | src/main/java/cga/framework/scenegraph/transform/Translation.java:101-113 | each axis with an interpolator takes that interpolator's next value, pulled in the order X, Y, Z, so one interpolator shared by several axes hands them successive values; each interpolator advances once per axis it is attached to; axes without an interpolator keep their offset; the matrix agrees with the new offsets, and with no interpolators it is unchanged |
| Transform.SineCurveTranslation | src/main/java/cga/example/sinecurve/AnimatedSineCurveMain.java:30 | the example's `new Translation(-400, 0, 0)` has the identity matrix with -400 as its X offset |
| Transform.ChangeXComposes | src/main/java/cga/framework/scenegraph/transform/Translation.java:47-50 | `changeX(a); changeX(b)` leaves a translation in the same state as `changeX(a + b)` |
| Transform.UpdateOverwritesChange | src/main/java/cga/framework/scenegraph/transform/Translation.java:101-113 | with an interpolator on X only, `update()` replaces an earlier `changeX` with the interpolator's first value, leaves Y and Z alone, and rebuilds the matrix from the result |
| Renderer.ScreenCell | src/main/java/cga/framework/renderer/RendererJ2d.java:55 | where the sums do not overflow, the cell's column is offsetX plus the truncated logical x; where in addition -MAX_VALUE <= y <= MAX_VALUE (the cast saturates unevenly at the `int` bounds), its row is offsetY minus the truncated logical y |
| Renderer.OriginMapsToOffset | src/main/java/cga/framework/renderer/RendererJ2d.java:55 | the logical origin is painted in cell (offsetX, offsetY) |
| Renderer.IntegralPixelMapping | src/main/java/cga/framework/renderer/RendererJ2d.java:55 | where nothing overflows, logical (k, l) lands in column offsetX + k and row offsetY - l: the vertical axis is flipped |
| Renderer.ScreenCellRoundTrip | src/main/java/cga/framework/renderer/RendererJ2d.java:55 | on integral points, mapping to a cell and back to logical coordinates returns the point |
| Renderer.LogicalPointRoundTrip | src/main/java/cga/framework/renderer/RendererJ2d.java:55 | on cells, mapping to logical coordinates and back returns the cell |
| Renderer.CentreSquareCollapses | src/main/java/cga/framework/renderer/RendererJ2d.java:55 | because the cast truncates rather than floors, every point of the open square (-1, 1) x (-1, 1) lands in the centre cell |
| Renderer.ColumnMonotone | src/main/java/cga/framework/renderer/RendererJ2d.java:55 | where nothing overflows, increasing logical x never moves the cell left |
| Renderer.RowAntitone | src/main/java/cga/framework/renderer/RendererJ2d.java:55 | where nothing overflows, increasing logical y never moves the cell down |
| Renderer.FillCell | src/main/java/cga/framework/renderer/RendererJ2d.java:55 | a 1x1 `fillRect` paints exactly that cell when it lies on the surface, is clipped otherwise, and leaves every other cell as it was |
| Renderer.ClearRect | src/main/java/cga/framework/renderer/RendererJ2d.java:70 | `clearRect` erases exactly the cells of the rectangle and keeps the rest with their colours |
| Renderer.ClearSurfaceEmpties | src/main/java/cga/framework/renderer/RendererJ2d.java:70 | clearing the whole surface empties a buffer painted on that surface |
| Renderer.RendererJ2d.constructor | src/main/java/cga/framework/renderer/RendererJ2d.java:33-38 | the size is kept, the offsets are `width >> 1` and `height >> 1` (halves rounded down), and nothing is drawn or presented yet |
| Renderer.RendererJ2d.PutPixel | src/main/java/cga/framework/renderer/RendererJ2d.java:51-57 | paints the mapped cell of the pixel black and changes no other cell |
| Renderer.RendererJ2d.PutPixelColored | src/main/java/cga/framework/renderer/RendererJ2d.java:59-65 | paints the same cell as `putPixel(pixel)` in the given colour and changes no other cell |
| Renderer.RendererJ2d.Show | src/main/java/cga/framework/renderer/RendererJ2d.java:67-71 | presents the drawn frame first and then clears the surface, so the next frame starts empty |
| Renderer.PlotAndShow | src/main/java/cga/framework/renderer/RendererJ2d.java:51-71 | on an 800 x 800 surface, a pixel at the logical origin is presented in cell (400, 400) and is gone from the next frame |
| Camera.ToRadians | src/main/java/cga/framework/camera/PerspectiveCamera.java:121 | degrees to radians: r * 180 == degrees * pi |
| Camera.AspectRatio | src/main/java/cga/framework/camera/PerspectiveCamera.java:137 | the aspect ratio throws `ArithmeticException` exactly when the height is 0 |
| Camera.AspectRatioIsWhole | src/main/java/cga/framework/camera/PerspectiveCamera.java:137 | for every non-zero height the aspect ratio is a whole number, because the division is done on `int` before widening; for width >= 0 and height > 0 it is width / height rounded down (Java gives `5 / -2 == -2`, so a negative height is not covered by the rounding-down clause) |
| Camera.AspectRatioExamples | src/main/java/cga/framework/camera/PerspectiveCamera.java:157 | 800 x 800 and 800 x 600 both give 1, 600 x 800 gives 0, and height 0 throws |
| Camera.Normalize | src/main/java/cga/framework/camera/PerspectiveCamera.java:181 | the stand-in for `normalize()` keeps the direction: the result is parallel to its argument, points the same way, and is zero exactly when the argument is |
| Camera.ViewMatrix | src/main/java/cga/framework/camera/PerspectiveCamera.java:184-192 | the view matrix is 4x4 |
| Camera.ViewMatrixRows | src/main/java/cga/framework/camera/PerspectiveCamera.java:184-192 | its rows are u followed by -p.u, v followed by -p.v, n followed by -p.n, and (0, 0, 0, 1) |
| Camera.ViewMatrixCoordinates | src/main/java/cga/framework/camera/PerspectiveCamera.java:184-192 | the view matrix takes a world point q to (u.(q-p), v.(q-p), n.(q-p), 1) |
| Camera.ViewMatrixLastRow | src/main/java/cga/framework/camera/PerspectiveCamera.java:190 | the last row is (0, 0, 0, 1), so the homogeneous coordinate is kept |
| Camera.ViewMatrixMapsEyeToOrigin | src/main/java/cga/framework/camera/PerspectiveCamera.java:184-192 | the camera position maps to the origin of camera space |
| Camera.BasisOrthogonal | src/main/java/cga/framework/camera/PerspectiveCamera.java:180-182 | n, u and v are pairwise orthogonal; when vup x n is not zero, neither n nor u is zero; v is |n| times as long as u, so the basis is not orthonormal |
| Camera.UnitFactorGivesUnitU | src/main/java/cga/framework/camera/PerspectiveCamera.java:181 | if the normalisation factor is exactly 1 / |vup x n|, u has unit length |
| Camera.PerspectiveCamera.constructor | src/main/java/cga/framework/camera/PerspectiveCamera.java:101-139 | the private constructor's defaults: eye at the origin, vup = Y, 75 degrees, frustum near 1, far 2, sides at 0.5, unit viewport, a fresh array of six culling-plane slots. Then the size and the integer aspect ratio are set, and the derived basis and view are consistent |
| Camera.PerspectiveCamera.Posed | src/main/java/cga/framework/camera/PerspectiveCamera.java:151-161 | the private constructor's defaults with the pose and field of view overwritten, then the size and the integer aspect ratio; the derived basis and view are consistent |
| Camera.PerspectiveCamera.Update | src/main/java/cga/framework/camera/PerspectiveCamera.java:175-199 | n = position - direction, u = normalize(vup x n), v = n x u, the view matrix from them, and the identity as projection; nothing else changes |
| Camera.PerspectiveCamera.GetProjection | src/main/java/cga/framework/camera/PerspectiveCamera.java:163-166 | the projection is the 4x4 identity |
| Camera.PerspectiveCamera.ClippingSpaceCoordinates | src/main/java/cga/framework/camera/PerspectiveCamera.java:168-173 | the clipping-space point is q's offset from the eye measured along u and along v (the divisor is always 1) |
| Camera.PerspectiveCamera.ImageSpaceCoordinates | src/main/java/cga/framework/camera/PerspectiveCamera.java:201-204 | always throws `UnsupportedOperationException` |
| Camera.NewCullingPlanes | src/main/java/cga/framework/camera/PerspectiveCamera.java:102-105 | six fresh, distinct, non-null planes, one per slot |
| Camera.AxisProjectsToCentre | src/main/java/cga/framework/camera/PerspectiveCamera.java:168-173 | every point on the viewing axis through the eye projects to (0, 0) |
| Camera.LookAtProjectsToCentre | src/main/java/cga/framework/camera/PerspectiveCamera.java:168-173 | the look-at point projects to (0, 0) |
| Camera.CentreOfViewScenario | src/main/java/cga/framework/camera/PerspectiveCamera.java:151-173 | a camera at (0, 0, -5) looking at the origin on 800 x 800 projects the origin to (0, 0) and has aspect ratio 1 |
| AnimationVisitor.Schedule | src/main/java/cga/framework/scenegraph/visitor/AnimationVisitor.java:28-31 | the calls a visit makes are never more than the shapes |
| AnimationVisitor.ScheduleAppend | src/main/java/cga/framework/scenegraph/visitor/AnimationVisitor.java:28 | the calls for two lists of shapes one after the other are the calls for each, in the same order |
| AnimationVisitor.ScheduleAt | src/main/java/cga/framework/scenegraph/visitor/AnimationVisitor.java:28-31 | each shape with an animation has its own call, numbered by the calls made before it, and that call advances its animation |
| AnimationVisitor.RankOrdered | src/main/java/cga/framework/scenegraph/visitor/AnimationVisitor.java:28 | calls follow the order of the geometry list: an earlier shape's call comes before every call of a later shape |
| AnimationVisitor.ScheduleCovered | src/main/java/cga/framework/scenegraph/visitor/AnimationVisitor.java:29-30 | every call belongs to some shape whose animation is not null, so shapes without one get no call |
| AnimationVisitor.ScheduleAnimated | src/main/java/cga/framework/scenegraph/visitor/AnimationVisitor.java:29-30 | an animation is advanced exactly when some shape of the geometry holds it |
| AnimationVisitor.HoldersStep | src/main/java/cga/framework/scenegraph/visitor/AnimationVisitor.java:28 | the positions holding an animation in a non-empty list are those of its front plus, when it holds that animation, the last one |
| AnimationVisitor.PrefixHoldersStep | src/main/java/cga/framework/scenegraph/visitor/AnimationVisitor.java:28 | one more shape of the list adds one holder to its own animation and none to any other |
| AnimationVisitor.ScheduleCountsHolders | src/main/java/cga/framework/scenegraph/visitor/AnimationVisitor.java:28-31 | the calls on an animation are as many as the positions of the geometry list whose shape holds it |
| AnimationVisitor.ScheduleCountsAllHolders | src/main/java/cga/framework/scenegraph/visitor/AnimationVisitor.java:28-31 | the same count for every animation at once |
| AnimationVisitor.Visit | src/main/java/cga/framework/scenegraph/visitor/AnimationVisitor.java:26-34 | the geometry list is unchanged; the call log grows by exactly `Schedule(geometry)`, in list order; every animation held by the node's shapes gains one step per call on it, which is one step per shape holding it; nothing else, and in particular nothing reachable only through child nodes, is modified |
| AnimationVisitor.AnimateEach | src/main/java/cga/framework/scenegraph/visitor/AnimationVisitor.java:28-32 | the loop appends the calls of `Schedule(geometry)` to the log, in that order, and each animation gains one step per shape holding it |
| AnimationVisitor.AnimateShape | src/main/java/cga/framework/scenegraph/visitor/AnimationVisitor.java:29-31 | one iteration: a shape with an animation has it advanced once and logged once; a shape without one changes nothing |
| AnimationVisitor.Animation.Animate | src/main/java/cga/framework/scenegraph/visitor/AnimationVisitor.java:30 | `animate()` advances its animation by one step and is recorded at the end of the call log |
| AnimationVisitor.SharedAnimationScenario | src/main/java/cga/framework/scenegraph/visitor/AnimationVisitor.java:28-31 | one animation shared by two shapes advances twice, another held once advances once, a shape without an animation is skipped, and the calls are logged in list order: shared, other, shared |
| AnimationVisitor.NoDescentScenario | src/main/java/cga/framework/scenegraph/visitor/AnimationVisitor.java:26-34 | visiting a node with empty geometry changes nothing, even when a child node's shape carries an animation |

## Left out

- Floating point: doubles are modelled as `real`, so there is no rounding, NaN or infinity. The `(int)` cast saturates as in Java, but a NaN argument is not modelled.
- `Vector3d.normalize()`: square roots are not modelled. `Camera.PerspectiveCamera.Update` takes the positive factor normalisation applies (1 / |vup x n|) as a parameter. Everything is proved for every positive factor. Normalising the zero vector, whose outcome `Vector3d` (not part of this model) decides, is therefore not modelled.
- Camera.PerspectiveCamera.constructor and Camera.PerspectiveCamera.Posed require `height != 0`. Java throws `ArithmeticException` there instead; that outcome is modelled separately by `Camera.AspectRatio`.
- Camera.PerspectiveCamera.constructor takes the base class's initial look-at point as a parameter. `AbstractCamera` is not part of this model.
- Camera.PerspectiveCamera.constructor and Camera.PerspectiveCamera.Posed state only that the culling-plane array is fresh and has six slots. `Camera.NewCullingPlanes` states what goes into the slots.
- `Linear.Homogeneous` stands in for `Vector3d.toMatrix()`, which is not part of this model, and always gives w = 1. So the divisor in `Camera.PerspectiveCamera.ClippingSpaceCoordinates` is always 1 and a w == 0 division never arises.
- `getTransformMatrix()` and `getProjection()` return the cached `Matrix` by reference, so a Java caller can change the cache behind the object's back. Matrices here are sequence values, which rules that out. The stated agreement between a translation's matrix and its offsets, and the camera's projection being the 4x4 identity (`Camera.PerspectiveCamera.Derived`, `Camera.PerspectiveCamera.GetProjection`), therefore holds only for callers that do not mutate the returned matrix.
- The culling planes are never recomputed by the source, and `Plane` is an empty stand-in. The distance `d` and the `rotation` quaternion are never used, so they are not modelled.
- The logger, the getters `getInterpolationX/Y/Z` (the model reads the fields directly), and the interpolator itself: `Interpolation` is a stand-in producing a given stream of values.
- `RendererJ2d`:
  - the `JFrame`, its buffer strategy and the listener registration (`addMouseListener`, `addKeyListener`) are AWT plumbing and are not modelled;
  - the surface cleared by `show()` is taken to be `width` x `height`, the size the frame is given;
  - the draw buffer is a map from cells to colours, and `presented` records every frame shown.
- `AnimationVisitor`:
  - the `synchronized` block exists only to exclude the render thread; only the sequential loop is modelled;
  - an `Animation` is a step counter;
  - a `Shape`'s animation is fixed at construction, since the visit never replaces it;
  - `Animation.Animate` takes a `CallLog`, an observer of the model's own with a ghost trace, to which each `animate()` call appends its animation; the framework's `animate()` takes no argument.
- `Strich.java` is a one-line delegation to a renderer not part of this model, and `AnimatedSineCurveMain.java` is application wiring. Only the example's translation appears, in `Transform.SineCurveTranslation`.
