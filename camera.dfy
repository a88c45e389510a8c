/**
  The perspective camera (`cga.framework.camera.PerspectiveCamera`): its
  default frustum and viewport, the aspect ratio computed by integer
  division, the view matrix derived from the pose by `update()`, and the
  projection of world points into clipping space.

  `Vector3d.normalize()` divides a vector by its length. Square roots are not
  modelled: `update` is given the positive factor that normalisation applies,
  and everything proved here holds for every positive factor.
 */
module Camera {
  import opened JavaArith
  import opened Linear
  import opened Renderer

  const FrustumPlanesCount: nat := 6

  /** `Math.PI` */
  const Pi: real := 3.141592653589793

  /** `Math.toRadians` */
  function ToRadians(degrees: real): (r: real)
    ensures r * 180.0 == degrees * Pi
  {
    degrees / 180.0 * Pi
  }

  /** A point in clipping space. */
  datatype CVPoint = CVPoint(x: real, y: real)

  /** Stand-in for a frustum-culling plane; the camera only ever creates default planes. */
  class Plane {
    constructor () {}
  }

  /**
    `width / height` as the camera computes its aspect ratio: Java `int`
    division, truncated, widened to `double` only afterwards.
   */
  function AspectRatio(width: Int32, height: Int32): (r: Outcome<real>)
    ensures r.Thrown? <==> height == 0
    ensures r.Thrown? ==> r.exception == ArithmeticException
  {
    match Quotient(width, height)
    case Value(q) => Value(q as real)
    case Thrown(e) => Thrown(e)
  }

  /**
    The aspect ratio is always a whole number: the quotient is truncated before
    it is widened. On a surface of non-negative width it is width / height rounded down.
   */
  lemma AspectRatioIsWhole(width: Int32, height: Int32)
    requires height != 0
    ensures AspectRatio(width, height).Value?
    ensures AspectRatio(width, height).value == AspectRatio(width, height).value.Floor as real
    ensures width >= 0 && height > 0 ==> AspectRatio(width, height) == Value((width / height) as real)
  {
    if width >= 0 && height > 0 {
      TruncDivOfNaturals(width, height);
    }
  }

  /** On naturals, truncating division is Dafny's division. */
  lemma TruncDivOfNaturals(a: nat, b: nat)
    requires b > 0
    ensures TruncDiv(a, b) == a / b
  {
    assert Abs(a) == a && Abs(b) == b;
  }

  /** The three output sizes worth knowing: square, landscape and portrait. */
  lemma AspectRatioExamples()
    ensures AspectRatio(800, 800) == Value(1.0)
    ensures AspectRatio(800, 600) == Value(1.0)
    ensures AspectRatio(600, 800) == Value(0.0)
    ensures AspectRatio(800, 0) == Thrown(ArithmeticException)
  {
  }

  /** `Vector3d.normalize()`, with the positive factor 1 / |w| given as `factor`. */
  function Normalize(w: Vec3, factor: real): (r: Vec3)
    requires factor > 0.0
    ensures Cross(r, w) == Zero && Dot(r, w) >= 0.0
    ensures r == Zero <==> w == Zero
  {
    var r := Scale(factor, w);
    assert Dot(r, w) == factor * Dot(w, w) by {
      DotScale(factor, w, w);
    }
    assert Dot(w, w) >= 0.0;
    if w != Zero then ScaleNonZero(factor, w); r else r
  }

  /** The view matrix of a camera at `p` with basis u, v, n: rows [u | -p.u], [v | -p.v], [n | -p.n], [0 0 0 1]. */
  function ViewMatrix(p: Vec3, u: Vec3, v: Vec3, n: Vec3): (m: seq<seq<real>>)
    ensures IsMatrix(m, 4, 4)
  {
    var d := Scale(-1.0, Vec3(Dot(p, u), Dot(p, v), Dot(p, n)));
    [[u.x, u.y, u.z, d.x],
     [v.x, v.y, v.z, d.y],
     [n.x, n.y, n.z, d.z],
     [0.0, 0.0, 0.0, 1.0]]
  }

  /** The rows of the view matrix: the basis vectors, each followed by minus its projection of the position. */
  lemma ViewMatrixRows(p: Vec3, u: Vec3, v: Vec3, n: Vec3)
    ensures ViewMatrix(p, u, v, n)[0] == [u.x, u.y, u.z, -Dot(p, u)]
    ensures ViewMatrix(p, u, v, n)[1] == [v.x, v.y, v.z, -Dot(p, v)]
    ensures ViewMatrix(p, u, v, n)[2] == [n.x, n.y, n.z, -Dot(p, n)]
    ensures ViewMatrix(p, u, v, n)[3] == [0.0, 0.0, 0.0, 1.0]
  {
  }

  /** One row [w | -p.w] of a view matrix measures a point's offset from p along w. */
  lemma ViewRowCoordinate(p: Vec3, w: Vec3, q: Vec3)
    ensures Dot4([w.x, w.y, w.z, -Dot(p, w)], Homogeneous(q)) == Dot(w, Sub(q, p))
  {
  }

  /** The view matrix takes a world point q to its coordinates along u, v and n relative to p, with w = 1. */
  lemma ViewMatrixCoordinates(p: Vec3, u: Vec3, v: Vec3, n: Vec3, q: Vec3)
    ensures Apply(ViewMatrix(p, u, v, n), Homogeneous(q))
         == [Dot(u, Sub(q, p)), Dot(v, Sub(q, p)), Dot(n, Sub(q, p)), 1.0]
  {
    ViewMatrixRows(p, u, v, n);
    ViewRowCoordinate(p, u, q);
    ViewRowCoordinate(p, v, q);
    ViewRowCoordinate(p, n, q);
  }

  /** The last row of a view matrix is (0, 0, 0, 1), so it keeps the homogeneous coordinate. */
  lemma ViewMatrixLastRow(p: Vec3, u: Vec3, v: Vec3, n: Vec3, c: seq<real>)
    requires |c| == 4
    ensures ViewMatrix(p, u, v, n)[3] == [0.0, 0.0, 0.0, 1.0]
    ensures Apply(ViewMatrix(p, u, v, n), c)[3] == c[3]
  {
  }

  /** The camera position maps to the origin of camera space. */
  lemma ViewMatrixMapsEyeToOrigin(p: Vec3, u: Vec3, v: Vec3, n: Vec3)
    ensures Apply(ViewMatrix(p, u, v, n), Homogeneous(p)) == [0.0, 0.0, 0.0, 1.0]
  {
    ViewMatrixCoordinates(p, u, v, n, p);
  }

  /** The basis `update()` derives: n = position - direction, u = normalize(vup x n), v = n x u. */
  ghost predicate IsBasis(position: Vec3, direction: Vec3, vup: Vec3, factor: real, n: Vec3, u: Vec3, v: Vec3) {
    && factor > 0.0
    && n == Sub(position, direction)
    && u == Scale(factor, Cross(vup, n))
    && v == Cross(n, u)
  }

  /**
    The derived basis is pairwise orthogonal, and when vup x n is not zero
    neither n nor u is. It is not orthonormal: n keeps the length of
    position - direction, and v is |n| times as long as u.
   */
  lemma {:induction false} BasisOrthogonal(position: Vec3, direction: Vec3, vup: Vec3, factor: real, n: Vec3, u: Vec3, v: Vec3)
    requires IsBasis(position, direction, vup, factor, n, u, v)
    ensures Dot(u, n) == 0.0 && Dot(v, n) == 0.0 && Dot(v, u) == 0.0
    ensures Dot(v, v) == Dot(n, n) * Dot(u, u)
    ensures Cross(vup, n) != Zero ==> n != Zero && u != Zero
  {
    CrossOrthogonal(vup, n);
    DotScale(factor, Cross(vup, n), n);
    assert Dot(u, n) == 0.0;
    CrossOrthogonal(n, u);
    Lagrange(n, u);
    if Cross(vup, n) != Zero {
      if n == Zero {
        CrossZero(vup);
      }
      ScaleNonZero(factor, Cross(vup, n));
    }
  }

  /** If the factor is exactly 1 / |vup x n|, u has unit length. */
  lemma UnitFactorGivesUnitU(position: Vec3, direction: Vec3, vup: Vec3, factor: real, n: Vec3, u: Vec3, v: Vec3)
    requires IsBasis(position, direction, vup, factor, n, u, v)
    requires factor * factor * Dot(Cross(vup, n), Cross(vup, n)) == 1.0
    ensures Dot(u, u) == 1.0
  {
    assert Dot(u, u) == factor * factor * Dot(Cross(vup, n), Cross(vup, n));
  }

  class PerspectiveCamera {
    // The pose and the derived vectors and projection are held by the base class in the framework.
    var position: Vec3
    var direction: Vec3
    var vup: Vec3
    var n: Vec3
    var u: Vec3
    var v: Vec3
    var projection: seq<seq<real>>

    var aspectRatio: real
    var fieldOfView: real
    var viewportLeft: real
    var viewportRight: real
    var viewportTop: real
    var viewportBottom: real
    var frustumLeft: real
    var frustumRight: real
    var frustumNear: real
    var frustumFar: real
    var frustumTop: real
    var frustumBottom: real
    var width: Int32
    var height: Int32
    var view: seq<seq<real>>
    var cullingPlanes: array<Plane?>

    /** The normalisation factor the last `update()` applied. */
    ghost var normFactor: real

    /** The cached state `update()` derives agrees with the pose. */
    ghost predicate Derived()
      reads this
    {
      && IsBasis(position, direction, vup, normFactor, n, u, v)
      && view == ViewMatrix(position, u, v, n)
      && projection == Identity(4)
    }

    /** The frustum and viewport the constructors set and nothing changes afterwards. */
    ghost predicate DefaultFrustum()
      reads this
    {
      && frustumNear == 1.0 && frustumFar == 2.0
      && frustumLeft == -0.5 && frustumRight == 0.5
      && frustumTop == 0.5 && frustumBottom == -0.5
      && viewportLeft == 0.0 && viewportRight == 1.0
      && viewportTop == 1.0 && viewportBottom == 0.0
    }

    ghost predicate Valid()
      reads this
    {
      Derived() && DefaultFrustum() && cullingPlanes.Length == FrustumPlanesCount
    }

    /**
      `PerspectiveCamera(width, height)`: the defaults of the private constructor,
      then the output size, the aspect ratio and `update()`. `defaultDirection`
      is the look-at point the base class starts with.
     */
    constructor (width: Int32, height: Int32, defaultDirection: Vec3, normFactor: real)
      requires height != 0
      requires normFactor > 0.0
      ensures Valid()
      ensures position == Zero && direction == defaultDirection && vup == UnitY
      ensures fieldOfView == ToRadians(75.0)
      ensures this.width == width && this.height == height
      ensures Value(aspectRatio) == AspectRatio(width, height)
      ensures this.normFactor == normFactor
      ensures fresh(cullingPlanes)
    {
      var planes := NewCullingPlanes();
      var ratio := WholeAspectRatio(width, height);
      cullingPlanes := planes;
      position := Zero;
      frustumNear, frustumFar := 1.0, 2.0;
      frustumLeft, frustumRight, frustumTop, frustumBottom := -0.5, 0.5, 0.5, -0.5;
      viewportLeft, viewportRight, viewportTop, viewportBottom := 0.0, 1.0, 1.0, 0.0;
      fieldOfView := ToRadians(75.0);
      vup := UnitY;
      direction := defaultDirection;
      this.width := width;
      this.height := height;
      aspectRatio := ratio;
      new;
      Update(normFactor);
    }

    /**
      `PerspectiveCamera(position, direction, vup, fov, width, height)`: the defaults
      of the private constructor, of which the pose and the field of view are then
      overwritten, the output size, the aspect ratio and `update()`.
     */
    constructor Posed(position: Vec3, direction: Vec3, vup: Vec3, fov: real, width: Int32, height: Int32, normFactor: real)
      requires height != 0
      requires normFactor > 0.0
      ensures Valid()
      ensures this.position == position && this.direction == direction && this.vup == vup
      ensures fieldOfView == fov
      ensures this.width == width && this.height == height
      ensures Value(aspectRatio) == AspectRatio(width, height)
      ensures this.normFactor == normFactor
      ensures fresh(cullingPlanes)
    {
      var planes := NewCullingPlanes();
      var ratio := WholeAspectRatio(width, height);
      cullingPlanes := planes;
      frustumNear, frustumFar := 1.0, 2.0;
      frustumLeft, frustumRight, frustumTop, frustumBottom := -0.5, 0.5, 0.5, -0.5;
      viewportLeft, viewportRight, viewportTop, viewportBottom := 0.0, 1.0, 1.0, 0.0;
      this.position := position;
      this.direction := direction;
      this.vup := vup;
      fieldOfView := fov;
      this.width := width;
      this.height := height;
      aspectRatio := ratio;
      new;
      Update(normFactor);
    }

    /**
      `update()`: n = -(direction - position), u = normalize(vup x n), v = n x u,
      the view matrix from them and the identity as projection. Nothing else changes.
     */
    method Update(factor: real)
      requires factor > 0.0
      modifies this`n, this`u, this`v, this`view, this`projection, this`normFactor
      ensures Derived()
      ensures n == Sub(position, direction)
      ensures u == Scale(factor, Cross(vup, n)) && v == Cross(n, u)
      ensures view == ViewMatrix(position, u, v, n)
      ensures projection == Identity(4)
      ensures normFactor == factor
    {
      n := Scale(-1.0, Sub(direction, position));
      u := Normalize(Cross(vup, n), factor);
      v := Cross(n, u);
      var d := Scale(-1.0, Vec3(Dot(position, u), Dot(position, v), Dot(position, n)));
      view := [[u.x, u.y, u.z, d.x],
               [v.x, v.y, v.z, d.y],
               [n.x, n.y, n.z, d.z],
               [0.0, 0.0, 0.0, 1.0]];
      projection := Identity(4);
      normFactor := factor;
    }

    /** `getProjection()` */
    function GetProjection(): (m: seq<seq<real>>)
      reads this
      requires Derived()
      ensures m == Identity(4)
    {
      projection
    }

    /**
      `getClippingSpaceCoordinates(q)`: the first two rows of view x (q, 1)
      divided by the fourth. The fourth is always 1, so the result is q's
      offset from the camera measured along u and v.
     */
    function ClippingSpaceCoordinates(q: Vec3): (p: CVPoint)
      reads this
      requires Derived()
      ensures p == CVPoint(Dot(u, Sub(q, position)), Dot(v, Sub(q, position)))
    {
      var h := Apply(view, Homogeneous(q));
      ViewMatrixCoordinates(position, u, v, n, q);
      CVPoint(h[0] / h[3], h[1] / h[3])
    }

    /** `getImageSpaceCoordinates(q)` is not supported and always throws. */
    function ImageSpaceCoordinates(q: Vec3): (r: Outcome<Pixel>)
      ensures r.Thrown? && r.exception == UnsupportedOperationException
    {
      Thrown(UnsupportedOperationException)
    }
  }

  /** The aspect ratio of a surface whose height is not zero. */
  method WholeAspectRatio(width: Int32, height: Int32) returns (r: real)
    requires height != 0
    ensures Value(r) == AspectRatio(width, height)
  {
    r := AspectRatio(width, height).value;
  }

  /** Six fresh default culling planes, one per slot. */
  method NewCullingPlanes() returns (planes: array<Plane?>)
    ensures fresh(planes) && planes.Length == FrustumPlanesCount
    ensures forall i :: 0 <= i < planes.Length ==> planes[i] != null && fresh(planes[i])
    ensures forall i, j :: 0 <= i < j < planes.Length ==> planes[i] != planes[j]
  {
    planes := new Plane?[FrustumPlanesCount];
    for i := 0 to planes.Length
      invariant forall k :: 0 <= k < i ==> planes[k] != null && fresh(planes[k])
      invariant forall k, l :: 0 <= k < l < i ==> planes[k] != planes[l]
    {
      planes[i] := new Plane();
    }
  }

  /** Every point on the viewing axis through the camera projects to the centre (0, 0). */
  lemma {:induction false} AxisProjectsToCentre(c: PerspectiveCamera, t: real)
    requires c.Derived()
    ensures c.ClippingSpaceCoordinates(Add(c.position, Scale(t, c.n))) == CVPoint(0.0, 0.0)
  {
    BasisOrthogonal(c.position, c.direction, c.vup, c.normFactor, c.n, c.u, c.v);
    var q := Add(c.position, Scale(t, c.n));
    assert Sub(q, c.position) == Scale(t, c.n);
    DotScaleRight(t, c.u, c.n);
    DotScaleRight(t, c.v, c.n);
  }

  /** In particular the look-at point projects to the centre. */
  lemma {:induction false} LookAtProjectsToCentre(c: PerspectiveCamera)
    requires c.Derived()
    ensures c.ClippingSpaceCoordinates(c.direction) == CVPoint(0.0, 0.0)
  {
    assert c.direction == Add(c.position, Scale(-1.0, c.n));
    AxisProjectsToCentre(c, -1.0);
  }

  /**
    A camera at (0, 0, -5) looking at the origin with y up, 75 degrees, 800 x 800:
    the origin projects to the centre and the aspect ratio is 1.
   */
  method CentreOfViewScenario(factor: real) returns (p: CVPoint, aspect: real)
    requires factor > 0.0
    ensures p == CVPoint(0.0, 0.0)
    ensures aspect == 1.0
  {
    var camera := new PerspectiveCamera.Posed(Vec3(0.0, 0.0, -5.0), Zero, UnitY, ToRadians(75.0), 800, 800, factor);
    LookAtProjectsToCentre(camera);
    p := camera.ClippingSpaceCoordinates(Zero);
    aspect := camera.aspectRatio;
  }
}
