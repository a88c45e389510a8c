/**
  The per-node translation transform of the scene graph
  (`cga.framework.scenegraph.transform.Translation`): three offsets, an
  optional interpolator per axis, and the cached 4x4 matrix that is rebuilt
  after every change.
 */
module Transform {
  import opened Linear

  /** The 4x4 matrix of a translation by (tx, ty, tz), in the row-major layout of the framework. */
  function TranslationMatrix(tx: real, ty: real, tz: real): (m: seq<seq<real>>)
    ensures IsMatrix(m, 4, 4)
    ensures Column(m, 3) == [tx, ty, tz, 1.0]
  {
    [[1.0, 0.0, 0.0, tx],
     [0.0, 1.0, 0.0, ty],
     [0.0, 0.0, 1.0, tz],
     [0.0, 0.0, 0.0, 1.0]]
  }

  /** A translation matrix is the identity with the offsets in column 3 and (0, 0, 0, 1) as row 3. */
  lemma TranslationMatrixShape(tx: real, ty: real, tz: real)
    ensures var m := TranslationMatrix(tx, ty, tz);
      && IsMatrix(m, 4, 4)
      && (forall i, j :: 0 <= i < 3 && 0 <= j < 3 ==> m[i][j] == (if i == j then 1.0 else 0.0))
      && Column(m, 3) == [tx, ty, tz, 1.0]
      && m[3] == [0.0, 0.0, 0.0, 1.0]
  {
  }

  /** Applied to a homogeneous point, a translation matrix adds the offsets to it. */
  lemma TranslationMatrixMoves(tx: real, ty: real, tz: real, p: Vec3)
    ensures IsMatrix(TranslationMatrix(tx, ty, tz), 4, 4)
    ensures Apply(TranslationMatrix(tx, ty, tz), Homogeneous(p)) == Homogeneous(Add(p, Vec3(tx, ty, tz)))
  {
    var m := TranslationMatrix(tx, ty, tz);
    var c := Homogeneous(p);
    assert Dot4(m[0], c) == p.x + tx && Dot4(m[1], c) == p.y + ty;
    assert Dot4(m[2], c) == p.z + tz && Dot4(m[3], c) == 1.0;
  }

  /** Two translations compose into one by the sum of their offsets. */
  lemma TranslationMatrixComposes(a: Vec3, b: Vec3)
    ensures IsMatrix(TranslationMatrix(a.x, a.y, a.z), 4, 4) && IsMatrix(TranslationMatrix(b.x, b.y, b.z), 4, 4)
    ensures Multiply(TranslationMatrix(a.x, a.y, a.z), TranslationMatrix(b.x, b.y, b.z))
         == TranslationMatrix(a.x + b.x, a.y + b.y, a.z + b.z)
  {
    var m := Multiply(TranslationMatrix(a.x, a.y, a.z), TranslationMatrix(b.x, b.y, b.z));
    var t := TranslationMatrix(a.x + b.x, a.y + b.y, a.z + b.z);
    forall i | 0 <= i < 4
      ensures m[i] == t[i]
    {
      assert forall j :: 0 <= j < 4 ==> m[i][j] == t[i][j];
    }
  }

  /**
    An interpolation as the translation sees it: a source of values pulled one
    at a time by `nextValue()`. The values it will produce are `values(cursor)`,
    `values(cursor + 1)`, and so on.
   */
  class Interpolation {
    const values: nat -> real
    var cursor: nat

    constructor (values: nat -> real)
      ensures this.values == values && cursor == 0
    {
      this.values := values;
      cursor := 0;
    }

    /** `nextValue()`: yields the value under the cursor and advances the cursor by one. */
    method NextValue() returns (r: real)
      modifies this`cursor
      ensures r == values(old(cursor))
      ensures cursor == old(cursor) + 1
    {
      r := values(cursor);
      cursor := cursor + 1;
    }
  }

  class Translation {
    var translateX: real
    var translateY: real
    var translateZ: real
    var interpolationX: Interpolation?
    var interpolationY: Interpolation?
    var interpolationZ: Interpolation?
    var transformMatrix: seq<seq<real>>

    /** The cached matrix always agrees with the offsets. */
    ghost predicate Valid()
      reads this
    {
      transformMatrix == TranslationMatrix(translateX, translateY, translateZ)
    }

    /** How many of the three axes have `ip` attached: how often one `update()` pulls from it. */
    function Pulls(ip: Interpolation): (k: nat)
      reads this
      ensures k <= 3
      ensures k == 0 <==> (ip != interpolationX && ip != interpolationY && ip != interpolationZ)
    {
      (if interpolationX == ip then 1 else 0)
      + (if interpolationY == ip then 1 else 0)
      + (if interpolationZ == ip then 1 else 0)
    }

    constructor (translateX: real, translateY: real, translateZ: real)
      ensures Valid()
      ensures this.translateX == translateX && this.translateY == translateY && this.translateZ == translateZ
      ensures interpolationX == null && interpolationY == null && interpolationZ == null
    {
      this.translateX := translateX;
      this.translateY := translateY;
      this.translateZ := translateZ;
      interpolationX, interpolationY, interpolationZ := null, null, null;
      new;
      UpdateMatrix();
    }

    method ChangeX(diffX: real)
      modifies this`translateX, this`transformMatrix
      ensures Valid()
      ensures translateX == old(translateX) + diffX
      ensures translateY == old(translateY) && translateZ == old(translateZ)
    {
      translateX := translateX + diffX;
      UpdateMatrix();
    }

    method ChangeY(diffY: real)
      modifies this`translateY, this`transformMatrix
      ensures Valid()
      ensures translateY == old(translateY) + diffY
      ensures translateX == old(translateX) && translateZ == old(translateZ)
    {
      translateY := translateY + diffY;
      UpdateMatrix();
    }

    method ChangeZ(diffZ: real)
      modifies this`translateZ, this`transformMatrix
      ensures Valid()
      ensures translateZ == old(translateZ) + diffZ
      ensures translateX == old(translateX) && translateY == old(translateY)
    {
      translateZ := translateZ + diffZ;
      UpdateMatrix();
    }

    /** Rebuilds the cached matrix from the current offsets. */
    method UpdateMatrix()
      modifies this`transformMatrix
      ensures Valid()
    {
      transformMatrix := [[1.0, 0.0, 0.0, translateX],
                          [0.0, 1.0, 0.0, translateY],
                          [0.0, 0.0, 1.0, translateZ],
                          [0.0, 0.0, 0.0, 1.0]];
    }

    /** `getTransformMatrix()`: the cached matrix, which is the translation by the current offsets. */
    function GetTransformMatrix(): (m: seq<seq<real>>)
      reads this
      requires Valid()
      ensures IsMatrix(m, 4, 4)
      ensures Column(m, 3) == [translateX, translateY, translateZ, 1.0]
      ensures forall p :: Apply(m, Homogeneous(p)) == Homogeneous(Add(p, Vec3(translateX, translateY, translateZ)))
    {
      TranslationMatrixShape(translateX, translateY, translateZ);
      assert forall p :: Apply(transformMatrix, Homogeneous(p)) == Homogeneous(Add(p, Vec3(translateX, translateY, translateZ))) by {
        forall p ensures Apply(transformMatrix, Homogeneous(p)) == Homogeneous(Add(p, Vec3(translateX, translateY, translateZ))) {
          TranslationMatrixMoves(translateX, translateY, translateZ, p);
        }
      }
      transformMatrix
    }

    method SetInterpolationX(interpolationX: Interpolation?)
      modifies this`interpolationX
      ensures this.interpolationX == interpolationX
    {
      this.interpolationX := interpolationX;
    }

    method SetInterpolationY(interpolationY: Interpolation?)
      modifies this`interpolationY
      ensures this.interpolationY == interpolationY
    {
      this.interpolationY := interpolationY;
    }

    method SetInterpolationZ(interpolationZ: Interpolation?)
      modifies this`interpolationZ
      ensures this.interpolationZ == interpolationZ
    {
      this.interpolationZ := interpolationZ;
    }

    /**
      `update()`: every axis with an interpolator takes that interpolator's next
      value, pulled in the order X, Y, Z (so an interpolator attached to two axes
      gives the later axis the value after the earlier one's); the other axes
      keep their offsets; the matrix is rebuilt.
     */
    method Update()
      requires Valid()
      modifies this`translateX, this`translateY, this`translateZ, this`transformMatrix
      modifies interpolationX, interpolationY, interpolationZ
      ensures Valid()
      ensures interpolationX == null ==> translateX == old(translateX)
      ensures interpolationY == null ==> translateY == old(translateY)
      ensures interpolationZ == null ==> translateZ == old(translateZ)
      ensures interpolationX != null ==>
                translateX == interpolationX.values(old(interpolationX.cursor))
      ensures interpolationY != null ==>
                translateY == interpolationY.values(old(interpolationY.cursor)
                                                    + (if interpolationY == interpolationX then 1 else 0))
      ensures interpolationZ != null ==>
                translateZ == interpolationZ.values(old(interpolationZ.cursor)
                                                    + (if interpolationZ == interpolationX then 1 else 0)
                                                    + (if interpolationZ == interpolationY then 1 else 0))
      ensures interpolationX != null ==> interpolationX.cursor == old(interpolationX.cursor) + Pulls(interpolationX)
      ensures interpolationY != null ==> interpolationY.cursor == old(interpolationY.cursor) + Pulls(interpolationY)
      ensures interpolationZ != null ==> interpolationZ.cursor == old(interpolationZ.cursor) + Pulls(interpolationZ)
      ensures interpolationX == null && interpolationY == null && interpolationZ == null ==>
                transformMatrix == old(transformMatrix)
    {
      if interpolationX != null {
        translateX := interpolationX.NextValue();
      }
      if interpolationY != null {
        translateY := interpolationY.NextValue();
      }
      if interpolationZ != null {
        translateZ := interpolationZ.NextValue();
      }
      UpdateMatrix();
    }
  }

  /** The translation the animated sine-curve example attaches to its scene graph. */
  method SineCurveTranslation() returns (m: seq<seq<real>>)
    ensures m == [[1.0, 0.0, 0.0, -400.0],
                  [0.0, 1.0, 0.0, 0.0],
                  [0.0, 0.0, 1.0, 0.0],
                  [0.0, 0.0, 0.0, 1.0]]
  {
    var t := new Translation(-400.0, 0.0, 0.0);
    m := t.GetTransformMatrix();
  }

  /** `changeX(a); changeX(b)` leaves a translation in the same state as `changeX(a + b)`. */
  method ChangeXComposes(x: real, y: real, z: real, a: real, b: real) returns (twice: Translation, once: Translation)
    ensures twice.translateX == once.translateX == x + a + b
    ensures twice.translateY == once.translateY == y && twice.translateZ == once.translateZ == z
    ensures twice.transformMatrix == once.transformMatrix
    ensures twice.interpolationX == once.interpolationX == null
    ensures twice.interpolationY == once.interpolationY == null
    ensures twice.interpolationZ == once.interpolationZ == null
  {
    twice := new Translation(x, y, z);
    twice.ChangeX(a);
    twice.ChangeX(b);
    once := new Translation(x, y, z);
    once.ChangeX(a + b);
  }

  /**
    With an interpolator attached to X only, `update()` overwrites an earlier
    `changeX` with the interpolator's next value and leaves Y and Z alone.
   */
  method UpdateOverwritesChange(values: nat -> real, d: real) returns (t: Translation, ip: Interpolation)
    ensures t.translateX == values(0) && t.translateY == 2.0 && t.translateZ == 3.0
    ensures ip.cursor == 1
    ensures t.Valid() && t.GetTransformMatrix() == TranslationMatrix(values(0), 2.0, 3.0)
  {
    t := new Translation(1.0, 2.0, 3.0);
    ip := new Interpolation(values);
    t.SetInterpolationX(ip);
    t.ChangeX(d);
    t.Update();
  }
}
