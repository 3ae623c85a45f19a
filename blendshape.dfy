/** The linear blend-shape model of the face: a mean shape of V vertices, an
    expression basis of E rows of 3V displacements, and the two steps that turn a
    coefficient vector into vertices (the blend and the eye correction). */
module BlendShape {
  import opened Wrappers

  /** One point of the mesh; coordinate 2 (z) is depth. */
  datatype Vertex = Vertex(x: real, y: real, z: real)

  function Coord(v: Vertex, c: nat): real
    requires c < 3
  {
    if c == 0 then v.x else if c == 1 then v.y else v.z
  }

  function VAdd(u: Vertex, v: Vertex): Vertex {
    Vertex(u.x + v.x, u.y + v.y, u.z + v.z)
  }

  function VScale(a: real, v: Vertex): Vertex {
    Vertex(a * v.x, a * v.y, a * v.z)
  }

  const Origin: Vertex := Vertex(0.0, 0.0, 0.0)

  // ---------------------------------------------------------------------------
  // The basis as loaded, (E, V, 3), and its row-major flattening to (E, 3V)

  /** One expression channel, V displacements, flattened row-major:
      x0, y0, z0, x1, y1, z1, ... */
  function FlattenRow(row: seq<Vertex>): (r: seq<real>)
    ensures |r| == 3 * |row|
    decreases |row|
  {
    if |row| == 0 then [] else [row[0].x, row[0].y, row[0].z] + FlattenRow(row[1..])
  }

  /** np.reshape(bases, (E, -1)): every channel flattened. */
  function Flatten(bases: seq<seq<Vertex>>): (r: seq<seq<real>>)
    ensures |r| == |bases|
  {
    seq(|bases|, k requires 0 <= k < |bases| => FlattenRow(bases[k]))
  }

  /** Coordinate c of vertex i sits at flat index 3 * i + c. */
  lemma {:induction false} FlattenRowAt(row: seq<Vertex>, i: nat, c: nat)
    requires i < |row| && c < 3
    ensures FlattenRow(row)[3 * i + c] == Coord(row[i], c)
    decreases |row|
  {
    if i > 0 {
      FlattenRowAt(row[1..], i - 1, c);
      assert FlattenRow(row)[3 * i + c] == FlattenRow(row[1..])[3 * (i - 1) + c];
    }
  }

  lemma FlattenAt(bases: seq<seq<Vertex>>, k: nat, i: nat, c: nat)
    requires k < |bases| && i < |bases[k]| && c < 3
    ensures |Flatten(bases)[k]| == 3 * |bases[k]|
    ensures Flatten(bases)[k][3 * i + c] == Coord(bases[k][i], c)
  {
    FlattenRowAt(bases[k], i, c);
  }

  /** reshape(V, 3) of a flat vector of 3V numbers. */
  function Reshape(flat: seq<real>): (r: seq<Vertex>)
    requires |flat| % 3 == 0
    ensures 3 * |r| == |flat|
  {
    seq(|flat| / 3, i requires 0 <= i < |flat| / 3 => Vertex(flat[3 * i], flat[3 * i + 1], flat[3 * i + 2]))
  }

  /** Reshape undoes the flattening of one channel. */
  lemma {:induction false} ReshapeFlattenRow(row: seq<Vertex>)
    ensures Reshape(FlattenRow(row)) == row
  {
    var r := Reshape(FlattenRow(row));
    forall i | 0 <= i < |row| ensures r[i] == row[i] {
      FlattenRowAt(row, i, 0);
      FlattenRowAt(row, i, 1);
      FlattenRowAt(row, i, 2);
    }
  }

  /** Flattening undoes the reshape of a flat vector. */
  lemma {:induction false} FlattenRowReshape(flat: seq<real>)
    requires |flat| % 3 == 0
    ensures FlattenRow(Reshape(flat)) == flat
    decreases |flat|
  {
    if |flat| > 0 {
      var r := Reshape(flat);
      assert r[1..] == Reshape(flat[3..]);
      FlattenRowReshape(flat[3..]);
      assert flat == [flat[0], flat[1], flat[2]] + flat[3..];
    }
  }

  // ---------------------------------------------------------------------------
  // The blend: (coeff @ exp_bases).reshape(V, 3) + mean_shape

  predicate Rectangular(rows: seq<seq<real>>, width: nat) {
    forall k :: 0 <= k < |rows| ==> |rows[k]| == width
  }

  /** Column j of coeff @ rows: the sum over k of coeff[k] * rows[k][j]. */
  function Dot(coeff: seq<real>, rows: seq<seq<real>>, j: nat): real
    requires |coeff| == |rows|
    requires forall k :: 0 <= k < |rows| ==> j < |rows[k]|
    decreases |coeff|
  {
    if |coeff| == 0 then 0.0 else coeff[0] * rows[0][j] + Dot(coeff[1..], rows[1..], j)
  }

  /** The vector-matrix product coeff @ rows, of length `width`. */
  function Combine(coeff: seq<real>, rows: seq<seq<real>>, width: nat): (r: seq<real>)
    requires |coeff| == |rows| && Rectangular(rows, width)
    ensures |r| == width
  {
    seq(width, j requires 0 <= j < width => Dot(coeff, rows, j))
  }

  function Add(a: seq<Vertex>, b: seq<Vertex>): (r: seq<Vertex>)
    requires |a| == |b|
    ensures |r| == |a|
  {
    seq(|a|, i requires 0 <= i < |a| => VAdd(a[i], b[i]))
  }

  /** The deformed shape for one coefficient vector. */
  function Blend(coeff: seq<real>, bases: seq<seq<real>>, mean: seq<Vertex>): (r: seq<Vertex>)
    requires |coeff| == |bases| && Rectangular(bases, 3 * |mean|)
    ensures |r| == |mean|
  {
    Add(Reshape(Combine(coeff, bases, 3 * |mean|)), mean)
  }

  /** Coordinate c of vertex i is the mean coordinate plus the coefficient-weighted
      sum of column 3 * i + c of the basis. */
  lemma BlendAt(coeff: seq<real>, bases: seq<seq<real>>, mean: seq<Vertex>, i: nat, c: nat)
    requires |coeff| == |bases| && Rectangular(bases, 3 * |mean|)
    requires i < |mean| && c < 3
    ensures Coord(Blend(coeff, bases, mean)[i], c) == Coord(mean[i], c) + Dot(coeff, bases, 3 * i + c)
  {
    var flat := Combine(coeff, bases, 3 * |mean|);
    var shaped := Reshape(flat);
    assert shaped[i] == Vertex(flat[3 * i], flat[3 * i + 1], flat[3 * i + 2]);
    assert Blend(coeff, bases, mean)[i] == VAdd(shaped[i], mean[i]);
    assert flat[3 * i + c] == Dot(coeff, bases, 3 * i + c);
  }

  /** A zero coefficient contributes nothing to a column. */
  lemma {:induction false} DotZero(coeff: seq<real>, rows: seq<seq<real>>, j: nat)
    requires |coeff| == |rows|
    requires forall k :: 0 <= k < |rows| ==> j < |rows[k]|
    requires forall k :: 0 <= k < |coeff| ==> coeff[k] == 0.0
    ensures Dot(coeff, rows, j) == 0.0
    decreases |coeff|
  {
    if |coeff| > 0 {
      DotZero(coeff[1..], rows[1..], j);
    }
  }

  /** The zero coefficient vector gives back the mean shape. */
  lemma BlendZero(coeff: seq<real>, bases: seq<seq<real>>, mean: seq<Vertex>)
    requires |coeff| == |bases| && Rectangular(bases, 3 * |mean|)
    requires forall k :: 0 <= k < |coeff| ==> coeff[k] == 0.0
    ensures Blend(coeff, bases, mean) == mean
  {
    var r := Blend(coeff, bases, mean);
    forall i | 0 <= i < |mean| ensures r[i] == mean[i] {
      DotZero(coeff, bases, 3 * i);
      DotZero(coeff, bases, 3 * i + 1);
      DotZero(coeff, bases, 3 * i + 2);
    }
  }

  function VecAdd(a: seq<real>, b: seq<real>): (r: seq<real>)
    requires |a| == |b|
    ensures |r| == |a|
  {
    seq(|a|, k requires 0 <= k < |a| => a[k] + b[k])
  }

  lemma {:induction false} DotAdd(a: seq<real>, b: seq<real>, rows: seq<seq<real>>, j: nat)
    requires |a| == |b| == |rows|
    requires forall k :: 0 <= k < |rows| ==> j < |rows[k]|
    ensures Dot(VecAdd(a, b), rows, j) == Dot(a, rows, j) + Dot(b, rows, j)
    decreases |a|
  {
    if |a| > 0 {
      assert VecAdd(a, b)[1..] == VecAdd(a[1..], b[1..]);
      DotAdd(a[1..], b[1..], rows[1..], j);
    }
  }

  /** How far coordinate c of vertex i moves away from the mean shape. */
  function Offset(coeff: seq<real>, bases: seq<seq<real>>, mean: seq<Vertex>, i: nat, c: nat): real
    requires |coeff| == |bases| && Rectangular(bases, 3 * |mean|)
    requires i < |mean| && c < 3
  {
    Coord(Blend(coeff, bases, mean)[i], c) - Coord(mean[i], c)
  }

  /** The offset is column 3 * i + c of coeff @ bases. */
  lemma OffsetIsDot(coeff: seq<real>, bases: seq<seq<real>>, mean: seq<Vertex>, i: nat, c: nat)
    requires |coeff| == |bases| && Rectangular(bases, 3 * |mean|)
    requires i < |mean| && c < 3
    ensures Offset(coeff, bases, mean, i, c) == Dot(coeff, bases, 3 * i + c)
  {
    BlendAt(coeff, bases, mean, i, c);
  }

  /** The displacement from the mean is additive in the coefficients. */
  lemma BlendAdditive(a: seq<real>, b: seq<real>, bases: seq<seq<real>>, mean: seq<Vertex>, i: nat, c: nat)
    requires |a| == |b| == |bases| && Rectangular(bases, 3 * |mean|)
    requires i < |mean| && c < 3
    ensures Offset(VecAdd(a, b), bases, mean, i, c) == Offset(a, bases, mean, i, c) + Offset(b, bases, mean, i, c)
  {
    DotAdd(a, b, bases, 3 * i + c);
    OffsetIsDot(VecAdd(a, b), bases, mean, i, c);
    OffsetIsDot(a, bases, mean, i, c);
    OffsetIsDot(b, bases, mean, i, c);
  }

  /** Vertex i of the weighted sum of the (E, V, 3) basis. */
  function Displacement(coeff: seq<real>, bases: seq<seq<Vertex>>, i: nat): Vertex
    requires |coeff| == |bases|
    requires forall k :: 0 <= k < |bases| ==> i < |bases[k]|
    decreases |coeff|
  {
    if |coeff| == 0 then Origin
    else VAdd(VScale(coeff[0], bases[0][i]), Displacement(coeff[1..], bases[1..], i))
  }

  lemma {:induction false} DotFlattened(coeff: seq<real>, bases: seq<seq<Vertex>>, i: nat, c: nat)
    requires |coeff| == |bases| && c < 3
    requires forall k :: 0 <= k < |bases| ==> i < |bases[k]|
    requires forall k :: 0 <= k < |bases| ==> 3 * i + c < |Flatten(bases)[k]|
    ensures Dot(coeff, Flatten(bases), 3 * i + c) == Coord(Displacement(coeff, bases, i), c)
    decreases |coeff|
  {
    if |coeff| > 0 {
      var f := Flatten(bases);
      assert f[1..] == Flatten(bases[1..]);
      DotFlattened(coeff[1..], bases[1..], i, c);
      FlattenAt(bases, 0, i, c);
    }
  }

  /** Blending against the flattened basis moves vertex i of the mean shape by the
      coefficient-weighted sum of the basis displacements of vertex i: the
      row-major flattening and the reshape agree on where each vertex lives. */
  lemma BlendOfFlattened(coeff: seq<real>, bases: seq<seq<Vertex>>, mean: seq<Vertex>, i: nat)
    requires |coeff| == |bases|
    requires forall k :: 0 <= k < |bases| ==> |bases[k]| == |mean|
    requires i < |mean|
    ensures Rectangular(Flatten(bases), 3 * |mean|)
    ensures Blend(coeff, Flatten(bases), mean)[i] == VAdd(Displacement(coeff, bases, i), mean[i])
  {
    var f := Flatten(bases);
    assert Rectangular(f, 3 * |mean|);
    DotFlattened(coeff, bases, i, 0);
    DotFlattened(coeff, bases, i, 1);
    DotFlattened(coeff, bases, i, 2);
  }

  // ---------------------------------------------------------------------------
  // Coefficient selection: three fixed picks of the raw frame, scaled

  function Zeros(n: nat): (r: seq<real>)
    ensures |r| == n
  {
    seq(n, _ => 0.0)
  }

  /** The coefficient vector of a raw frame: raw[25], raw[13] and raw[12], each
      divided by the fixed divisor 80, in channels 0, 1 and 2, every other channel 0. None when the
      frame is too short or the model has fewer than three channels (an index error). */
  function Coefficients(raw: seq<real>, expNum: nat): (r: Option<seq<real>>)
    ensures r.Some? <==> |raw| >= 26 && expNum >= 3
    ensures r.Some? ==> |r.value| == expNum
    ensures r.Some? ==> r.value[0] == raw[25] / 80.0 && r.value[1] == raw[13] / 80.0 && r.value[2] == raw[12] / 80.0
    ensures r.Some? ==> forall k :: 3 <= k < expNum ==> r.value[k] == 0.0
  {
    if |raw| < 26 || expNum < 3 then None
    else Some(Zeros(expNum)[0 := raw[25] / 80.0][1 := raw[13] / 80.0][2 := raw[12] / 80.0])
  }

  /** Only the first three channels contribute when the others are zero. */
  lemma DotLeadingThree(coeff: seq<real>, rows: seq<seq<real>>, j: nat)
    requires |coeff| == |rows| >= 3
    requires forall k :: 0 <= k < |rows| ==> j < |rows[k]|
    requires forall k :: 3 <= k < |coeff| ==> coeff[k] == 0.0
    ensures Dot(coeff, rows, j) == coeff[0] * rows[0][j] + coeff[1] * rows[1][j] + coeff[2] * rows[2][j]
  {
    assert coeff[1..][1..][1..] == coeff[3..];
    assert rows[1..][1..][1..] == rows[3..];
    DotZero(coeff[3..], rows[3..], j);
    assert Dot(coeff[1..][1..], rows[1..][1..], j) == coeff[2] * rows[2][j] + Dot(coeff[3..], rows[3..], j);
    assert Dot(coeff[1..], rows[1..], j) == coeff[1] * rows[1][j] + Dot(coeff[1..][1..], rows[1..][1..], j);
  }

  /** The blended shape for a raw frame, in terms of the three picked values. */
  lemma BlendOfSelection(raw: seq<real>, coeff: seq<real>, bases: seq<seq<real>>, mean: seq<Vertex>, i: nat, c: nat)
    requires Coefficients(raw, |bases|) == Some(coeff) && Rectangular(bases, 3 * |mean|)
    requires i < |mean| && c < 3
    ensures Coord(Blend(coeff, bases, mean)[i], c)
         == Coord(mean[i], c)
          + raw[25] / 80.0 * bases[0][3 * i + c]
          + raw[13] / 80.0 * bases[1][3 * i + c]
          + raw[12] / 80.0 * bases[2][3 * i + c]
  {
    DotLeadingThree(coeff, bases, 3 * i + c);
    BlendAt(coeff, bases, mean, i, c);
  }

  /** When the three picked values are zero the blend is the mean shape. */
  lemma ZeroSelectionKeepsMean(raw: seq<real>, bases: seq<seq<real>>, mean: seq<Vertex>)
    requires |raw| >= 26 && |bases| >= 3 && Rectangular(bases, 3 * |mean|)
    requires raw[25] == 0.0 && raw[13] == 0.0 && raw[12] == 0.0
    ensures Coefficients(raw, |bases|).Some?
    ensures Blend(Coefficients(raw, |bases|).value, bases, mean) == mean
  {
    BlendZero(Coefficients(raw, |bases|).value, bases, mean);
  }

  // ---------------------------------------------------------------------------
  // Eye correction

  /** The mean-shape eye vertex pushed back by `delta` in depth. */
  function Lowered(v: Vertex, delta: real): Vertex {
    v.(z := v.z - delta)
  }

  /** The blended shape with every eye vertex replaced by its lowered mean-shape
      position; None when an eye index is out of range (an index error). */
  function EyeCorrected(v: seq<Vertex>, mean: seq<Vertex>, eyes: seq<nat>, delta: real): (r: Option<seq<Vertex>>)
    requires |v| == |mean|
    ensures r.Some? <==> forall e :: e in eyes ==> e < |v|
    ensures r.Some? ==> |r.value| == |v|
    ensures r.Some? ==> forall i :: 0 <= i < |v| && i in eyes ==> r.value[i] == Vertex(mean[i].x, mean[i].y, mean[i].z - delta)
    ensures r.Some? ==> forall i :: 0 <= i < |v| && i !in eyes ==> r.value[i] == v[i]
  {
    if exists e :: e in eyes && e >= |v| then None
    else Some(seq(|v|, i requires 0 <= i < |v| => if i in eyes then Lowered(mean[i], delta) else v[i]))
  }

  /** Correcting twice is correcting once. */
  lemma EyeCorrectionIdempotent(v: seq<Vertex>, mean: seq<Vertex>, eyes: seq<nat>, delta: real)
    requires |v| == |mean|
    requires EyeCorrected(v, mean, eyes, delta).Some?
    ensures EyeCorrected(EyeCorrected(v, mean, eyes, delta).value, mean, eyes, delta) == EyeCorrected(v, mean, eyes, delta)
  {
    var w := EyeCorrected(v, mean, eyes, delta).value;
    var w2 := EyeCorrected(w, mean, eyes, delta).value;
    assert w2 == w;
  }

  /** Listing an eye index again does not lower that vertex twice. */
  lemma RepeatedEyeIndexDoesNotCompound(v: seq<Vertex>, mean: seq<Vertex>, eyes: seq<nat>, e: nat, delta: real)
    requires |v| == |mean| && e in eyes
    ensures EyeCorrected(v, mean, eyes + [e], delta) == EyeCorrected(v, mean, eyes, delta)
  {
    assert forall i :: i in eyes + [e] <==> i in eyes;
    if EyeCorrected(v, mean, eyes, delta).Some? {
      assert EyeCorrected(v, mean, eyes + [e], delta).value == EyeCorrected(v, mean, eyes, delta).value;
    }
  }

  // ---------------------------------------------------------------------------
  // The loaded model

  /** The data the update cycle consumes: the mean shape, the flattened basis with
      its channel count E and vertex count V, and the optional eye indices. */
  datatype BlendModel = BlendModel(
    meanShape: seq<Vertex>,
    expBases: seq<seq<real>>,
    expNum: nat,
    verticesNum: nat,
    eyeIndex: Option<seq<nat>>)
  {
    /** E rows of 3V numbers, and a mean shape of V vertices. */
    predicate Valid() {
      |meanShape| == verticesNum && |expBases| == expNum && Rectangular(expBases, 3 * verticesNum)
    }
  }
}
