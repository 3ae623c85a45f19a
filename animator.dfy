/** The face animator's update cycle: decode the latest frame, pick the three
    driving coefficients, blend, correct the eyes, and fall back to the mean
    shape on any failure along the way. */
module Animator {
  import opened Wrappers
  import opened Frame
  import opened BlendShape

  /** The depth offset applied to eye vertices when the caller gives none. */
  const DefaultEyeDelta: real := 0.01

  // ---------------------------------------------------------------------------
  // The cycle as a function of the model and the latest frame

  /** What one update cycle returns: Some(shape) to hand to the renderer, or None
      when the cycle succeeds without an eye index (the method then returns
      nothing). Every failure gives the mean shape. */
  function Cycle(m: BlendModel, rawData: Option<string>, toFloat: string -> Option<real>, eyeDelta: real): (r: Option<seq<Vertex>>)
    requires m.Valid()
    ensures r.Some? ==> |r.value| == m.verticesNum
  {
    match Decode(rawData, toFloat)
    case None => Some(m.meanShape)
    case Some(raw) =>
      match Coefficients(raw, m.expNum)
      case None => Some(m.meanShape)
      case Some(coeff) =>
        var v := Blend(coeff, m.expBases, m.meanShape);
        match m.eyeIndex
        case None => None
        case Some(eyes) =>
          match EyeCorrected(v, m.meanShape, eyes, eyeDelta)
          case None => Some(m.meanShape)
          case Some(w) => Some(w)
  }

  /** No frame yet, or a token that does not convert: the mean shape. */
  lemma UndecodableFrameFallsBack(m: BlendModel, rawData: Option<string>, toFloat: string -> Option<real>, eyeDelta: real)
    requires m.Valid()
    requires rawData.None? ||
             exists i :: 0 <= i < |Split(rawData.value, Delimiter)| && toFloat(Split(rawData.value, Delimiter)[i]).None?
    ensures Cycle(m, rawData, toFloat, eyeDelta) == Some(m.meanShape)
  {
  }

  /** A frame of fewer than 26 values (fewer than 25 commas), or a model of fewer
      than three channels: the mean shape. */
  lemma ShortFrameFallsBack(m: BlendModel, s: string, toFloat: string -> Option<real>, eyeDelta: real)
    requires m.Valid()
    requires Occurrences(s, Delimiter) < 25 || m.expNum < 3
    ensures Cycle(m, Some(s), toFloat, eyeDelta) == Some(m.meanShape)
  {
  }

  /** An eye index outside the mesh: the mean shape, whatever the coefficients. */
  lemma EyeIndexOutOfRangeFallsBack(m: BlendModel, rawData: Option<string>, toFloat: string -> Option<real>, eyeDelta: real, e: nat)
    requires m.Valid()
    requires m.eyeIndex.Some? && e in m.eyeIndex.value && e >= m.verticesNum
    ensures Cycle(m, rawData, toFloat, eyeDelta) == Some(m.meanShape)
  {
  }

  /** The cycle returns nothing exactly when it succeeds without an eye index. */
  lemma NothingReturnedIff(m: BlendModel, rawData: Option<string>, toFloat: string -> Option<real>, eyeDelta: real)
    requires m.Valid()
    ensures Cycle(m, rawData, toFloat, eyeDelta).None?
        <==> m.eyeIndex.None? && Decode(rawData, toFloat).Some? && |Decode(rawData, toFloat).value| >= 26 && m.expNum >= 3
  {
  }

  /** A successful cycle with eye indices: V vertices; every eye vertex is its
      mean-shape position lowered by eyeDelta, whatever the coefficients; every
      other vertex is the blended vertex for the frame's coefficient vector
      (BlendOfSelection gives that vertex in terms of raw[25], raw[13], raw[12]). */
  lemma CycleSuccess(m: BlendModel, rawData: Option<string>, toFloat: string -> Option<real>, eyeDelta: real)
    requires m.Valid() && m.expNum >= 3
    requires Decode(rawData, toFloat).Some? && |Decode(rawData, toFloat).value| >= 26
    requires m.eyeIndex.Some? && forall e :: e in m.eyeIndex.value ==> e < m.verticesNum
    ensures Coefficients(Decode(rawData, toFloat).value, m.expNum).Some?
    ensures Cycle(m, rawData, toFloat, eyeDelta).Some?
    ensures |Cycle(m, rawData, toFloat, eyeDelta).value| == m.verticesNum
    ensures forall i :: 0 <= i < m.verticesNum && i in m.eyeIndex.value ==>
              Cycle(m, rawData, toFloat, eyeDelta).value[i]
                == Vertex(m.meanShape[i].x, m.meanShape[i].y, m.meanShape[i].z - eyeDelta)
    ensures forall i :: 0 <= i < m.verticesNum && i !in m.eyeIndex.value ==>
              Cycle(m, rawData, toFloat, eyeDelta).value[i]
                == Blend(Coefficients(Decode(rawData, toFloat).value, m.expNum).value, m.expBases, m.meanShape)[i]
  {
  }

  /** With the default eye_delta, the render loop's cycle puts every eye vertex
      strictly below its mean-shape position, in depth only. */
  lemma DefaultDeltaLowersEyes(m: BlendModel, rawData: Option<string>, toFloat: string -> Option<real>)
    requires m.Valid() && m.expNum >= 3
    requires Decode(rawData, toFloat).Some? && |Decode(rawData, toFloat).value| >= 26
    requires m.eyeIndex.Some? && forall e :: e in m.eyeIndex.value ==> e < m.verticesNum
    ensures Cycle(m, rawData, toFloat, DefaultEyeDelta).Some?
    ensures forall i :: 0 <= i < m.verticesNum && i in m.eyeIndex.value ==>
              var w := Cycle(m, rawData, toFloat, DefaultEyeDelta).value[i];
              w.x == m.meanShape[i].x && w.y == m.meanShape[i].y && w.z < m.meanShape[i].z
  {
    CycleSuccess(m, rawData, toFloat, DefaultEyeDelta);
  }

  /** When the three picked values are zero, every vertex that is not an eye
      vertex is exactly its mean-shape position. */
  lemma ZeroPicksKeepMean(m: BlendModel, rawData: Option<string>, toFloat: string -> Option<real>, eyeDelta: real)
    requires m.Valid() && m.expNum >= 3
    requires Decode(rawData, toFloat).Some? && |Decode(rawData, toFloat).value| >= 26
    requires Decode(rawData, toFloat).value[25] == 0.0
    requires Decode(rawData, toFloat).value[13] == 0.0
    requires Decode(rawData, toFloat).value[12] == 0.0
    requires m.eyeIndex.Some? && forall e :: e in m.eyeIndex.value ==> e < m.verticesNum
    ensures Cycle(m, rawData, toFloat, eyeDelta).Some?
    ensures forall i :: 0 <= i < m.verticesNum && i !in m.eyeIndex.value ==>
              Cycle(m, rawData, toFloat, eyeDelta).value[i] == m.meanShape[i]
  {
    ZeroSelectionKeepsMean(Decode(rawData, toFloat).value, m.expBases, m.meanShape);
  }

  // ---------------------------------------------------------------------------
  // The cycle with the return statement where it was evidently meant to be

  /** The cycle that always hands a shape over: as Cycle, except that a success
      without eye indices returns the blended shape instead of nothing. */
  function IntendedCycle(m: BlendModel, rawData: Option<string>, toFloat: string -> Option<real>, eyeDelta: real): (r: seq<Vertex>)
    requires m.Valid()
    ensures |r| == m.verticesNum
  {
    match Decode(rawData, toFloat)
    case None => m.meanShape
    case Some(raw) =>
      match Coefficients(raw, m.expNum)
      case None => m.meanShape
      case Some(coeff) =>
        var v := Blend(coeff, m.expBases, m.meanShape);
        match m.eyeIndex
        case None => v
        case Some(eyes) =>
          match EyeCorrected(v, m.meanShape, eyes, eyeDelta)
          case None => m.meanShape
          case Some(w) => w
  }

  /** The two cycles differ only where the written one returns nothing; there the
      intended one returns the blended shape. */
  lemma IntendedCycleAgrees(m: BlendModel, rawData: Option<string>, toFloat: string -> Option<real>, eyeDelta: real)
    requires m.Valid()
    ensures Cycle(m, rawData, toFloat, eyeDelta).Some? ==>
              IntendedCycle(m, rawData, toFloat, eyeDelta) == Cycle(m, rawData, toFloat, eyeDelta).value
    ensures Cycle(m, rawData, toFloat, eyeDelta).None? ==>
              Coefficients(Decode(rawData, toFloat).value, m.expNum).Some? &&
              IntendedCycle(m, rawData, toFloat, eyeDelta)
                == Blend(Coefficients(Decode(rawData, toFloat).value, m.expNum).value, m.expBases, m.meanShape)
  {
  }

  /** One vertex, three unit channels, no eye indices. */
  function UnitModel(): (m: BlendModel)
    ensures m.Valid()
  {
    BlendModel([Origin], [[1.0, 0.0, 0.0], [0.0, 1.0, 0.0], [0.0, 0.0, 1.0]], 3, 1, None)
  }

  /** 26 values, 80 at positions 12, 13 and 25 and 0 elsewhere. */
  function UnitFrame(): (raw: seq<real>)
    ensures |raw| == 26
  {
    seq(26, k => if k == 12 || k == 13 || k == 25 then 80.0 else 0.0)
  }

  /** A frame that drives each unit channel with coefficient 1: the intended
      cycle moves the single vertex to (1, 1, 1), the written one returns nothing. */
  lemma UnitFrameWithoutEyeIndex(rawData: Option<string>, toFloat: string -> Option<real>, eyeDelta: real)
    requires Decode(rawData, toFloat) == Some(UnitFrame())
    ensures Cycle(UnitModel(), rawData, toFloat, eyeDelta) == None
    ensures IntendedCycle(UnitModel(), rawData, toFloat, eyeDelta) == [Vertex(1.0, 1.0, 1.0)]
  {
    var m := UnitModel();
    var coeff := Coefficients(UnitFrame(), 3).value;
    assert coeff == [1.0, 1.0, 1.0];
    var r := IntendedCycle(m, rawData, toFloat, eyeDelta);
    BlendAt(coeff, m.expBases, m.meanShape, 0, 0);
    BlendAt(coeff, m.expBases, m.meanShape, 0, 1);
    BlendAt(coeff, m.expBases, m.meanShape, 0, 2);
    assert r[0] == Vertex(1.0, 1.0, 1.0);
  }

  // ---------------------------------------------------------------------------
  // The imperative steps

  /** np.zeros(exp_num) followed by the three indexed stores; None where an
      index is out of range on either side. */
  method SelectCoefficients(raw: seq<real>, expNum: nat) returns (coeff: Option<seq<real>>)
    ensures coeff == Coefficients(raw, expNum)
  {
    var c := new real[expNum](_ => 0.0);
    if 25 >= |raw| || 0 >= c.Length {
      return None;
    }
    c[0] := raw[25] / 80.0;
    if 1 >= c.Length {
      return None;
    }
    c[1] := raw[13] / 80.0;
    if 2 >= c.Length {
      return None;
    }
    c[2] := raw[12] / 80.0;
    assert c[..] == Zeros(expNum)[0 := raw[25] / 80.0][1 := raw[13] / 80.0][2 := raw[12] / 80.0];
    return Some(c[..]);
  }

  /** The loop over the eye indices: each listed vertex is reset to the mean and
      lowered by delta. An index outside the array stops the loop with false. */
  method CorrectEyes(v: array<Vertex>, mean: seq<Vertex>, eyes: seq<nat>, delta: real) returns (ok: bool)
    requires v.Length == |mean|
    modifies v
    ensures ok <==> forall e :: e in eyes ==> e < v.Length
    ensures ok ==> EyeCorrected(old(v[..]), mean, eyes, delta) == Some(v[..])
  {
    ghost var blended := v[..];
    for n := 0 to |eyes|
      invariant forall e :: e in eyes[..n] ==> e < v.Length
      invariant forall i :: 0 <= i < v.Length ==>
                  v[i] == if i in eyes[..n] then Lowered(mean[i], delta) else blended[i]
    {
      var idx := eyes[n];
      if idx >= v.Length {
        assert idx in eyes;
        return false;
      }
      assert eyes[..n + 1] == eyes[..n] + [idx];
      v[idx] := mean[idx];
      v[idx] := v[idx].(z := v[idx].z - delta);
    }
    assert eyes[..|eyes|] == eyes;
    assert EyeCorrected(blended, mean, eyes, delta).value == v[..];
    return true;
  }

  // ---------------------------------------------------------------------------
  // The animator object

  /** The state the update cycle reads and writes. The mesh data is fixed when the
      object is built; `rawData` is the latest frame, stored by the receiving
      thread (None until the first frame arrives), and `coeffRaw` the last frame
      that decoded. */
  class FaceAnimator {
    const meanShape: seq<Vertex>
    const expBases: seq<seq<real>>
    const expNum: nat
    const verticesNum: nat
    const eyeIndex: Option<seq<nat>>
    var rawData: Option<string>
    var coeffRaw: Option<seq<real>>

    function Model(): BlendModel {
      BlendModel(meanShape, expBases, expNum, verticesNum, eyeIndex)
    }

    predicate Valid() {
      Model().Valid()
    }

    /** The loaded (E, V, 3) basis is stored flattened to (E, 3V). */
    constructor (mean: seq<Vertex>, bases: seq<seq<Vertex>>, vertices: nat, eyes: Option<seq<nat>>)
      requires |mean| == vertices
      requires |bases| > 0
      requires forall k :: 0 <= k < |bases| ==> |bases[k]| == vertices
      ensures Valid()
      ensures meanShape == mean && expBases == Flatten(bases) && eyeIndex == eyes
      ensures expNum == |bases| && verticesNum == vertices
      ensures rawData == None && coeffRaw == None
    {
      meanShape := mean;
      expBases := Flatten(bases);
      expNum, verticesNum := |bases|, vertices;
      eyeIndex := eyes;
      rawData, coeffRaw := None, None;
    }

    /** One update cycle. */
    method UpdateVertices(eyeDelta: real, toFloat: string -> Option<real>) returns (r: Option<seq<Vertex>>)
      requires Valid()
      modifies this`coeffRaw
      ensures r == Cycle(Model(), rawData, toFloat, eyeDelta)
      ensures coeffRaw == if Decode(rawData, toFloat).Some? then Decode(rawData, toFloat) else old(coeffRaw)
    {
      if rawData.None? {
        return Some(meanShape);
      }
      var parsed := ParseAll(Split(rawData.value, Delimiter), toFloat);
      if parsed.None? {
        return Some(meanShape);
      }
      coeffRaw := parsed;
      var coeff := SelectCoefficients(parsed.value, expNum);
      if coeff.None? {
        return Some(meanShape);
      }
      var blended := Blend(coeff.value, expBases, meanShape);
      var v := new Vertex[|blended|](i requires 0 <= i < |blended| => blended[i]);
      assert v[..] == blended;
      if eyeIndex.None? {
        return None;
      }
      var ok := CorrectEyes(v, meanShape, eyeIndex.value, eyeDelta);
      if !ok {
        return Some(meanShape);
      }
      return Some(v[..]);
    }
  }
}
