/** The object-placement helpers of spline.cpp: the null-vector test and the
    frame builder that turns a position, a front vector and an up vector into
    a model matrix. */
module Spline {
  import opened Vectors

  /** A vector is null when each of its components is zero. */
  predicate IsVectorNull(v: Vec3) {
    v.x == 0.0 && v.y == 0.0 && v.z == 0.0
  }

  /** The null test singles out the zero vector, and a vector and its
      negation are null together. */
  lemma NullIsZeroVector(v: Vec3)
    ensures IsVectorNull(v) <==> v == Zero3
    ensures IsVectorNull(Neg(v)) <==> IsVectorNull(v)
  {
  }

  /** Replacement directions used when a computed axis comes out null. */
  const FallbackZ: Vec3 := Vec3(0.0, 0.0, 1.0)
  const FallbackX: Vec3 := Vec3(1.0, 0.0, 0.0)

  /** The local z axis: the reversed normalised front, or +z when that is null. */
  function FrameZ(front: Vec3, normalize: Vec3 -> Vec3): (z: Vec3)
    ensures !IsVectorNull(z)
    ensures z == FallbackZ || z == Neg(normalize(front))
  {
    var z := Neg(normalize(front));
    if IsVectorNull(z) then FallbackZ else z
  }

  /** The local x axis: the normalised cross product of up and z, or +x when
      that is null. */
  function FrameX(up: Vec3, z: Vec3, normalize: Vec3 -> Vec3): (x: Vec3)
    ensures !IsVectorNull(x)
    ensures x == FallbackX || x == normalize(Cross(up, z))
    ensures IsVectorNull(normalize(Cross(up, z))) ==> x == FallbackX
    ensures !IsVectorNull(normalize(Cross(up, z))) ==> x == normalize(Cross(up, z))
  {
    var x := normalize(Cross(up, z));
    if IsVectorNull(x) then FallbackX else x
  }

  /** alignObject: the column-major matrix whose columns are the local x, y and
      z axes as directions and the position as a point. `normalize` stands for
      glm::normalize and is left uninterpreted. */
  function AlignObject(position: Vec3, front: Vec3, up: Vec3, normalize: Vec3 -> Vec3): (m: Mat4)
    ensures m.col3 == Vec4(position.x, position.y, position.z, 1.0)
    ensures m.col0.w == 0.0 && m.col1.w == 0.0 && m.col2.w == 0.0
    ensures Xyz(m.col2) == FrameZ(front, normalize)
    ensures Xyz(m.col0) == FrameX(up, Xyz(m.col2), normalize)
    ensures Xyz(m.col1) == Cross(Xyz(m.col2), Xyz(m.col0))
    ensures Dot(Xyz(m.col1), Xyz(m.col0)) == 0.0 && Dot(Xyz(m.col1), Xyz(m.col2)) == 0.0
    ensures !IsVectorNull(Xyz(m.col0)) && !IsVectorNull(Xyz(m.col2))
  {
    var z := FrameZ(front, normalize);
    var x := FrameX(up, z, normalize);
    var y := Cross(z, x);
    CrossIsOrthogonal(z, x);
    Mat4(Extend(x, 0.0), Extend(y, 0.0), Extend(z, 0.0), Extend(position, 1.0))
  }

  /** The z fallback fires exactly when the normalised front is null, since
      negation keeps a vector null or non-null. */
  lemma FrameZFallback(front: Vec3, normalize: Vec3 -> Vec3)
    ensures IsVectorNull(normalize(front)) ==> FrameZ(front, normalize) == FallbackZ
    ensures !IsVectorNull(normalize(front)) ==> FrameZ(front, normalize) == Neg(normalize(front))
  {
    var n := normalize(front);
    assert IsVectorNull(Neg(n)) <==> IsVectorNull(n);
  }

  /** The placement ignores the position when building the axes: two
      placements of the same heading differ only in their last column. */
  lemma AlignObjectTranslates(p: Vec3, q: Vec3, front: Vec3, up: Vec3, normalize: Vec3 -> Vec3)
    ensures AlignObject(p, front, up, normalize).(col3 := Extend(q, 1.0)) == AlignObject(q, front, up, normalize)
  {
  }
}
