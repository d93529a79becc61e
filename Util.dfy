/** fast_mat_inv of src/util.py: the closed-form inverse of a rigid transform. */
module Util {
  import opened Matrix

  /** [[R, t], [0, 1]] becomes [[R^T, -R^T t], [0, 1]]; the input's bottom row is ignored. */
  function FastMatInv(m: Mat4): (r: Mat4)
    ensures forall i, j | 0 <= i < 3 && 0 <= j < 3 :: r[i][j] == m[j][i]
    ensures Homogeneous(r)
  {
    var rt := Transpose3(Rotation(m));
    Rigid(rt, Neg(Apply3(rt, Translation(m))))
  }

  /** The entries of fast_mat_inv(M), one by one. */
  lemma InvEntries(m: Mat4)
    ensures var inv := FastMatInv(m);
      && (forall i, j | 0 <= i < 3 && 0 <= j < 3 :: inv[i][j] == m[j][i])
      && (forall i | 0 <= i < 3 :: inv[i][3] == -(m[0][i] * m[0][3] + m[1][i] * m[1][3] + m[2][i] * m[2][3]))
      && inv[3] == [0.0, 0.0, 0.0, 1.0]
  {
    var inv := FastMatInv(m);
    var rot := Rotation(m);
    assert Rotation(inv) == Transpose3(rot);
    forall i, j | 0 <= i < 3 && 0 <= j < 3 ensures inv[i][j] == m[j][i] {
      assert inv[i][j] == Rotation(inv)[i][j];
    }
  }

  /** Entry (i, j) of fast_mat_inv(M) @ M. */
  lemma LeftEntry(m: Mat4, i: nat, j: nat)
    requires i < 4 && j < 4
    requires Orthonormal(Rotation(m)) && Homogeneous(m)
    ensures Dot4(FastMatInv(m), m, i, j) == Delta(i, j)
  {
    if i < 3 && j < 3 {
      assert ColDot(Rotation(m), i, j) == Delta(i, j);
      LeftRotationEntry(m, i, j);
    } else if i < 3 {
      LeftTranslationEntry(m, i);
    } else {
      LeftBottomEntry(m, j);
    }
  }

  /** The translation column of fast_mat_inv(M) @ M: R^T t - R^T t. */
  lemma LeftTranslationEntry(m: Mat4, i: nat)
    requires i < 3 && Homogeneous(m)
    ensures Dot4(FastMatInv(m), m, i, 3) == 0.0
  {
    var inv := FastMatInv(m);
    InvEntries(m);
    var x0, x1, x2 := m[0][i], m[1][i], m[2][i];
    var y0, y1, y2 := m[0][3], m[1][3], m[2][3];
    assert m[3][3] == 1.0;
    Dot4Of(inv, m, i, 3, x0, x1, x2, -(x0 * y0 + x1 * y1 + x2 * y2), y0, y1, y2, 1.0);
    CancelSum(x0 * y0 + x1 * y1 + x2 * y2);
  }

  lemma CancelSum(s: real)
    ensures s + -s * 1.0 == 0.0
  {
  }

  /** The bottom row of fast_mat_inv(M) @ M is M's own bottom row. */
  lemma LeftBottomEntry(m: Mat4, j: nat)
    requires j < 4 && Homogeneous(m)
    ensures Dot4(FastMatInv(m), m, 3, j) == Delta(3, j)
  {
    var inv := FastMatInv(m);
    InvEntries(m);
    assert inv[3][0] == 0.0 && inv[3][1] == 0.0 && inv[3][2] == 0.0 && inv[3][3] == 1.0;
    Dot4Of(inv, m, 3, j, 0.0, 0.0, 0.0, 1.0, m[0][j], m[1][j], m[2][j], m[3][j]);
    assert m[3][j] == Delta(3, j);
  }

  lemma LeftRotationEntry(m: Mat4, i: nat, j: nat)
    requires i < 3 && j < 3
    requires ColDot(Rotation(m), i, j) == Delta(i, j) && Homogeneous(m)
    ensures Dot4(FastMatInv(m), m, i, j) == Delta(i, j)
  {
    var c0, c1, c2 := m[0][i], m[1][i], m[2][i];
    var d0, d1, d2 := m[0][j], m[1][j], m[2][j];
    ColDotOf(m, i, j);
    var inv := FastMatInv(m);
    Dot4Of(inv, m, i, j, c0, c1, c2, inv[i][3], d0, d1, d2, 0.0);
    DropZeroTerm(c0 * d0 + c1 * d1 + c2 * d2, inv[i][3]);
  }

  lemma ColDotOf(m: Mat4, i: nat, j: nat)
    requires i < 3 && j < 3
    ensures ColDot(Rotation(m), i, j) == m[0][i] * m[0][j] + m[1][i] * m[1][j] + m[2][i] * m[2][j]
  {
  }

  lemma DropZeroTerm(s: real, x: real)
    ensures s + x * 0.0 == s
  {
  }

  /** For a rigid input, fast_mat_inv(M) @ M is the identity. */
  lemma {:induction false} FastMatInvLeftInverse(m: Mat4)
    requires Orthonormal(Rotation(m)) && Homogeneous(m)
    ensures Mul(FastMatInv(m), m) == Identity()
  {
    var p := Mul(FastMatInv(m), m);
    forall i, j | 0 <= i < 4 && 0 <= j < 4
      ensures p[i][j] == Identity()[i][j]
    {
      LeftEntry(m, i, j);
    }
    Ext(p, Identity());
  }

  /** Entry (i, j) of M @ fast_mat_inv(M). */
  lemma RightEntry(m: Mat4, i: nat, j: nat)
    requires i < 4 && j < 4
    requires Orthonormal(Rotation(m)) && Homogeneous(m)
    ensures Dot4(m, FastMatInv(m), i, j) == Delta(i, j)
  {
    if i < 3 && j < 3 {
      assert RowDot(Rotation(m), i, j) == Delta(i, j);
      RightRotationEntry(m, i, j);
    } else if i < 3 {
      RightTranslationEntry(m, i);
    } else {
      var inv := FastMatInv(m);
      assert m[3] == [0.0, 0.0, 0.0, 1.0];
      assert inv[3] == [0.0, 0.0, 0.0, 1.0];
      assert Dot4(m, inv, i, j) == inv[3][j];
    }
  }

  lemma RightRotationEntry(m: Mat4, i: nat, j: nat)
    requires i < 3 && j < 3
    requires RowDot(Rotation(m), i, j) == Delta(i, j) && Homogeneous(m)
    ensures Dot4(m, FastMatInv(m), i, j) == Delta(i, j)
  {
    var c0, c1, c2 := m[i][0], m[i][1], m[i][2];
    var d0, d1, d2 := m[j][0], m[j][1], m[j][2];
    RowDotOf(m, i, j);
    var inv := FastMatInv(m);
    assert inv[3] == [0.0, 0.0, 0.0, 1.0];
    Dot4Of(m, inv, i, j, c0, c1, c2, m[i][3], d0, d1, d2, 0.0);
    DropZeroTerm(c0 * d0 + c1 * d1 + c2 * d2, m[i][3]);
  }

  lemma RowDotOf(m: Mat4, i: nat, j: nat)
    requires i < 3 && j < 3
    ensures RowDot(Rotation(m), i, j) == m[i][0] * m[j][0] + m[i][1] * m[j][1] + m[i][2] * m[j][2]
  {
  }

  /** RowDotOf for the three rows at once. */
  lemma RowDotsOf(m: Mat4, i: nat)
    requires i < 3
    ensures RowDot(Rotation(m), i, 0) == m[i][0] * m[0][0] + m[i][1] * m[0][1] + m[i][2] * m[0][2]
    ensures RowDot(Rotation(m), i, 1) == m[i][0] * m[1][0] + m[i][1] * m[1][1] + m[i][2] * m[1][2]
    ensures RowDot(Rotation(m), i, 2) == m[i][0] * m[2][0] + m[i][1] * m[2][1] + m[i][2] * m[2][2]
  {
  }

  lemma RightTranslationEntry(m: Mat4, i: nat)
    requires i < 3
    requires Orthonormal(Rotation(m)) && Homogeneous(m)
    ensures Dot4(m, FastMatInv(m), i, 3) == 0.0
  {
    var a0 := m[0][0] * m[0][3] + m[1][0] * m[1][3] + m[2][0] * m[2][3];
    var a1 := m[0][1] * m[0][3] + m[1][1] * m[1][3] + m[2][1] * m[2][3];
    var a2 := m[0][2] * m[0][3] + m[1][2] * m[1][3] + m[2][2] * m[2][3];
    RowColumnTranslation(m, i, a0, a1, a2);
    InvTranslation(m, a0, a1, a2);
    Dot4Of(m, FastMatInv(m), i, 3, m[i][0], m[i][1], m[i][2], m[i][3], -a0, -a1, -a2, 1.0);
    CancelTranslation(m[i][0], m[i][1], m[i][2], a0, a1, a2, m[i][3]);
  }

  /** The translation column of fast_mat_inv(M) is -R^T t, component by component. */
  lemma InvTranslation(m: Mat4, a0: real, a1: real, a2: real)
    requires a0 == m[0][0] * m[0][3] + m[1][0] * m[1][3] + m[2][0] * m[2][3]
    requires a1 == m[0][1] * m[0][3] + m[1][1] * m[1][3] + m[2][1] * m[2][3]
    requires a2 == m[0][2] * m[0][3] + m[1][2] * m[1][3] + m[2][2] * m[2][3]
    ensures var inv := FastMatInv(m); inv[0][3] == -a0 && inv[1][3] == -a1 && inv[2][3] == -a2 && inv[3][3] == 1.0
  {
    InvEntries(m);
  }

  /** For a rigid input, M @ fast_mat_inv(M) is the identity as well. */
  lemma {:induction false} FastMatInvRightInverse(m: Mat4)
    requires Orthonormal(Rotation(m)) && Homogeneous(m)
    ensures Mul(m, FastMatInv(m)) == Identity()
  {
    var p := Mul(m, FastMatInv(m));
    forall i, j | 0 <= i < 4 && 0 <= j < 4
      ensures p[i][j] == Identity()[i][j]
    {
      RightEntry(m, i, j);
    }
    Ext(p, Identity());
  }

  /** Row i of R times R^T t is the i-th component of t, given R R^T = I. */
  lemma RowColumnTranslation(m: Mat4, i: nat, a0: real, a1: real, a2: real)
    requires i < 3 && Orthonormal(Rotation(m))
    requires a0 == m[0][0] * m[0][3] + m[1][0] * m[1][3] + m[2][0] * m[2][3]
    requires a1 == m[0][1] * m[0][3] + m[1][1] * m[1][3] + m[2][1] * m[2][3]
    requires a2 == m[0][2] * m[0][3] + m[1][2] * m[1][3] + m[2][2] * m[2][3]
    ensures m[i][0] * a0 + m[i][1] * a1 + m[i][2] * a2 == m[i][3]
  {
    assert RowDot(Rotation(m), i, 0) == Delta(i, 0);
    assert RowDot(Rotation(m), i, 1) == Delta(i, 1);
    assert RowDot(Rotation(m), i, 2) == Delta(i, 2);
    RowDotsOf(m, i);
    ExpandRow(m, i, a0, a1, a2);
    SelectRow(m, i);
  }

  /** Row i times R^T t, regrouped by the components of t. */
  lemma ExpandRow(m: Mat4, i: nat, a0: real, a1: real, a2: real)
    requires i < 3
    requires a0 == m[0][0] * m[0][3] + m[1][0] * m[1][3] + m[2][0] * m[2][3]
    requires a1 == m[0][1] * m[0][3] + m[1][1] * m[1][3] + m[2][1] * m[2][3]
    requires a2 == m[0][2] * m[0][3] + m[1][2] * m[1][3] + m[2][2] * m[2][3]
    ensures m[i][0] * a0 + m[i][1] * a1 + m[i][2] * a2 ==
      (m[i][0] * m[0][0] + m[i][1] * m[0][1] + m[i][2] * m[0][2]) * m[0][3] +
      (m[i][0] * m[1][0] + m[i][1] * m[1][1] + m[i][2] * m[1][2]) * m[1][3] +
      (m[i][0] * m[2][0] + m[i][1] * m[2][1] + m[i][2] * m[2][2]) * m[2][3]
  {
  }

  /** With the row dot products of the rotation block equal to Delta, the
      regrouped sum picks out t_i. */
  lemma SelectRow(m: Mat4, i: nat)
    requires i < 3
    requires m[i][0] * m[0][0] + m[i][1] * m[0][1] + m[i][2] * m[0][2] == Delta(i, 0)
    requires m[i][0] * m[1][0] + m[i][1] * m[1][1] + m[i][2] * m[1][2] == Delta(i, 1)
    requires m[i][0] * m[2][0] + m[i][1] * m[2][1] + m[i][2] * m[2][2] == Delta(i, 2)
    ensures (m[i][0] * m[0][0] + m[i][1] * m[0][1] + m[i][2] * m[0][2]) * m[0][3] +
      (m[i][0] * m[1][0] + m[i][1] * m[1][1] + m[i][2] * m[1][2]) * m[1][3] +
      (m[i][0] * m[2][0] + m[i][1] * m[2][1] + m[i][2] * m[2][2]) * m[2][3] == m[i][3]
  {
  }

  lemma CancelTranslation(x0: real, x1: real, x2: real, a0: real, a1: real, a2: real, ti: real)
    requires x0 * a0 + x1 * a1 + x2 * a2 == ti
    ensures x0 * -a0 + x1 * -a1 + x2 * -a2 + ti * 1.0 == 0.0
  {
  }

  /** The translation column survives a double inversion. */
  lemma InvolutionTranslation(m: Mat4, i: nat)
    requires i < 3 && Orthonormal(Rotation(m))
    ensures FastMatInv(FastMatInv(m))[i][3] == m[i][3]
  {
    var a0 := m[0][0] * m[0][3] + m[1][0] * m[1][3] + m[2][0] * m[2][3];
    var a1 := m[0][1] * m[0][3] + m[1][1] * m[1][3] + m[2][1] * m[2][3];
    var a2 := m[0][2] * m[0][3] + m[1][2] * m[1][3] + m[2][2] * m[2][3];
    var s := m[i][0] * a0 + m[i][1] * a1 + m[i][2] * a2;
    assert FastMatInv(FastMatInv(m))[i][3] == s by {
      DoubleInvTranslation(m, i, m[i][0], m[i][1], m[i][2], a0, a1, a2);
    }
    assert s == m[i][3] by {
      RowColumnTranslation(m, i, a0, a1, a2);
    }
  }

  lemma DoubleInvTranslation(m: Mat4, i: nat, x0: real, x1: real, x2: real, a0: real, a1: real, a2: real)
    requires i < 3
    requires x0 == m[i][0] && x1 == m[i][1] && x2 == m[i][2]
    requires a0 == m[0][0] * m[0][3] + m[1][0] * m[1][3] + m[2][0] * m[2][3]
    requires a1 == m[0][1] * m[0][3] + m[1][1] * m[1][3] + m[2][1] * m[2][3]
    requires a2 == m[0][2] * m[0][3] + m[1][2] * m[1][3] + m[2][2] * m[2][3]
    ensures FastMatInv(FastMatInv(m))[i][3] == x0 * a0 + x1 * a1 + x2 * a2
  {
    var inv := FastMatInv(m);
    InvTranslation(m, a0, a1, a2);
    assert inv[0][i] == x0 && inv[1][i] == x1 && inv[2][i] == x2;
    InvTranslationOf(inv, i, x0, x1, x2, -a0, -a1, -a2);
    NegNeg3(x0, x1, x2, -a0, -a1, -a2, x0, x1, x2, a0, a1, a2);
  }

  /** Entry (i, 3) of fast_mat_inv(M), from column i and the translation of M
      named as scalars. */
  lemma InvTranslationOf(m: Mat4, i: nat, p0: real, p1: real, p2: real, q0: real, q1: real, q2: real)
    requires i < 3
    requires m[0][i] == p0 && m[1][i] == p1 && m[2][i] == p2
    requires m[0][3] == q0 && m[1][3] == q1 && m[2][3] == q2
    ensures FastMatInv(m)[i][3] == -(p0 * q0 + p1 * q1 + p2 * q2)
  {
    InvEntries(m);
  }

  lemma NegNeg3(p0: real, p1: real, p2: real, q0: real, q1: real, q2: real,
                x0: real, x1: real, x2: real, y0: real, y1: real, y2: real)
    requires p0 == x0 && p1 == x1 && p2 == x2 && q0 == -y0 && q1 == -y1 && q2 == -y2
    ensures -(p0 * q0 + p1 * q1 + p2 * q2) == x0 * y0 + x1 * y1 + x2 * y2
  {
  }

  /** Applying fast_mat_inv twice gives back any rigid transform. */
  lemma {:induction false} FastMatInvInvolution(m: Mat4)
    requires Orthonormal(Rotation(m)) && Homogeneous(m)
    ensures FastMatInv(FastMatInv(m)) == m
  {
    var inv := FastMatInv(m);
    var back := FastMatInv(inv);
    forall i, j | 0 <= i < 4 && 0 <= j < 4
      ensures back[i][j] == m[i][j]
    {
      if i < 3 && j < 3 {
        assert back[i][j] == inv[j][i] == m[i][j];
      } else if i < 3 {
        InvolutionTranslation(m, i);
      } else {
        assert back[3] == m[3];
      }
    }
    Ext(back, m);
  }
}
