/** The viewport's combined transformation, kept as the history of the
    operations applied to it. The matrix library is not part of this model;
    what the matrix depends on is captured by `Effective`. */
module Transformation {
  import opened Geometry
  import opened Controllers

  /** The argument of translate(...): a literal vector, or the translation
      controller's trans_value(). */
  datatype Offset = Fixed(v: Vector3) | TransValue(source: Controller)

  datatype Op =
      /** transform.reset(): back to the identity */
    | ResetToIdentity
      /** transform = Transformation::lookat(eye, center, up): the matrix is replaced */
    | AssignLookAt(eye: Vector3, center: Vector3, up: Vector3)
      /** transform.rotate(arcball.quat_value()) */
    | RotateBy(quat: Controller)
    | TranslateBy(offset: Offset)
      /** transform.scale(zoomcontrol.zoom_value()) */
    | ScaleBy(zoom: Controller)
  {
    /** Rotate, translate and scale compose onto the current matrix; the other
        two operations discard it. */
    predicate Incremental() {
      RotateBy? || TranslateBy? || ScaleBy?
    }
  }

  /** The operations the current matrix is composed of: everything since the
      most recent reset (exclusive) or look-at assignment (inclusive). The
      empty sequence is the identity. */
  function Effective(t: seq<Op>): (r: seq<Op>)
    ensures |r| <= |t|
    ensures forall i :: 0 <= i < |r| ==> r[i].Incremental() || (i == 0 && r[i].AssignLookAt?)
  {
    if t == [] then []
    else
      var last := t[|t| - 1];
      if last.ResetToIdentity? then []
      else if last.AssignLookAt? then [last]
      else
        Effective(t[..|t| - 1]) + [last]
  }

  /** The effective operations are the most recent entries of the history. */
  lemma {:induction false} EffectiveIsSuffix(t: seq<Op>)
    ensures Effective(t) == t[|t| - |Effective(t)|..]
  {
    if t != [] && t[|t| - 1].Incremental() {
      var init := t[..|t| - 1];
      EffectiveIsSuffix(init);
      var k := |Effective(init)|;
      assert t[|t| - 1 - k..] == init[|init| - k..] + [t[|t| - 1]];
    }
  }

  /** The transformation is the identity. */
  predicate IsIdentity(t: seq<Op>) {
    Effective(t) == []
  }

  /** A reset makes the transformation the identity, whatever came before. */
  lemma ResetIsIdentity(t: seq<Op>)
    ensures IsIdentity(t + [ResetToIdentity])
  {
    assert (t + [ResetToIdentity])[|t|] == ResetToIdentity;
  }

  /** An incremental operation composes onto the current matrix. */
  lemma EffectiveExtend(t: seq<Op>, op: Op)
    requires op.Incremental()
    ensures Effective(t + [op]) == Effective(t) + [op]
  {
    assert (t + [op])[..|t|] == t;
  }

  /** Incremental operations compose onto the current matrix, in order. */
  lemma {:induction false} EffectiveComposes(t: seq<Op>, ops: seq<Op>)
    requires forall i :: 0 <= i < |ops| ==> ops[i].Incremental()
    ensures Effective(t + ops) == Effective(t) + ops
  {
    if ops != [] {
      var init, last := ops[..|ops| - 1], ops[|ops| - 1];
      forall i | 0 <= i < |init| ensures init[i].Incremental() {
        assert init[i] == ops[i];
      }
      EffectiveComposes(t, init);
      calc {
        Effective(t + ops);
        { assert t + ops == (t + init) + [last]; }
        Effective((t + init) + [last]);
        { EffectiveExtend(t + init, last); }
        Effective(t + init) + [last];
        Effective(t) + init + [last];
        { assert init + [last] == ops; }
        Effective(t) + ops;
      }
    } else {
      assert t + ops == t;
    }
  }

  /** The effective operations already are a complete description of the matrix. */
  lemma {:induction false} EffectiveIdempotent(t: seq<Op>)
    ensures Effective(Effective(t)) == Effective(t)
  {
    var r := Effective(t);
    if r != [] {
      if r[0].AssignLookAt? {
        assert r == [r[0]] + r[1..];
        forall i | 0 <= i < |r[1..]| ensures r[1..][i].Incremental() {
          assert r[1..][i] == r[i + 1];
        }
        EffectiveComposes([r[0]], r[1..]);
        assert Effective([r[0]]) == [r[0]] by { assert [r[0]][..0] == []; }
      } else {
        assert r == [] + r;
        EffectiveComposes([], r);
      }
    }
  }
}
