// The coordinate stack both drawers keep (src/drawer.rs and
// src/graphics/drawer.rs): a Vec<Matrix> whose last entry is the current
// transform. These are the values the stack takes; the drawer classes
// update their `stack` field to them.
module MatrixStacks {
  import opened Matrices

  /** new_stack: only the 4x4 identity. */
  function NewStack(): (s: seq<Mat>)
    ensures |s| == 1 && s[0] == IdentMat(4)
  {
    [IdentMat(4)]
  }

  /** Every entry is a well-shaped matrix. */
  predicate StackShaped(s: seq<Mat>) {
    forall k :: 0 <= k < |s| ==> Shaped(s[k])
  }

  /** A 4x4 transform. */
  predicate Is4x4(m: Mat) {
    Shaped(m) && m.nrows == 4 && m.ncols == 4
  }

  /** Every entry of the stack is a 4x4 transform, as every transform builder makes them. */
  predicate Stack4(s: seq<Mat>) {
    forall k :: 0 <= k < |s| ==> Is4x4(s[k])
  }

  /** get_top_matrix: the last entry; an empty stack panics, so it is excluded. */
  function Top(s: seq<Mat>): (m: Mat)
    requires |s| > 0
    ensures m in s
  {
    s[|s| - 1]
  }

  /** push_matrix: a copy of the top goes on top. */
  function Pushed(s: seq<Mat>): (r: seq<Mat>)
    requires |s| > 0
    ensures |r| == |s| + 1 && r[..|s|] == s && Top(r) == Top(s)
  {
    s + [Top(s)]
  }

  /** pop_matrix: Vec::pop, which leaves an empty stack empty rather than panicking. */
  function Popped(s: seq<Mat>): (r: seq<Mat>)
    ensures |s| > 0 ==> |r| == |s| - 1 && r == s[..|s| - 1]
    ensures |s| == 0 ==> r == []
  {
    if |s| == 0 then s else s[..|s| - 1]
  }

  /** Whether `t * top` is defined: the product asserts matching dimensions. */
  predicate CanTransform(s: seq<Mat>, t: Mat) {
    |s| > 0 && Shaped(t) && Shaped(Top(s)) && t.ncols == Top(s).nrows
  }

  /** transform_by(t): the top becomes t * top; the entries below stay. */
  function TransformedTop(s: seq<Mat>, t: Mat): (r: seq<Mat>)
    requires CanTransform(s, t)
  {
    s[..|s| - 1] + [MatMul(t, Top(s))]
  }

  /** A transform changes only the top entry and keeps the stack's height. */
  lemma TransformKeepsBelow(s: seq<Mat>, t: Mat)
    requires CanTransform(s, t)
    ensures |TransformedTop(s, t)| == |s|
    ensures TransformedTop(s, t)[..|s| - 1] == s[..|s| - 1]
    ensures Top(TransformedTop(s, t)) == MatMul(t, Top(s))
  {
    var r := TransformedTop(s, t);
    assert r[..|s| - 1] == s[..|s| - 1];
  }

  /** Shapes are kept: the identity stack is shaped, and push, pop and transform keep it so. */
  lemma StackOperationsKeepShape(s: seq<Mat>, t: Mat)
    requires StackShaped(s)
    ensures StackShaped(NewStack()) && StackShaped(Popped(s))
    ensures |s| > 0 ==> StackShaped(Pushed(s))
    ensures CanTransform(s, t) ==> StackShaped(TransformedTop(s, t))
  {
    if CanTransform(s, t) {
      var r := TransformedTop(s, t);
      forall k | 0 <= k < |r|
        ensures Shaped(r[k])
      {
        if k < |s| - 1 {
          assert r[k] == s[k];
        }
      }
    }
  }

  /**
   * The scoping discipline of push/pop: whatever transforms are applied
   * between a push and the matching pop, the stack comes back as it was.
   */
  lemma PushTransformPop(s: seq<Mat>, t: Mat)
    requires |s| > 0 && CanTransform(Pushed(s), t)
    ensures Popped(TransformedTop(Pushed(s), t)) == s
  {
    var p := Pushed(s);
    assert TransformedTop(p, t)[..|s|] == p[..|s|];
  }

  /** A pop undoes a push. */
  lemma PopUndoesPush(s: seq<Mat>)
    requires |s| > 0
    ensures Popped(Pushed(s)) == s
  {
  }

  /** Popping the only entry leaves nothing on which get_top_matrix could succeed. */
  lemma PopLastEmpties(s: seq<Mat>)
    requires |s| == 1
    ensures Popped(s) == [] && Popped(Popped(s)) == []
  {
  }

  /** Through a fresh stack a 4-column point matrix renders untransformed. */
  lemma FreshStackIsIdentity(m: Mat)
    requires Shaped(m) && m.ncols == 4
    ensures CanTransform(NewStack(), m)
    ensures MatMul(m, Top(NewStack())) == m
  {
    IdentMulRight(m);
  }

  /** The first transform on a fresh stack makes the top the transform itself. */
  lemma FirstTransformIsTransform(t: Mat)
    requires Shaped(t) && t.ncols == 4
    ensures Top(TransformedTop(NewStack(), t)) == t
  {
    IdentMulRight(t);
  }
}
