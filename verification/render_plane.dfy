/**
  Render3DPlaneComponent: a component that draws a coloured plane during 3D
  render passes, placed by the transform of the node that holds it.

  XNA matrices are symbolic here: the identity, the absolute matrix of a
  transform (named by an id), and a product. The render utilities keep the
  list of RenderPlane calls they were given, in order.
*/
module Render3DPlane {
  import opened Wrappers

  newtype byte = x: int | 0 <= x < 256

  datatype Matrix = Identity | Absolute(id: nat) | Product(left: Matrix, right: Matrix)

  /** An XNA Color; the value a Color property holds before it is set is transparent black. */
  datatype Color = Color(r: byte, g: byte, b: byte, a: byte)

  const TransparentBlack := Color(0, 0, 0, 0)

  /** A compiled effect, and the EffectAsset an asset manager returns for a name. */
  datatype Effect = Effect(id: nat)
  datatype EffectAsset = EffectAsset(name: string, effect: Effect)

  /** The asset name the constructor loads its effect from. */
  const DefaultEffectName := "effect.Color"

  /** A render pass, and whether it implements I3DRenderPass. */
  datatype RenderPass = RenderPass(id: nat, is3D: bool)

  /** An IRenderContext, reduced to the pass currently being rendered. */
  datatype RenderContext = RenderContext(currentPass: RenderPass)

  /** What a hierarchy node holds: an IHasTransform with its final absolute matrix, or something else. */
  datatype NodeValue = HasTransform(absoluteMatrix: Matrix) | OtherValue(id: nat)

  /** One I3DRenderUtilities.RenderPlane call: context, effect, world matrix and colour. */
  datatype DrawCall = RenderPlane(context: RenderContext, effect: Effect, matrix: Matrix, color: Color)

  /** A node of the dependency-injection hierarchy. */
  class Node {
    const parent: Node?
    var untypedValue: NodeValue

    constructor (parent: Node?, untypedValue: NodeValue)
      ensures this.parent == parent && this.untypedValue == untypedValue
    {
      this.parent := parent;
      this.untypedValue := untypedValue;
    }
  }

  /** I3DRenderUtilities, reduced to the record of the planes it was asked to draw. */
  class RenderUtilities {
    var issued: seq<DrawCall>

    constructor ()
      ensures issued == []
    {
      issued := [];
    }

    method RenderPlane(context: RenderContext, effect: Effect, matrix: Matrix, color: Color)
      modifies this
      ensures issued == old(issued) + [DrawCall.RenderPlane(context, effect, matrix, color)]
    {
      issued := issued + [DrawCall.RenderPlane(context, effect, matrix, color)];
    }
  }

  /** The value held by a node's parent, if the node has a parent. */
  function ParentValue(node: Node): Option<NodeValue>
    reads if node.parent == null then {} else {node.parent}
  {
    if node.parent == null then None else Some(node.parent.untypedValue)
  }

  /** The identity, multiplied by the parent's absolute matrix when the parent holds a transform. */
  function PlaneTransform(parentValue: Option<NodeValue>): (m: Matrix)
    ensures Factors(m) == if parentValue.Some? && parentValue.value.HasTransform? then Factors(parentValue.value.absoluteMatrix) else []
  {
    if parentValue.Some? && parentValue.value.HasTransform? then Product(Identity, parentValue.value.absoluteMatrix)
    else Identity
  }

  /** The planes one Render call draws: one, in a 3D pass of an enabled component, and none otherwise. */
  function PlaneDraws(enabled: bool, effect: EffectAsset, color: Color, parentValue: Option<NodeValue>, renderContext: RenderContext): (r: seq<DrawCall>)
    ensures |r| <= 1
  {
    if enabled && renderContext.currentPass.is3D then
      [DrawCall.RenderPlane(renderContext, effect.effect, PlaneTransform(parentValue), color)]
    else []
  }

  /** A matrix expression with no identity factor in it. */
  predicate IdentityFree(m: Matrix) {
    match m
    case Identity => false
    case Absolute(_) => true
    case Product(a, b) => IdentityFree(a) && IdentityFree(b)
  }

  /** The absolute matrices a product multiplies, left to right; the identity contributes none. */
  function Factors(m: Matrix): seq<nat> {
    match m
    case Identity => []
    case Absolute(id) => [id]
    case Product(a, b) => Factors(a) + Factors(b)
  }

  /**
    The matrix a product denotes, with the identity factors multiplied out:
    the same absolute matrices in the same order, and no identity left
    unless nothing else is.
  */
  function Evaluate(m: Matrix): (r: Matrix)
    ensures Factors(r) == Factors(m)
    ensures r == Identity || IdentityFree(r)
    ensures IdentityFree(m) ==> r == m
  {
    match m
    case Identity => Identity
    case Absolute(_) => m
    case Product(a, b) =>
      var x := Evaluate(a);
      var y := Evaluate(b);
      assert !IdentityFree(Identity);
      if x == Identity then y else if y == Identity then x else Product(x, y)
  }

  /** The identity is a unit of the product on both sides. */
  lemma IdentityIsUnit(m: Matrix)
    ensures Evaluate(Product(Identity, m)) == Evaluate(m)
    ensures Evaluate(Product(m, Identity)) == Evaluate(m)
  {
  }

  /** The plane sits at the parent's absolute transform when the parent holds one, and at the origin otherwise. */
  lemma PlaneTransformPlacement(parentValue: Option<NodeValue>, m: Matrix)
    ensures parentValue == Some(HasTransform(m)) ==> Evaluate(PlaneTransform(parentValue)) == Evaluate(m)
    ensures (parentValue.None? || parentValue.value.OtherValue?) ==> Evaluate(PlaneTransform(parentValue)) == Identity
  {
  }

  /** A Render call draws at most one plane, and draws one exactly when the component is enabled and the pass is 3D. */
  lemma PlaneDrawsCount(enabled: bool, effect: EffectAsset, color: Color, parentValue: Option<NodeValue>, renderContext: RenderContext)
    ensures |PlaneDraws(enabled, effect, color, parentValue, renderContext)| <= 1
    ensures |PlaneDraws(enabled, effect, color, parentValue, renderContext)| == 1 <==> enabled && renderContext.currentPass.is3D
    ensures forall d :: d in PlaneDraws(enabled, effect, color, parentValue, renderContext) ==>
      d.context == renderContext && d.effect == effect.effect && d.color == color && d.matrix == PlaneTransform(parentValue)
  {
  }

  /** The planes a sequence of Render calls draws, with the component's state unchanged between them. */
  function FrameDraws(enabled: bool, effect: EffectAsset, color: Color, parentValue: Option<NodeValue>, contexts: seq<RenderContext>): seq<DrawCall>
  {
    if contexts == [] then []
    else FrameDraws(enabled, effect, color, parentValue, contexts[..|contexts| - 1])
         + PlaneDraws(enabled, effect, color, parentValue, contexts[|contexts| - 1])
  }

  /** The passes among `contexts` that implement I3DRenderPass. */
  function Passes3D(contexts: seq<RenderContext>): (r: seq<RenderContext>)
    ensures |r| <= |contexts|
  {
    if contexts == [] then []
    else Passes3D(contexts[..|contexts| - 1]) + (if contexts[|contexts| - 1].currentPass.is3D then [contexts[|contexts| - 1]] else [])
  }

  /** An enabled component draws one plane per 3D pass, in pass order; a disabled one draws nothing in any pass. */
  lemma {:induction false} FrameDrawsPer3DPass(enabled: bool, effect: EffectAsset, color: Color, parentValue: Option<NodeValue>, contexts: seq<RenderContext>)
    ensures !enabled ==> FrameDraws(enabled, effect, color, parentValue, contexts) == []
    ensures enabled ==> |FrameDraws(enabled, effect, color, parentValue, contexts)| == |Passes3D(contexts)|
    ensures enabled ==> forall i :: 0 <= i < |Passes3D(contexts)| ==>
      FrameDraws(enabled, effect, color, parentValue, contexts)[i] ==
      DrawCall.RenderPlane(Passes3D(contexts)[i], effect.effect, PlaneTransform(parentValue), color)
  {
    if contexts != [] {
      var n := |contexts| - 1;
      FrameDrawsPer3DPass(enabled, effect, color, parentValue, contexts[..n]);
    }
  }

  class Render3DPlaneComponent {
    const node: Node
    const renderUtilities: RenderUtilities
    var color: Color
    var effect: EffectAsset
    var enabled: bool

    /** Starts enabled, transparent black, with the effect the asset manager holds under "effect.Color". */
    constructor (node: Node, renderUtilities: RenderUtilities, getEffectAsset: string -> EffectAsset)
      ensures this.node == node && this.renderUtilities == renderUtilities
      ensures enabled && color == TransparentBlack && effect == getEffectAsset(DefaultEffectName)
    {
      this.node := node;
      this.renderUtilities := renderUtilities;
      color := TransparentBlack;
      enabled := true;
      effect := getEffectAsset(DefaultEffectName);
    }

    /** Draws the plane when enabled and in a 3D pass; changes nothing but the render utilities' record. */
    method Render(renderContext: RenderContext)
      modifies renderUtilities
      ensures renderUtilities.issued == old(renderUtilities.issued) + PlaneDraws(enabled, effect, color, ParentValue(node), renderContext)
    {
      if !enabled {
        return;
      }
      if renderContext.currentPass.is3D {
        var matrix := Identity;
        var parentValue := if node.parent == null then None else Some(node.parent.untypedValue);
        if parentValue.Some? && parentValue.value.HasTransform? {
          matrix := Product(matrix, parentValue.value.absoluteMatrix);
        }
        renderUtilities.RenderPlane(renderContext, effect.effect, matrix, color);
      }
    }
  }
}
