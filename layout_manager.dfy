/**
 * The scene-graph builder (`LayoutManager`): a depth-first build of the element tree from the
 * layout config, through a two-entry factory registry, attaching children in config order and
 * announcing each attached child on the `"<label>_added"` channel.
 */
module SceneGraph {
  import opened Common

  /** One node of `layoutConfig.classes[k]`: its factory name, label and children. */
  datatype ConfigNode = ConfigNode(name: string, elementLabel: string, children: seq<ConfigNode>)

  /** The element classes the registry can construct. */
  datatype ElementKind = RootElement | TetraSpriteElement

  /** A constructed element with the children attached to it, in attachment order. */
  datatype Element = Element(kind: ElementKind, elementLabel: string, children: seq<Element>)

  datatype BuildError = UnknownElementType(name: string)

  /**
   * What the build does that others can observe, in order: `addChild` of a child to a parent
   * (by labels), and `globalEE.emit(label + "_added")` (by the label).
   */
  datatype Action = Attached(parent: string, child: string) | Emitted(elementLabel: string)

  /** `factoryMap`: only `Root` and `TetraSprite` are registered. */
  const FactoryMap: map<string, ElementKind> :=
    map["Root" := RootElement, "TetraSprite" := TetraSpriteElement]

  /**
   * `DefaultElementFactory.create`: a new element of the registered class, with no children yet.
   * For a registered leaf of the config, the created element already has the config's shape.
   */
  function Create(kind: ElementKind, c: ConfigNode): (e: Element)
    ensures c.name in FactoryMap && kind == FactoryMap[c.name] && c.children == [] ==> Mirrors(e, c)
  {
    Element(kind, c.elementLabel, [])
  }

  /** A finished build, or the error thrown; either way the actions that happened before it ended. */
  datatype BuildOutcome =
    | Built(element: Element, trace: seq<Action>)
    | Aborted(error: BuildError, trace: seq<Action>)

  /** `createElement`: look the factory up, create the element, then build and attach each child. */
  function Build(c: ConfigNode): BuildOutcome
    decreases c, 1
  {
    if c.name !in FactoryMap then Aborted(UnknownElementType(c.name), [])
    else BuildChildren(c, Create(FactoryMap[c.name], c), 0)
  }

  /**
   * The `children.map` loop from child `i` on: build the child, attach it to `parent`, emit its
   * `_added` event, continue with the next child. A throw anywhere stops the loop.
   */
  function BuildChildren(c: ConfigNode, parent: Element, i: nat): BuildOutcome
    requires i <= |c.children|
    decreases c, 0, |c.children| - i
  {
    if i == |c.children| then Built(parent, [])
    else
      match Build(c.children[i])
      case Aborted(e, t) => Aborted(e, t)
      case Built(child, t) =>
        var step := t + [Attached(parent.elementLabel, child.elementLabel), Emitted(c.children[i].elementLabel)];
        var rest := BuildChildren(c, parent.(children := parent.children + [child]), i + 1);
        rest.(trace := step + rest.trace)
  }

  // Reference definitions over the config tree.

  /** Every factory name in the tree is registered. */
  predicate AllKnown(c: ConfigNode)
    decreases c
  {
    c.name in FactoryMap && forall j :: 0 <= j < |c.children| ==> AllKnown(c.children[j])
  }

  /** `e` has the shape of `c`: same class, same label, the children mirrored in config order. */
  predicate Mirrors(e: Element, c: ConfigNode)
    decreases c
  {
    && c.name in FactoryMap
    && e.kind == FactoryMap[c.name]
    && e.elementLabel == c.elementLabel
    && |e.children| == |c.children|
    && forall j :: 0 <= j < |c.children| ==> Mirrors(e.children[j], c.children[j])
  }

  /** Number of nodes in the tree. */
  function Size(c: ConfigNode): nat
    decreases c, 1
  {
    1 + SizeFrom(c, 0)
  }

  function SizeFrom(c: ConfigNode, i: nat): nat
    requires i <= |c.children|
    decreases c, 0, |c.children| - i
  {
    if i == |c.children| then 0 else Size(c.children[i]) + SizeFrom(c, i + 1)
  }

  /** The labels in post-order: each child's subtree left to right, then the node itself. */
  function PostOrder(c: ConfigNode): seq<string>
    decreases c, 1
  {
    PostOrderFrom(c, 0) + [c.elementLabel]
  }

  function PostOrderFrom(c: ConfigNode, i: nat): seq<string>
    requires i <= |c.children|
    decreases c, 0, |c.children| - i
  {
    if i == |c.children| then [] else PostOrder(c.children[i]) + PostOrderFrom(c, i + 1)
  }

  /** The labels announced on the `_added` channel, in order. */
  function EmittedLabels(t: seq<Action>): seq<string> {
    if t == [] then []
    else (if t[0].Emitted? then [t[0].elementLabel] else []) + EmittedLabels(t[1..])
  }

  /** Every announcement directly follows the attachment of the very child it announces. */
  predicate EmitsAfterAttach(t: seq<Action>) {
    forall k :: 0 <= k < |t| && t[k].Emitted? ==>
      k > 0 && t[k - 1].Attached? && t[k - 1].child == t[k].elementLabel
  }

  lemma {:induction false} EmittedLabelsAppend(a: seq<Action>, b: seq<Action>)
    ensures EmittedLabels(a + b) == EmittedLabels(a) + EmittedLabels(b)
  {
    if a == [] {
      assert a + b == b;
    } else {
      assert (a + b)[0] == a[0];
      assert (a + b)[1..] == a[1..] + b;
      EmittedLabelsAppend(a[1..], b);
    }
  }

  lemma EmitsAfterAttachAppend(a: seq<Action>, b: seq<Action>)
    requires EmitsAfterAttach(a) && EmitsAfterAttach(b)
    ensures EmitsAfterAttach(a + b)
  {
    forall k | 0 <= k < |a + b| && (a + b)[k].Emitted?
      ensures k > 0 && (a + b)[k - 1].Attached? && (a + b)[k - 1].child == (a + b)[k].elementLabel
    {
      if k >= |a| {
        assert (a + b)[k] == b[k - |a|];
        assert (a + b)[k - 1] == b[k - 1 - |a|];
      }
    }
  }

  /** The build succeeds exactly when every name is registered, and then mirrors the config. */
  lemma {:induction false} BuildShape(c: ConfigNode)
    ensures Build(c).Built? <==> AllKnown(c)
    ensures Build(c).Built? ==> Mirrors(Build(c).element, c)
    decreases c, 1
  {
    if c.name in FactoryMap {
      BuildChildrenShape(c, Create(FactoryMap[c.name], c), 0);
    }
  }

  lemma {:induction false} BuildChildrenShape(c: ConfigNode, parent: Element, i: nat)
    requires i <= |c.children|
    requires |parent.children| == i
    requires forall j :: 0 <= j < i ==> Mirrors(parent.children[j], c.children[j])
    ensures BuildChildren(c, parent, i).Built? <==> forall j :: i <= j < |c.children| ==> AllKnown(c.children[j])
    ensures BuildChildren(c, parent, i).Built? ==>
      var e := BuildChildren(c, parent, i).element;
      && e.kind == parent.kind && e.elementLabel == parent.elementLabel
      && |e.children| == |c.children|
      && forall j :: 0 <= j < |c.children| ==> Mirrors(e.children[j], c.children[j])
    decreases c, 0, |c.children| - i
  {
    if i < |c.children| {
      BuildShape(c.children[i]);
      var child := Build(c.children[i]);
      if child.Built? {
        var parent' := parent.(children := parent.children + [child.element]);
        assert forall j :: 0 <= j < i + 1 ==> Mirrors(parent'.children[j], c.children[j]) by {
          assert forall j :: 0 <= j < i ==> parent'.children[j] == parent.children[j];
        }
        BuildChildrenShape(c, parent', i + 1);
      }
    }
  }

  /**
   * On success the build announces exactly the post-order of the non-root nodes, each right
   * after that node is attached. On an abort, what was announced before the throw is a proper
   * prefix of that order: the aborting node, and everything after it, is never announced.
   */
  lemma {:induction false} BuildTrace(c: ConfigNode)
    ensures EmitsAfterAttach(Build(c).trace)
    ensures Build(c).Built? ==> EmittedLabels(Build(c).trace) == PostOrderFrom(c, 0)
    ensures Build(c).Built? ==> Build(c).element.elementLabel == c.elementLabel
    ensures Build(c).Aborted? && c.name in FactoryMap ==> EmittedLabels(Build(c).trace) < PostOrderFrom(c, 0)
    ensures Build(c).Aborted? ==> EmittedLabels(Build(c).trace) < PostOrder(c)
    decreases c, 1
  {
    if c.name in FactoryMap {
      BuildChildrenTrace(c, Create(FactoryMap[c.name], c), 0);
    } else {
      assert Build(c).trace == [];
    }
  }

  lemma {:induction false} BuildChildrenTrace(c: ConfigNode, parent: Element, i: nat)
    requires i <= |c.children|
    ensures EmitsAfterAttach(BuildChildren(c, parent, i).trace)
    ensures BuildChildren(c, parent, i).Built? ==>
      EmittedLabels(BuildChildren(c, parent, i).trace) == PostOrderFrom(c, i)
    ensures BuildChildren(c, parent, i).Built? ==>
      BuildChildren(c, parent, i).element.elementLabel == parent.elementLabel
    ensures BuildChildren(c, parent, i).Aborted? ==>
      EmittedLabels(BuildChildren(c, parent, i).trace) < PostOrderFrom(c, i)
    decreases c, 0, |c.children| - i
  {
    if i < |c.children| {
      var ci := c.children[i];
      BuildTrace(ci);
      var child := Build(ci);
      assert PostOrderFrom(c, i) == PostOrder(ci) + PostOrderFrom(c, i + 1);
      if child.Aborted? {
        assert EmittedLabels(child.trace) < PostOrder(ci);
      } else {
        var tail := [Attached(parent.elementLabel, child.element.elementLabel), Emitted(ci.elementLabel)];
        var step := child.trace + tail;
        var parent' := parent.(children := parent.children + [child.element]);
        var rest := BuildChildren(c, parent', i + 1);
        BuildChildrenTrace(c, parent', i + 1);
        assert EmitsAfterAttach(tail);
        EmitsAfterAttachAppend(child.trace, tail);
        EmitsAfterAttachAppend(step, rest.trace);
        EmittedLabelsAppend(child.trace, tail);
        assert EmittedLabels(tail) == [ci.elementLabel] by {
          assert tail[1..][1..] == [];
          assert EmittedLabels(tail[1..]) == [ci.elementLabel];
        }
        assert EmittedLabels(step) == PostOrder(ci);
        EmittedLabelsAppend(step, rest.trace);
        if rest.Aborted? {
          assert EmittedLabels(rest.trace) < PostOrderFrom(c, i + 1);
          assert BuildChildren(c, parent, i).trace == step + rest.trace;
        }
      }
    }
  }

  /** The post-order lists every node once. */
  lemma {:induction false} PostOrderLength(c: ConfigNode)
    ensures |PostOrder(c)| == Size(c)
    decreases c, 1
  {
    PostOrderFromLength(c, 0);
  }

  lemma {:induction false} PostOrderFromLength(c: ConfigNode, i: nat)
    requires i <= |c.children|
    ensures |PostOrderFrom(c, i)| == SizeFrom(c, i)
    decreases c, 0, |c.children| - i
  {
    if i < |c.children| {
      PostOrderLength(c.children[i]);
      PostOrderFromLength(c, i + 1);
    }
  }

  /** A successful build of a tree of n nodes announces n - 1 attachments: the root gets none. */
  lemma AnnouncesAllButRoot(c: ConfigNode)
    requires AllKnown(c)
    ensures Build(c).Built?
    ensures |EmittedLabels(Build(c).trace)| == Size(c) - 1
    ensures PostOrder(c) == EmittedLabels(Build(c).trace) + [c.elementLabel]
  {
    BuildShape(c);
    BuildTrace(c);
    PostOrderFromLength(c, 0);
  }

  /** `layoutConfig`: the element trees; only the first one is ever built. */
  datatype LayoutDocument = LayoutDocument(classes: seq<ConfigNode>)

  datatype ElementInfo = ElementInfo(elementLabel: string, isLoaded: bool)

  class LayoutManager {
    const layoutConfig: LayoutDocument
    var elementRegistry: map<string, ElementInfo>
    /** The container's own children, in `addChild` order. */
    var children: seq<Element>
    /**
     * The error the first layout pass threw, if any. In the source it escapes the constructor,
     * so `new LayoutManager` throws and its caller stops there.
     */
    var constructionError: Option<BuildError>

    /** `constructor`: store the config and run the first layout pass. */
    constructor (layoutConfig: LayoutDocument)
      ensures this.layoutConfig == layoutConfig
      ensures elementRegistry == map[]
      ensures |layoutConfig.classes| > 0 && Build(layoutConfig.classes[0]).Built? ==>
        children == [Build(layoutConfig.classes[0]).element] && constructionError == None
      ensures |layoutConfig.classes| > 0 && Build(layoutConfig.classes[0]).Aborted? ==>
        children == [] && constructionError == Some(Build(layoutConfig.classes[0]).error)
      ensures |layoutConfig.classes| == 0 ==> children == [] && constructionError == None
    {
      this.layoutConfig := layoutConfig;
      elementRegistry := map[];
      children := [];
      constructionError := None;
      new;
      var trace, error := UpdateLayout();
      constructionError := error;
    }

    /**
     * `updateLayout`: clear the registry, build `classes[0]` when present and add it as a child.
     * An abort (the source's throw) leaves the children as they were.
     */
    method UpdateLayout() returns (trace: seq<Action>, error: Option<BuildError>)
      modifies this`elementRegistry, this`children
      ensures elementRegistry == map[]
      ensures |layoutConfig.classes| == 0 ==> children == old(children) && trace == [] && error == None
      ensures |layoutConfig.classes| > 0 ==>
        var outcome := Build(layoutConfig.classes[0]);
        && trace == outcome.trace
        && (outcome.Built? ==> children == old(children) + [outcome.element] && error == None)
        && (outcome.Aborted? ==> children == old(children) && error == Some(outcome.error))
    {
      elementRegistry := map[];
      trace, error := [], None;
      if |layoutConfig.classes| > 0 {
        var layoutData := layoutConfig.classes[0];
        var outcome := Build(layoutData);
        trace := outcome.trace;
        match outcome
        case Built(root, _) =>
          children := children + [root];
        case Aborted(e, _) =>
          error := Some(e);
      }
    }
  }

  /** Three levels, root -> two sprites -> one sprite each: four announcements, children first. */
  lemma ThreeLevelTree()
    ensures var leaf1 := ConfigNode("TetraSprite", "a1", []);
      var leaf2 := ConfigNode("TetraSprite", "b1", []);
      var tree := ConfigNode("Root", "root", [ConfigNode("TetraSprite", "a", [leaf1]), ConfigNode("TetraSprite", "b", [leaf2])]);
      EmittedLabels(Build(tree).trace) == ["a1", "a", "b1", "b"]
  {
    var leaf1 := ConfigNode("TetraSprite", "a1", []);
    var leaf2 := ConfigNode("TetraSprite", "b1", []);
    var a := ConfigNode("TetraSprite", "a", [leaf1]);
    var b := ConfigNode("TetraSprite", "b", [leaf2]);
    var tree := ConfigNode("Root", "root", [a, b]);
    assert AllKnown(leaf1) && AllKnown(leaf2) && AllKnown(a) && AllKnown(b);
    assert AllKnown(tree);
    AnnouncesAllButRoot(tree);
    assert PostOrder(leaf1) == ["a1"] && PostOrder(leaf2) == ["b1"];
    assert PostOrderFrom(a, 0) == ["a1"] && PostOrderFrom(b, 0) == ["b1"];
    assert PostOrder(a) == ["a1", "a"] && PostOrder(b) == ["b1", "b"];
    assert PostOrderFrom(tree, 1) == ["b1", "b"];
    assert PostOrderFrom(tree, 0) == ["a1", "a", "b1", "b"];
    BuildTrace(tree);
  }
}
