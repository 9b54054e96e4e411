/** The host toolkit the library runs inside: elements (controls and the
    components that sit on them), their parent chain, and the state the library
    reads or writes (visibility, enabled flag, disposal, active control, active
    form). Elements are identities; their mutable state lives in `Host`. */
module Host {
  import opened Wrappers

  /** The identity of a control or component. */
  type Element = nat

  /** The classes of control the command manager tells apart when it hooks
      events; `Form` and `ContainerControl` are the containers. */
  datatype ControlKind =
    | Form
    | ContainerControl
    | Label
    | Panel
    | GroupBox
    | Splitter
    | ProgressBar
    | OtherControl
    | Component

  /** The visual tree: `parent` is the parent link, `children` the ordered child
      collection, and `depth` a rank that grows strictly from a parent to its
      children and never exceeds `height`; the rank is what makes every upward
      and downward walk terminate. */
  datatype Tree = Tree(parent: map<Element, Element>, children: map<Element, seq<Element>>,
                       depth: map<Element, nat>, height: nat)
  {
    ghost predicate Valid()
    {
      && (forall c | c in parent :: c in depth && parent[c] in depth && depth[parent[c]] < depth[c])
      && (forall c | c in depth :: depth[c] <= height)
      && (forall c, i | c in children && 0 <= i < |children[c]| ::
            children[c][i] in parent && parent[children[c][i]] == c)
    }

    function Rank(c: Element): nat
    {
      if c in depth then depth[c] else 0
    }

    function Parent(c: Element): Option<Element>
    {
      if c in parent then Some(parent[c]) else None
    }

    function Children(c: Element): seq<Element>
    {
      if c in children then children[c] else []
    }

    /** The element and its ancestors, nearest first. */
    function Up(c: Element): (path: seq<Element>)
      requires Valid()
      ensures |path| >= 1 && path[0] == c
      decreases Rank(c)
    {
      if c in parent then [c] + Up(parent[c]) else [c]
    }

    /** One step up the parent chain drops the element itself. */
    lemma UpParent(c: Element)
      requires Valid()
      ensures Up(c)[1..] == if Parent(c).Some? then Up(Parent(c).value) else []
    {
    }

    /** `Control.FindForm`: the nearest element on the parent chain, the
        element itself included, that is a form. */
    function FindForm(forms: set<Element>, c: Element): (r: Option<Element>)
      requires Valid()
      ensures r.Some? ==> r.value in forms && r.value in Up(c)
      ensures r.None? ==> forall x | x in Up(c) :: x !in forms
      ensures r.Some? ==> exists k | 0 <= k < |Up(c)| ::
        Up(c)[k] == r.value && forall j | 0 <= j < k :: Up(c)[j] !in forms
      decreases Rank(c)
    {
      if c in forms then Some(c)
      else if c in parent then
        var r := FindForm(forms, parent[c]);
        assert Up(c) == [c] + Up(parent[c]);
        if r.Some? then
          var k :| 0 <= k < |Up(parent[c])| && Up(parent[c])[k] == r.value
                   && forall j | 0 <= j < k :: Up(parent[c])[j] !in forms;
          assert Up(c)[k + 1] == r.value;
          r
        else r
      else None
    }
  }

  /** The host state the commands read and never change: all of it but the
      `Enabled` and `IsDisposed` flags. */
  datatype HostView = HostView(tree: Tree, kind: map<Element, ControlKind>, visible: set<Element>,
                               activeControl: map<Element, Element>, activeForm: Option<Element>,
                               owner: map<Element, Element>)
  {
    ghost predicate Valid()
    {
      && tree.Valid()
      && ActiveControlsDescend(tree, activeControl)
      && (activeForm.Some? ==> IsForm(kind, activeForm.value))
    }
  }

  /** A host state the tree and focus invariants hold in. */
  type ValidView = v: HostView | v.Valid()
    witness HostView(Tree(map[], map[], map[], 0), map[], {}, map[], None, map[])

  class Host {
    var tree: Tree
    var kind: map<Element, ControlKind>
    var visible: set<Element>
    var enabled: set<Element>
    var disposed: set<Element>
    /** `ContainerControl.ActiveControl`; a missing key is a null active control. */
    var activeControl: map<Element, Element>
    /** `Form.ActiveForm` */
    var activeForm: Option<Element>
    /** `ToolStripItem.Owner` and `ToolBarButton.Parent` of component elements. */
    var owner: map<Element, Element>

    ghost predicate Valid()
      reads this`tree, this`kind, this`visible, this`activeControl, this`activeForm, this`owner
    {
      View().Valid()
    }

    function View(): HostView
      reads this`tree, this`kind, this`visible, this`activeControl, this`activeForm, this`owner
    {
      HostView(tree, kind, visible, activeControl, activeForm, owner)
    }

    constructor(tree: Tree, kind: map<Element, ControlKind>)
      ensures this.tree == tree && this.kind == kind
      ensures visible == {} && enabled == {} && disposed == {}
      ensures activeControl == map[] && activeForm == None && owner == map[]
    {
      this.tree := tree;
      this.kind := kind;
      visible, enabled, disposed := {}, {}, {};
      activeControl, activeForm, owner := map[], None, map[];
    }

    /** `Control.Enabled = value` and `ToolStripItem.Enabled = value`. */
    method SetEnabled(c: Element, value: bool)
      modifies this`enabled
      ensures enabled == if value then old(enabled) + {c} else old(enabled) - {c}
      ensures View() == old(View())
    {
      enabled := if value then enabled + {c} else enabled - {c};
    }
  }

  predicate IsForm(kind: map<Element, ControlKind>, c: Element)
  {
    c in kind && kind[c] == Form
  }

  /** Implements `IContainerControl`. */
  predicate IsContainer(kind: map<Element, ControlKind>, c: Element)
  {
    c in kind && (kind[c] == Form || kind[c] == ContainerControl)
  }

  function Forms(kind: map<Element, ControlKind>): set<Element>
  {
    set c | c in kind && kind[c] == Form
  }

  /** A container's active control is itself or lies deeper in the tree. */
  ghost predicate ActiveControlsDescend(tree: Tree, active: map<Element, Element>)
  {
    forall c | c in active ::
      c in tree.depth && active[c] in tree.depth
      && (active[c] == c || tree.depth[c] < tree.depth[active[c]])
  }
}
