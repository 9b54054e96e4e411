/** `Form.GetActiveControl`: follow the chain of active controls from a form
    down through nested containers. */
module FormExtensions {
  import opened Wrappers
  import opened Host

  /** The control focus ends at when the descent starts at `container`: the
      container's active control; when that is a container itself, its own
      descent; a container that names itself stops the walk; a missing active
      control anywhere on the way gives null. */
  ghost function Descent(tree: Tree, kind: map<Element, ControlKind>, active: map<Element, Element>,
                         container: Element): Option<Element>
    requires tree.Valid() && ActiveControlsDescend(tree, active)
    decreases tree.height - tree.Rank(container)
  {
    if container !in active then None
    else
      var a := active[container];
      if a == container || !IsContainer(kind, a) then Some(a)
      else Descent(tree, kind, active, a)
  }

  /** The descent stops only at a control that is not a container or at a
      container whose active control is itself, and it never goes above its
      start. */
  lemma {:induction false} DescentStopsAtLeaf(tree: Tree, kind: map<Element, ControlKind>,
                                              active: map<Element, Element>, container: Element)
    requires tree.Valid() && ActiveControlsDescend(tree, active)
    ensures var r := Descent(tree, kind, active, container);
      r.Some? ==>
        && (!IsContainer(kind, r.value) || (r.value in active && active[r.value] == r.value))
        && r.value in tree.depth && container in tree.depth
        && tree.depth[container] <= tree.depth[r.value]
    decreases tree.height - tree.Rank(container)
  {
    if container in active {
      var a := active[container];
      if a != container && IsContainer(kind, a) {
        DescentStopsAtLeaf(tree, kind, active, a);
      }
    }
  }

  /** The containers the descent reads `ActiveControl` of, outermost first. */
  ghost function Reached(tree: Tree, kind: map<Element, ControlKind>, active: map<Element, Element>,
                         container: Element): (path: seq<Element>)
    requires tree.Valid() && ActiveControlsDescend(tree, active)
    ensures |path| >= 1 && path[0] == container
    decreases tree.height - tree.Rank(container)
  {
    if container in active && active[container] != container && IsContainer(kind, active[container])
    then [container] + Reached(tree, kind, active, active[container])
    else [container]
  }

  /** Some container on `path` has no active control. */
  predicate Breaks(path: seq<Element>, active: map<Element, Element>)
  {
    exists i | 0 <= i < |path| :: path[i] !in active
  }

  /** Null comes back exactly when some container on the descent has no
      active control, however deep it is and even if every outer container
      had one. */
  lemma {:induction false} DescentNullIffChainBreaks(tree: Tree, kind: map<Element, ControlKind>,
                                                     active: map<Element, Element>, container: Element)
    requires tree.Valid() && ActiveControlsDescend(tree, active)
    ensures Descent(tree, kind, active, container).None? <==> Breaks(Reached(tree, kind, active, container), active)
    decreases tree.height - tree.Rank(container)
  {
    var path := Reached(tree, kind, active, container);
    if container in active {
      var a := active[container];
      if a != container && IsContainer(kind, a) {
        DescentNullIffChainBreaks(tree, kind, active, a);
        var rest := Reached(tree, kind, active, a);
        assert path == [container] + rest;
        if exists i | 0 <= i < |path| :: path[i] !in active {
          var i :| 0 <= i < |path| && path[i] !in active;
          assert i > 0 && rest[i - 1] == path[i];
        }
        if exists i | 0 <= i < |rest| :: rest[i] !in active {
          var i :| 0 <= i < |rest| && rest[i] !in active;
          assert path[i + 1] == rest[i];
        }
      } else {
        assert path == [container];
      }
    } else {
      assert path[0] !in active;
    }
  }

  method GetActiveControl(host: Host, form: Element) returns (activeControl: Option<Element>)
    requires host.Valid()
    ensures activeControl == Descent(host.tree, host.kind, host.activeControl, form)
  {
    var container := form;
    while true
      invariant Descent(host.tree, host.kind, host.activeControl, container)
             == Descent(host.tree, host.kind, host.activeControl, form)
      decreases host.tree.height - host.tree.Rank(container)
    {
      if container !in host.activeControl {
        return None;
      }
      var a := host.activeControl[container];
      if a == container || !IsContainer(host.kind, a) {
        return Some(a);
      }
      container := a;
    }
  }
}
