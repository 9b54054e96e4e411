/** The routing algorithms of `UICommandBase`: resolving the target, collecting
    the target chain, the preview/bubble query, `Execute` and `ExecuteIfCan`,
    each proved against its counterpart in `RoutingSpec`. */
module Routing {
  import opened Wrappers
  import opened Host
  import opened FormExtensions
  import opened Commands
  import opened EventArgs
  import opened UiThread
  import opened CommandBindings
  import opened Collections
  import opened RoutingSpec
  import opened Seqs

  /** The command-binding registry (`CollectionHolder<CommandBinding>`). */
  type Registry = CollectionHolder<CommandBinding>

  /** What the registry's lists hold now. */
  function Contents(reg: Registry): Snapshot
    reads reg`collections, reg.Lists()`items
  {
    if reg.collections.None? then map[]
    else map c | c in reg.collections.value :: reg.collections.value[c].items
  }

  /** The lists of the registry, read through `TryGetCollection`. */
  function ItemsAt(reg: Registry, c: Element): seq<CommandBinding>
    reads reg`collections, reg.Lists()`items
  {
    var found := reg.TryGetCollection(c);
    if found.Some? then found.value.items else []
  }

  lemma ContentsAll(reg: Registry)
    ensures forall c :: BindingsOf(Contents(reg), c) == ItemsAt(reg, c)
  {
  }

  lemma ContentsOf(reg: Registry, c: Element)
    ensures BindingsOf(Contents(reg), c) ==
      if reg.TryGetCollection(c).Some? then reg.TryGetCollection(c).value.items else []
  {
  }

  /** `target ??= GetActiveControl()`: an explicit target stands; otherwise
      the focused control of the active form, or null without one. */
  method ResolveTargetOf(host: Host, target: Option<Element>) returns (t: Option<Element>)
    requires host.Valid()
    ensures t == ResolveTarget(host.tree, host.kind, host.activeControl, host.activeForm, target)
    ensures target.Some? ==> t == target
  {
    if target.Some? {
      return target;
    }
    if host.activeForm.None? {
      return None;
    }
    t := GetActiveControl(host, host.activeForm.value);
  }

  /** `GetTargetCommandBindings`: from the target up to the root, the bindings
      of each element's list that are for `cmd`, in list order. */
  method GetTargetCommandBindings(cmd: UICommandBase, reg: Registry, tree: Tree, target: Element)
    returns (chain: seq<Step>)
    requires tree.Valid()
    ensures chain == TargetChain(tree, old(Contents(reg)), cmd, target)
  {
    ghost var snap := Contents(reg);
    ghost var whole := TargetChain(tree, snap, cmd, target);
    chain := [];
    var t := Some(target);
    ghost var path := tree.Up(target);
    while t.Some?
      invariant path == if t.Some? then tree.Up(t.value) else []
      invariant whole == chain + ChainAlong(snap, cmd, path)
      decreases |path|
    {
      var c := t.value;
      ContentsOf(reg, c);
      ghost var above := ChainAlong(snap, cmd, path[1..]);
      var found := reg.TryGetCollection(c);
      if found.Some? {
        var items := found.value.items;
        var j := 0;
        Whole(items);
        while j < |items|
          invariant 0 <= j <= |items|
          invariant whole == chain + (Matching(c, items[j..], cmd) + above)
        {
          ghost var m := Matching(c, items[j + 1..], cmd);
          DropFirst(items, j);
          ghost var x := if items[j].command == Routed(cmd) then [Step(c, items[j])] else [];
          Regroup(chain, x, m, above);
          if items[j].command == Routed(cmd) {
            chain := chain + [Step(c, items[j])];
          } else {
            Whole(chain);
          }
          j := j + 1;
        }
        Whole(items);
        Whole(above);
      } else {
        Whole(above);
      }
      tree.UpParent(c);
      t := tree.Parent(c);
      path := path[1..];
    }
    Whole(chain);
  }

  /** The preview loop: from the last binding of the chain back to the first,
      until one answers true or the arguments come back `Handled`. */
  method Preview(chain: seq<Step>, parameter: Param, ui: Dispatcher)
    returns (e: CanExecuteEventArgs?, verdict: Verdict)
    modifies ui`trace
    ensures var p := PreviewPass(chain, None);
      verdict == p.verdict && FlagsOf(e) == p.e && ui.trace == old(ui.trace) + p.calls
    ensures e == null || fresh(e)
  {
    e := null;
    var k := |chain|;
    ghost var acc: seq<Call> := [];
    ghost var full := PreviewPass(chain, None);
    Whole(chain);
    AfterAfter([], [], full);
    while k > 0
      invariant 0 <= k <= |chain|
      invariant e == null || fresh(e)
      invariant ui.trace == old(ui.trace) + acc
      invariant full == After(acc, PreviewPass(chain[..k], FlagsOf(e)))
    {
      var s := chain[k - 1];
      TakeLast(chain, k);
      ghost var st := s.binding.PreviewStep(s.control, FlagsOf(e));
      ghost var rest := PreviewPass(chain[..k - 1], st.e);
      AfterAfter(acc, st.calls, rest);
      Assoc(old(ui.trace), acc, st.calls);
      var r;
      e, r := s.binding.OnPreviewCanExecute(s.control, parameter, e, ui);
      acc := acc + st.calls;
      if r {
        return e, Granted;
      }
      if e != null && e.handled {
        return e, Vetoed;
      }
      k := k - 1;
    }
    return e, Undecided;
  }

  /** The bubble loop: from the first binding of the chain to the last, on
      the arguments the preview left. */
  method Bubble(chain: seq<Step>, parameter: Param, e: CanExecuteEventArgs?, ui: Dispatcher)
    returns (e': CanExecuteEventArgs?, verdict: Verdict)
    modifies e, ui`trace
    ensures var b := BubblePass(chain, old(FlagsOf(e)));
      verdict == b.verdict && FlagsOf(e') == b.e && ui.trace == old(ui.trace) + b.calls
    ensures e' == e || (e == null && fresh(e'))
  {
    e' := e;
    var i := 0;
    ghost var acc: seq<Call> := [];
    ghost var full := BubblePass(chain, FlagsOf(e));
    Whole(chain);
    AfterAfter([], [], full);
    while i < |chain|
      invariant 0 <= i <= |chain|
      invariant e' == e || (e == null && fresh(e'))
      invariant ui.trace == old(ui.trace) + acc
      invariant full == After(acc, BubblePass(chain[i..], FlagsOf(e')))
    {
      var s := chain[i];
      DropFirst(chain, i);
      ghost var st := s.binding.CanExecuteStep(s.control, FlagsOf(e'));
      ghost var rest := BubblePass(chain[i + 1..], st.e);
      AfterAfter(acc, st.calls, rest);
      Assoc(old(ui.trace), acc, st.calls);
      var r;
      e', r := s.binding.OnCanExecute(s.control, parameter, e', ui);
      acc := acc + st.calls;
      if r {
        return e', Granted;
      }
      if e' != null && e'.handled {
        return e', Vetoed;
      }
      i := i + 1;
    }
    return e', Undecided;
  }

  /** The execute loop of `ExecuteIfCan`: `OnExecuted` on each binding of the
      chain in order until one posts. */
  method ExecuteSteps(chain: seq<Step>, parameter: Param, e: CanExecuteEventArgs?, ui: Dispatcher)
    returns (granted: bool)
    modifies e, ui`trace, ui`queue
    ensures var x := ExecutePass(chain, parameter, old(FlagsOf(e)));
      && granted == (x.verdict == Granted)
      && ui.trace == old(ui.trace) + x.calls && ui.queue == old(ui.queue) + x.posted
  {
    var cur := e;
    var i := 0;
    ghost var acc: seq<Call> := [];
    ghost var full := ExecutePass(chain, parameter, FlagsOf(e));
    Whole(chain);
    AfterAfter([], [], full);
    while i < |chain|
      invariant 0 <= i <= |chain|
      invariant cur == e || (e == null && fresh(cur))
      invariant ui.trace == old(ui.trace) + acc && ui.queue == old(ui.queue)
      invariant full == After(acc, ExecutePass(chain[i..], parameter, FlagsOf(cur)))
    {
      var s := chain[i];
      DropFirst(chain, i);
      ghost var st := s.binding.ExecutedStep(s.control, parameter, FlagsOf(cur));
      ghost var rest := ExecutePass(chain[i + 1..], parameter, st.e);
      AfterAfter(acc, st.calls, rest);
      Assoc(old(ui.trace), acc, st.calls);
      ExecutedStepPostsOnlyOnSuccess(s, parameter, FlagsOf(cur));
      var r;
      cur, r := s.binding.OnExecuted(s.control, parameter, cur, ui);
      acc := acc + st.calls;
      if r {
        return true;
      }
      Whole(ui.queue);
      i := i + 1;
    }
    return false;
  }

  lemma ExecutedStepPostsOnlyOnSuccess(s: Step, parameter: Param, e: Option<Flags>)
    ensures !s.binding.ExecutedStep(s.control, parameter, e).result ==>
      s.binding.ExecutedStep(s.control, parameter, e).posted == []
  {
  }

  /** `CanExecuteCore`: no binding for the command means false; otherwise
      the preview pass decides, and if it does not, the bubble pass. */
  method CanExecuteCore(cmd: UICommandBase, reg: Registry, tree: Tree, ui: Dispatcher,
                        parameter: Param, target: Element) returns (r: bool)
    requires tree.Valid()
    modifies ui`trace
    ensures var run := CanExecuteRun(TargetChain(tree, old(Contents(reg)), cmd, target));
      r == run.result && ui.trace == old(ui.trace) + run.calls
  {
    var chain := GetTargetCommandBindings(cmd, reg, tree, target);
    if |chain| > 0 {
      var e, v := Preview(chain, parameter, ui);
      if v == Granted {
        return true;
      }
      if v == Vetoed {
        return false;
      }
      ghost var p := PreviewPass(chain, None);
      Assoc(old(ui.trace), p.calls, BubblePass(chain, p.e).calls);
      var e', b := Bubble(chain, parameter, e, ui);
      return b == Granted;
    }
    return false;
  }

  /** The one-entry cache of a command. */
  function MemoOf(cmd: UICommandBase): Memo
    reads cmd`lastParameter, cmd`lastTarget, cmd`lastResult
  {
    Memo(cmd.lastParameter, cmd.lastTarget, cmd.lastResult)
  }

  /** What one `CanExecute` call answers, the handler calls it makes and the
      memo it leaves behind. */
  datatype Answer = Answer(result: bool, calls: seq<Call>, memo: Memo)

  /** The answer of `CanExecute` in the host state given, for a command whose
      raise flag and memo are `inRaise` and `m`. */
  ghost function CanExecuteAnswer(v: HostView, snap: Snapshot, cmd: UICommandBase, inRaise: bool, m: Memo,
                                  parameter: Param, target: Option<Element>): Answer
    requires v.Valid()
  {
    var t := ResolveTarget(v.tree, v.kind, v.activeControl, v.activeForm, target);
    if t.None? then Answer(false, [], m)
    else
      var run := CanExecuteRun(TargetChain(v.tree, snap, cmd, t.value));
      if !inRaise then Answer(run.result, run.calls, m)
      else
        var q := Query(parameter, t.value);
        var c := Consult(m, q, run.result);
        Answer(c.0, if Hit(m, q) then [] else run.calls, c.1)
  }

  /** `CanExecute(parameter, target)`: without a target (even after the
      active-control fallback) the answer is false and no binding runs;
      outside a raise every call evaluates; inside a raise the memo answers a
      repeated pair and is refilled by any other. */
  method CanExecute(cmd: UICommandBase, reg: Registry, host: Host, ui: Dispatcher,
                    parameter: Param, target: Option<Element>) returns (r: bool)
    requires host.Valid()
    modifies ui`trace, cmd`lastParameter, cmd`lastTarget, cmd`lastResult
    ensures var a := old(CanExecuteAnswer(host.View(), Contents(reg), cmd, cmd.inRaise, MemoOf(cmd), parameter, target));
      r == a.result && ui.trace == old(ui.trace) + a.calls && MemoOf(cmd) == a.memo
  {
    var t := ResolveTargetOf(host, target);
    assert unchanged(reg) && unchanged(reg.Lists());
    if t.Some? {
      if cmd.inRaise {
        if parameter == cmd.lastParameter && t == cmd.lastTarget {
          return cmd.lastResult;
        }
        cmd.lastResult := CanExecuteCore(cmd, reg, host.tree, ui, parameter, t.value);
        cmd.lastParameter := parameter;
        cmd.lastTarget := t;
        return cmd.lastResult;
      }
      r := CanExecuteCore(cmd, reg, host.tree, ui, parameter, t.value);
      return r;
    }
    return false;
  }

  /** `Execute(parameter, target)`: from the target up, `OnExecuted` on every
      binding for the command until one posts; no preview handler runs. */
  method Execute(cmd: UICommandBase, reg: Registry, host: Host, ui: Dispatcher,
                 parameter: Param, target: Option<Element>,
                 ghost view: ValidView)
    requires host.View() == view
    modifies ui`trace, ui`queue
    ensures var t := ResolveTarget(view.tree, view.kind, view.activeControl, view.activeForm, target);
      t.None? ==> ui.trace == old(ui.trace) && ui.queue == old(ui.queue)
    ensures var t := ResolveTarget(view.tree, view.kind, view.activeControl, view.activeForm, target);
      t.Some? ==>
        var run := ExecuteRun(TargetChain(view.tree, old(Contents(reg)), cmd, t.value), parameter);
        ui.trace == old(ui.trace) + run.calls && ui.queue == old(ui.queue) + run.posted
  {
    var t := ResolveTargetOf(host, target);
    assert unchanged(reg) && unchanged(reg.Lists());
    if t.Some? {
      ExecuteWalk(cmd, reg, host.tree, ui, parameter, t.value);
    }
  }

  /** The `while (target is not null)` walk of `Execute`. */
  method ExecuteWalk(cmd: UICommandBase, reg: Registry, tree: Tree, ui: Dispatcher,
                     parameter: Param, target: Element)
    requires tree.Valid()
    modifies ui`trace, ui`queue
    ensures var run := ExecuteRun(TargetChain(tree, old(Contents(reg)), cmd, target), parameter);
      ui.trace == old(ui.trace) + run.calls && ui.queue == old(ui.queue) + run.posted
  {
    ghost var snap := Contents(reg);
    ghost var full := ExecutePass(TargetChain(tree, snap, cmd, target), parameter, None);
    var t := Some(target);
    ghost var path := tree.Up(target);
    ghost var acc: seq<Call> := [];
    var e: CanExecuteEventArgs? := null;
    AfterAfter([], [], full);
    ContentsAll(reg);
    while t.Some?
      invariant path == if t.Some? then tree.Up(t.value) else []
      invariant e == null || fresh(e)
      invariant ui.trace == old(ui.trace) + acc && ui.queue == old(ui.queue)
      invariant full == After(acc, ExecutePass(ChainAlong(snap, cmd, path), parameter, FlagsOf(e)))
      decreases |path|
    {
      var c := t.value;
      var found := reg.TryGetCollection(c);
      var items := if found.Some? then found.value.items else [];
      assert items == ItemsAt(reg, c);
      ghost var x := ExecutePass(Matching(c, items, cmd), parameter, FlagsOf(e));
      ExecuteWalkStep(snap, cmd, path, items, acc, full, parameter, FlagsOf(e));
      Assoc(old(ui.trace), acc, x.calls);
      var done;
      e, done := ExecuteList(cmd, c, items, parameter, e, ui);
      acc := acc + x.calls;
      if done {
        break;
      }
      Whole(ui.queue);
      tree.UpParent(c);
      t := tree.Parent(c);
      path := path[1..];
    }
  }

  /** The `foreach` over one element's bindings inside the walk of `Execute`:
      `OnExecuted` on each binding for `cmd` until one posts. */
  method ExecuteList(cmd: UICommandBase, c: Element, items: seq<CommandBinding>, parameter: Param,
                     e: CanExecuteEventArgs?, ui: Dispatcher) returns (e': CanExecuteEventArgs?, done: bool)
    modifies e, ui`trace, ui`queue
    ensures var x := ExecutePass(Matching(c, items, cmd), parameter, old(FlagsOf(e)));
      && done == (x.verdict == Granted) && FlagsOf(e') == x.e
      && ui.trace == old(ui.trace) + x.calls && ui.queue == old(ui.queue) + x.posted
    ensures e' == e || (e == null && fresh(e'))
  {
    e' := e;
    var j := 0;
    ghost var acc: seq<Call> := [];
    ghost var fl := FlagsOf(e);
    ghost var full := ExecutePass(Matching(c, items, cmd), parameter, fl);
    Whole(items);
    AfterAfter([], [], full);
    while j < |items|
      invariant 0 <= j <= |items|
      invariant e' == e || (e == null && fresh(e'))
      invariant ui.trace == old(ui.trace) + acc && ui.queue == old(ui.queue) && FlagsOf(e') == fl
      invariant full == After(acc, ExecutePass(Matching(c, items[j..], cmd), parameter, fl))
    {
      var b := items[j];
      ExecuteMatchingStep(c, items, j, cmd, acc, full, parameter, fl);
      if b.command == Routed(cmd) {
        ghost var st := b.ExecutedStep(c, parameter, fl);
        Assoc(old(ui.trace), acc, st.calls);
        var r;
        e', r := b.OnExecuted(c, parameter, e', ui);
        acc, fl := acc + st.calls, st.e;
        if r {
          return e', true;
        }
        Whole(ui.queue);
      }
      j := j + 1;
    }
    Whole(items);
    return e', false;
  }



  /** `ExecuteIfCan(parameter, target)`: the preview pass may veto (false,
      nothing executed) or grant (which only ends the preview); then
      `OnExecuted` on the chain in order until one posts. */
  method ExecuteIfCan(cmd: UICommandBase, reg: Registry, host: Host, ui: Dispatcher,
                      parameter: Param, target: Option<Element>,
                      ghost view: ValidView) returns (r: bool)
    requires host.View() == view
    modifies ui`trace, ui`queue
    ensures var t := ResolveTarget(view.tree, view.kind, view.activeControl, view.activeForm, target);
      t.None? ==> !r && ui.trace == old(ui.trace) && ui.queue == old(ui.queue)
    ensures var t := ResolveTarget(view.tree, view.kind, view.activeControl, view.activeForm, target);
      t.Some? ==>
        var run := ExecuteIfCanRun(TargetChain(view.tree, old(Contents(reg)), cmd, t.value), parameter);
        r == run.result && ui.trace == old(ui.trace) + run.calls && ui.queue == old(ui.queue) + run.posted
  {
    ghost var snap := Contents(reg);
    var t := ResolveTargetOf(host, target);
    assert Contents(reg) == snap;
    if t.Some? {
      var chain := GetTargetCommandBindings(cmd, reg, host.tree, t.value);
      if |chain| > 0 {
        var e, v := Preview(chain, parameter, ui);
        ghost var p := PreviewPass(chain, None);
        if v == Vetoed {
          return false;
        }
        Assoc(old(ui.trace), p.calls, ExecutePass(chain, parameter, p.e).calls);
        r := ExecuteSteps(chain, parameter, e, ui);
        return r;
      }
    }
    return false;
  }
}
