/** The specification of command routing: which bindings a routed command
    consults for a target, and what the preview, bubble and execute passes over
    them answer, call and post. */
module RoutingSpec {
  import opened Wrappers
  import opened Host
  import opened FormExtensions
  import opened Commands
  import opened EventArgs
  import opened UiThread
  import opened CommandBindings
  import opened Seqs

  /** A binding together with the element it is registered on. */
  datatype Step = Step(control: Element, binding: CommandBinding)

  /** The registry's contents: each element's binding list. */
  type Snapshot = map<Element, seq<CommandBinding>>

  function BindingsOf(snap: Snapshot, c: Element): seq<CommandBinding>
  {
    if c in snap then snap[c] else []
  }

  /** The bindings of one element's list that are for `cmd`, in registration order. */
  function Matching(c: Element, bs: seq<CommandBinding>, cmd: UICommandBase): seq<Step>
  {
    if bs == [] then []
    else (if bs[0].command == Routed(cmd) then [Step(c, bs[0])] else []) + Matching(c, bs[1..], cmd)
  }

  function ChainAlong(snap: Snapshot, cmd: UICommandBase, path: seq<Element>): seq<Step>
  {
    if path == [] then [] else Matching(path[0], BindingsOf(snap, path[0]), cmd) + ChainAlong(snap, cmd, path[1..])
  }

  /** The target chain: the bindings for `cmd` on the target and on each of its
      ancestors, nearest element first. */
  function TargetChain(tree: Tree, snap: Snapshot, cmd: UICommandBase, target: Element): seq<Step>
    requires tree.Valid()
  {
    ChainAlong(snap, cmd, tree.Up(target))
  }

  /** The target a null target argument stands for: the focused control of
      the active form. */
  ghost function ResolveTarget(tree: Tree, kind: map<Element, ControlKind>, active: map<Element, Element>,
                               activeForm: Option<Element>, target: Option<Element>): Option<Element>
    requires tree.Valid() && ActiveControlsDescend(tree, active)
  {
    if target.Some? then target
    else if activeForm.None? then None
    else Descent(tree, kind, active, activeForm.value)
  }

  datatype Verdict = Granted | Vetoed | Undecided

  /** How a pass ended, the argument reference it leaves, the handler calls
      it made and the work it posted. */
  datatype Pass = Pass(verdict: Verdict, e: Option<Flags>, calls: seq<Call>, posted: seq<Work>)

  function After(calls: seq<Call>, p: Pass): Pass
  {
    p.(calls := calls + p.calls)
  }

  lemma AfterAfter(a: seq<Call>, b: seq<Call>, p: Pass)
    ensures After(a, After(b, p)) == After(a + b, p)
    ensures After([], p) == p
  {
    assert a + (b + p.calls) == (a + b) + p.calls;
    assert [] + p.calls == p.calls;
  }

  predicate IsHandled(e: Option<Flags>)
  {
    e.Some? && e.value.handled
  }

  /** The preview pass: from the last binding of the chain (the outermost
      element's last-registered one) back to the first; a true answer grants,
      `Handled` vetoes. */
  function PreviewPass(steps: seq<Step>, e: Option<Flags>): Pass
    decreases |steps|
  {
    if steps == [] then Pass(Undecided, e, [], [])
    else
      var s := steps[|steps| - 1];
      var st := s.binding.PreviewStep(s.control, e);
      if st.result then Pass(Granted, st.e, st.calls, [])
      else if IsHandled(st.e) then Pass(Vetoed, st.e, st.calls, [])
      else After(st.calls, PreviewPass(steps[..|steps| - 1], st.e))
  }

  /** The bubble pass: from the first binding of the chain to the last. */
  function BubblePass(steps: seq<Step>, e: Option<Flags>): Pass
    decreases |steps|
  {
    if steps == [] then Pass(Undecided, e, [], [])
    else
      var st := steps[0].binding.CanExecuteStep(steps[0].control, e);
      if st.result then Pass(Granted, st.e, st.calls, [])
      else if IsHandled(st.e) then Pass(Vetoed, st.e, st.calls, [])
      else After(st.calls, BubblePass(steps[1..], st.e))
  }

  /** The execute pass: `OnExecuted` on each binding in chain order until one
      posts. */
  function ExecutePass(steps: seq<Step>, parameter: Param, e: Option<Flags>): Pass
    decreases |steps|
  {
    if steps == [] then Pass(Undecided, e, [], [])
    else
      var st := steps[0].binding.ExecutedStep(steps[0].control, parameter, e);
      if st.result then Pass(Granted, st.e, st.calls, st.posted)
      else After(st.calls, ExecutePass(steps[1..], parameter, st.e))
  }

  /** The execute pass over two consecutive stretches of a chain: the second
      is reached only when the first posts nothing, with the argument state
      the first leaves. */
  lemma {:induction false} ExecutePassAppend(a: seq<Step>, b: seq<Step>, parameter: Param, e: Option<Flags>)
    ensures var x := ExecutePass(a, parameter, e);
      && (x.verdict != Granted ==> x.posted == [] && x.verdict == Undecided)
      && ExecutePass(a + b, parameter, e) ==
           if x.verdict == Granted then x else After(x.calls, ExecutePass(b, parameter, x.e))
    decreases |a|
  {
    if a == [] {
      assert a + b == b;
      AfterAfter([], [], ExecutePass(b, parameter, e));
    } else {
      var st := a[0].binding.ExecutedStep(a[0].control, parameter, e);
      assert (a + b)[0] == a[0] && (a + b)[1..] == a[1..] + b;
      if !st.result {
        ExecutePassAppend(a[1..], b, parameter, st.e);
        var y := ExecutePass(a[1..], parameter, st.e);
        if y.verdict != Granted {
          AfterAfter(st.calls, y.calls, ExecutePass(b, parameter, y.e));
        }
      }
    }
  }

  /** One element of the upward walk of `Execute`: the pass over the rest of
      the path is the pass over the element's own bindings, then (unless one
      of them posted) the pass over the ancestors. */
  lemma ExecuteWalkStep(snap: Snapshot, cmd: UICommandBase, path: seq<Element>, items: seq<CommandBinding>,
                        acc: seq<Call>, full: Pass, parameter: Param, e: Option<Flags>)
    requires path != [] && items == BindingsOf(snap, path[0])
    requires full == After(acc, ExecutePass(ChainAlong(snap, cmd, path), parameter, e))
    ensures var x := ExecutePass(Matching(path[0], items, cmd), parameter, e);
      && (x.verdict == Granted ==> full == After(acc, x))
      && (x.verdict != Granted ==>
            x.posted == [] && full == After(acc + x.calls, ExecutePass(ChainAlong(snap, cmd, path[1..]), parameter, x.e)))
  {
    var here := Matching(path[0], items, cmd);
    var x := ExecutePass(here, parameter, e);
    ExecutePassAppend(here, ChainAlong(snap, cmd, path[1..]), parameter, e);
    AfterAfter(acc, x.calls, ExecutePass(ChainAlong(snap, cmd, path[1..]), parameter, x.e));
  }

  /** One binding of an element's list inside the execute walk: a binding for
      another command is skipped; one for `cmd` either posts, ending the pass,
      or posts nothing and hands on its argument state. */
  lemma ExecuteMatchingStep(c: Element, items: seq<CommandBinding>, j: nat, cmd: UICommandBase,
                            acc: seq<Call>, full: Pass, parameter: Param, e: Option<Flags>)
    requires j < |items|
    requires full == After(acc, ExecutePass(Matching(c, items[j..], cmd), parameter, e))
    ensures items[j].command != Routed(cmd) ==>
      full == After(acc, ExecutePass(Matching(c, items[j + 1..], cmd), parameter, e))
    ensures items[j].command == Routed(cmd) ==>
      var st := items[j].ExecutedStep(c, parameter, e);
      && (st.result ==> full == After(acc, Pass(Granted, st.e, st.calls, st.posted)))
      && (!st.result ==> st.posted == [])
      && (!st.result ==>
            full == After(acc + st.calls, ExecutePass(Matching(c, items[j + 1..], cmd), parameter, st.e)))
  {
    var m := Matching(c, items[j + 1..], cmd);
    assert items[j..][0] == items[j] && items[j..][1..] == items[j + 1..];
    if items[j].command == Routed(cmd) {
      var here := [Step(c, items[j])] + m;
      assert here[0] == Step(c, items[j]) && here[1..] == m;
      var st := items[j].ExecutedStep(c, parameter, e);
      AfterAfter(acc, st.calls, ExecutePass(m, parameter, st.e));
    } else {
      assert [] + m == m;
    }
  }

  /** What a whole operation answers, calls and posts. */
  datatype Run = Run(result: bool, calls: seq<Call>, posted: seq<Work>)

  /** `CanExecuteCore` over a chain. */
  function CanExecuteRun(chain: seq<Step>): Run
  {
    if chain == [] then Run(false, [], [])
    else
      var p := PreviewPass(chain, None);
      if p.verdict == Granted then Run(true, p.calls, [])
      else if p.verdict == Vetoed then Run(false, p.calls, [])
      else
        var b := BubblePass(chain, p.e);
        Run(b.verdict == Granted, p.calls + b.calls, [])
  }

  /** `Execute` over a chain: no preview. */
  function ExecuteRun(chain: seq<Step>, parameter: Param): Run
  {
    var x := ExecutePass(chain, parameter, None);
    Run(x.verdict == Granted, x.calls, x.posted)
  }

  /** `ExecuteIfCan` over a chain: the preview can veto; a preview that grants
      only ends the preview pass. */
  function ExecuteIfCanRun(chain: seq<Step>, parameter: Param): Run
  {
    if chain == [] then Run(false, [], [])
    else
      var p := PreviewPass(chain, None);
      if p.verdict == Vetoed then Run(false, p.calls, [])
      else
        var x := ExecutePass(chain, parameter, p.e);
        Run(x.verdict == Granted, p.calls + x.calls, x.posted)
  }

  // ---------------------------------------------------------------------
  // The chain

  lemma {:induction false} MatchingMembers(c: Element, bs: seq<CommandBinding>, cmd: UICommandBase, s: Step)
    ensures s in Matching(c, bs, cmd) <==> s.control == c && s.binding in bs && s.binding.command == Routed(cmd)
  {
    if bs != [] {
      MatchingMembers(c, bs[1..], cmd, s);
      assert bs == [bs[0]] + bs[1..];
    }
  }

  lemma {:induction false} ChainAlongMembers(snap: Snapshot, cmd: UICommandBase, path: seq<Element>, s: Step)
    ensures s in ChainAlong(snap, cmd, path) <==>
      s.control in path && s.binding in BindingsOf(snap, s.control) && s.binding.command == Routed(cmd)
  {
    if path != [] {
      MatchingMembers(path[0], BindingsOf(snap, path[0]), cmd, s);
      ChainAlongMembers(snap, cmd, path[1..], s);
      assert path == [path[0]] + path[1..];
    }
  }

  /** A binding is consulted for a target exactly when it is for this command
      and registered on the target or one of its ancestors. */
  lemma ChainMembers(tree: Tree, snap: Snapshot, cmd: UICommandBase, target: Element, s: Step)
    requires tree.Valid()
    ensures s in TargetChain(tree, snap, cmd, target) <==>
      s.control in tree.Up(target) && s.binding in BindingsOf(snap, s.control) && s.binding.command == Routed(cmd)
  {
    ChainAlongMembers(snap, cmd, tree.Up(target), s);
  }

  lemma {:induction false} MatchingOn(c: Element, bs: seq<CommandBinding>, cmd: UICommandBase)
    ensures forall i | 0 <= i < |Matching(c, bs, cmd)| :: Matching(c, bs, cmd)[i].control == c
  {
    if bs != [] {
      MatchingOn(c, bs[1..], cmd);
    }
  }

  /** Ranks strictly decrease up the parent chain. */
  lemma {:induction false} UpRanksDecrease(tree: Tree, c: Element)
    requires tree.Valid()
    ensures forall i | 0 < i < |tree.Up(c)| :: tree.Rank(tree.Up(c)[i]) < tree.Rank(c)
    ensures forall i, j | 0 <= i < j < |tree.Up(c)| :: tree.Rank(tree.Up(c)[j]) < tree.Rank(tree.Up(c)[i])
    decreases tree.Rank(c)
  {
    if c in tree.parent {
      var p := tree.parent[c];
      UpRanksDecrease(tree, p);
      assert tree.Up(c) == [c] + tree.Up(p);
      forall i, j | 0 <= i < j < |tree.Up(c)|
        ensures tree.Rank(tree.Up(c)[j]) < tree.Rank(tree.Up(c)[i])
      {
        if i > 0 {
          assert tree.Up(c)[i] == tree.Up(p)[i - 1] && tree.Up(c)[j] == tree.Up(p)[j - 1];
        } else if j > 1 {
          assert tree.Up(c)[j] == tree.Up(p)[j - 1];
        }
      }
    }
  }

  /** No step comes after a step on an element of higher rank. */
  ghost predicate RanksDescend(tree: Tree, ch: seq<Step>)
  {
    forall i, j | 0 <= i < j < |ch| :: tree.Rank(ch[j].control) <= tree.Rank(ch[i].control)
  }

  lemma DescendAppend(tree: Tree, m: seq<Step>, rest: seq<Step>, c: Element)
    requires forall i | 0 <= i < |m| :: m[i].control == c
    requires forall i | 0 <= i < |rest| :: tree.Rank(rest[i].control) < tree.Rank(c)
    requires RanksDescend(tree, rest)
    ensures RanksDescend(tree, m + rest)
    ensures forall i | 0 <= i < |m + rest| :: tree.Rank((m + rest)[i].control) <= tree.Rank(c)
  {
  }

  lemma {:induction false} ChainAlongDescending(tree: Tree, snap: Snapshot, cmd: UICommandBase, path: seq<Element>)
    requires forall i, j | 0 <= i < j < |path| :: tree.Rank(path[j]) < tree.Rank(path[i])
    ensures RanksDescend(tree, ChainAlong(snap, cmd, path))
    ensures path != [] ==>
      forall i | 0 <= i < |ChainAlong(snap, cmd, path)| ::
        tree.Rank(ChainAlong(snap, cmd, path)[i].control) <= tree.Rank(path[0])
  {
    if path != [] {
      var m := Matching(path[0], BindingsOf(snap, path[0]), cmd);
      var rest := ChainAlong(snap, cmd, path[1..]);
      MatchingOn(path[0], BindingsOf(snap, path[0]), cmd);
      ChainAlongDescending(tree, snap, cmd, path[1..]);
      if path[1..] != [] {
        assert path[1..][0] == path[1];
        assert tree.Rank(path[1]) < tree.Rank(path[0]);
      }
      DescendAppend(tree, m, rest, path[0]);
    }
  }

  /** The chain is ordered nearest element first: a binding never comes after
      a binding of an element above it. */
  lemma NearestElementFirst(tree: Tree, snap: Snapshot, cmd: UICommandBase, target: Element)
    requires tree.Valid()
    ensures forall i, j | 0 <= i < j < |TargetChain(tree, snap, cmd, target)| ::
      tree.Rank(TargetChain(tree, snap, cmd, target)[j].control)
        <= tree.Rank(TargetChain(tree, snap, cmd, target)[i].control)
  {
    UpRanksDecrease(tree, target);
    ChainAlongDescending(tree, snap, cmd, tree.Up(target));
  }

  // ---------------------------------------------------------------------
  // The preview pass

  /** The preview handler calls of `steps` visited from the last step back to
      the first. */
  function PreviewCallsBackward(steps: seq<Step>): seq<Call>
    decreases |steps|
  {
    if steps == [] then []
    else
      var s := steps[|steps| - 1];
      Invocations(s.binding.preview, s.control) + PreviewCallsBackward(steps[..|steps| - 1])
  }

  /** The preview pass calls the preview handlers from the end of the chain
      back towards its start, stopping after the binding that decided; when
      nothing decides, it has called every preview handler of the chain. */
  lemma {:induction false} PreviewVisitsBackward(steps: seq<Step>, e: Option<Flags>)
    ensures exists m | 0 <= m <= |steps| ::
      && PreviewPass(steps, e).calls == PreviewCallsBackward(steps[m..])
      && (PreviewPass(steps, e).verdict == Undecided ==> m == 0)
    decreases |steps|
  {
    if steps == [] {
      Whole(steps);
    } else {
      var n := |steps|;
      var s := steps[n - 1];
      var st := s.binding.PreviewStep(s.control, e);
      var here := Invocations(s.binding.preview, s.control);
      assert st.calls == here;
      if st.result || IsHandled(st.e) {
        var tail := steps[n - 1..];
        TakeLast(tail, 1);
        DropFirst(steps, n - 1);
        Whole(here);
        assert PreviewCallsBackward(tail) == here + PreviewCallsBackward([]);
      } else {
        var init := steps[..n - 1];
        PreviewVisitsBackward(init, st.e);
        var m :| 0 <= m <= |init| && PreviewPass(init, st.e).calls == PreviewCallsBackward(init[m..])
                 && (PreviewPass(init, st.e).verdict == Undecided ==> m == 0);
        SuffixOfPrefix(steps, m);
        assert PreviewCallsBackward(steps[m..]) == here + PreviewCallsBackward(init[m..]);
      }
    }
  }

  lemma SuffixOfPrefix<T>(s: seq<T>, m: nat)
    requires m < |s|
    ensures var t := s[m..]; |t| > 0 && t[|t| - 1] == s[|s| - 1] && t[..|t| - 1] == s[..|s| - 1][m..]
  {
  }

  predicate ClearedOrNull(e: Option<Flags>)
  {
    e.None? || e == Some(Cleared)
  }

  /** A preview pass that decides nothing leaves the arguments as it found
      them when it found them cleared: any true or `Handled` would have
      decided. */
  lemma {:induction false} UndecidedPreviewLeavesCleared(steps: seq<Step>, e: Option<Flags>)
    requires ClearedOrNull(e)
    ensures PreviewPass(steps, e).verdict == Undecided ==> ClearedOrNull(PreviewPass(steps, e).e)
    decreases |steps|
  {
    if steps != [] {
      var s := steps[|steps| - 1];
      var st := s.binding.PreviewStep(s.control, e);
      if !st.result && !IsHandled(st.e) {
        UndecidedPreviewLeavesCleared(steps[..|steps| - 1], st.e);
      }
    }
  }

  /** A preview handler on the outermost binding that sets `Handled` and
      leaves `CanExecute` false decides the query by itself: the answer is
      false and no other handler runs, and `ExecuteIfCan` posts nothing. */
  lemma OutermostPreviewVeto(chain: seq<Step>, parameter: Param)
    requires chain != []
    requires var s := chain[|chain| - 1]; var f := RunHandlers(Cleared, s.binding.preview);
      s.binding.preview != [] && f.handled && !f.canExecute
    ensures var s := chain[|chain| - 1];
      && CanExecuteRun(chain) == Run(false, Invocations(s.binding.preview, s.control), [])
      && ExecuteIfCanRun(chain, parameter) == Run(false, Invocations(s.binding.preview, s.control), [])
  {
  }

  // ---------------------------------------------------------------------
  // The bubble pass

  /** The argument state each binding the bubble pass reaches meets on entry. */
  function BubbleEntries(steps: seq<Step>, e: Option<Flags>): seq<Option<Flags>>
    decreases |steps|
  {
    if steps == [] then []
    else
      var st := steps[0].binding.CanExecuteStep(steps[0].control, e);
      [e] + (if st.result || IsHandled(st.e) then [] else BubbleEntries(steps[1..], st.e))
  }

  lemma {:induction false} BubbleEntriesCleared(steps: seq<Step>, e: Option<Flags>)
    requires ClearedOrNull(e)
    ensures forall x | x in BubbleEntries(steps, e) :: ClearedOrNull(x)
    decreases |steps|
  {
    if steps != [] {
      var st := steps[0].binding.CanExecuteStep(steps[0].control, e);
      if !st.result && !IsHandled(st.e) {
        BubbleEntriesCleared(steps[1..], st.e);
      }
    }
  }

  /** Every `CanExecute` subscriber the bubble pass of a query reaches meets
      `CanExecute == false` and `Handled == false` (or no arguments yet). */
  lemma BubbleHandlersMeetClearedArgs(chain: seq<Step>)
    ensures var p := PreviewPass(chain, None);
      p.verdict == Undecided ==> forall x | x in BubbleEntries(chain, p.e) :: ClearedOrNull(x)
  {
    UndecidedPreviewLeavesCleared(chain, None);
    var p := PreviewPass(chain, None);
    if p.verdict == Undecided {
      BubbleEntriesCleared(chain, p.e);
    }
  }

  // ---------------------------------------------------------------------
  // The execute pass

  /** Whether `OnExecuted` posts for a binding: it has `Executed` handlers, and
      its `CanExecute` subscribers, if any, end by writing true. */
  predicate Accepts(b: CommandBinding)
  {
    b.executed != [] && (b.canExecute == [] || LastCanExecute(b.canExecute) == Some(true))
  }

  /** The posting of the first accepting binding, if there is one. */
  function FirstAccepting(steps: seq<Step>, parameter: Param): seq<Work>
  {
    if steps == [] then []
    else if Accepts(steps[0].binding) then [steps[0].binding.Posting(steps[0].control, parameter)]
    else FirstAccepting(steps[1..], parameter)
  }

  /** `OnExecuted` answers the same whatever argument state it meets: it
      resets `CanExecute` before its subscribers run and they do not read it. */
  lemma ExecutedStepIsAccepts(s: Step, parameter: Param, e: Option<Flags>)
    ensures s.binding.ExecutedStep(s.control, parameter, e).result == Accepts(s.binding)
    ensures s.binding.ExecutedStep(s.control, parameter, e).posted ==
      if Accepts(s.binding) then [s.binding.Posting(s.control, parameter)] else []
  {
    var b := s.binding;
    if b.executed != [] && b.canExecute != [] {
      var start := if e.None? then Cleared else Flags(false, e.value.handled);
      RunHandlersCanExecute(start, b.canExecute);
    }
  }

  /** Execution runs exactly the first binding of the chain that accepts:
      nearer bindings that refuse do not block it, bindings after it are not
      run, and at most one `Executed` is posted. */
  lemma {:induction false} ExecutePostsFirstAccepting(steps: seq<Step>, parameter: Param, e: Option<Flags>)
    ensures ExecutePass(steps, parameter, e).posted == FirstAccepting(steps, parameter)
    ensures |ExecutePass(steps, parameter, e).posted| <= 1
    ensures ExecutePass(steps, parameter, e).verdict == Granted <==>
      exists j | 0 <= j < |steps| :: Accepts(steps[j].binding)
    ensures ExecutePass(steps, parameter, e).verdict != Vetoed
    decreases |steps|
  {
    if steps != [] {
      ExecutedStepIsAccepts(steps[0], parameter, e);
      var st := steps[0].binding.ExecutedStep(steps[0].control, parameter, e);
      if !st.result {
        ExecutePostsFirstAccepting(steps[1..], parameter, st.e);
        if exists j | 0 <= j < |steps| :: Accepts(steps[j].binding) {
          var j :| 0 <= j < |steps| && Accepts(steps[j].binding);
          assert j > 0 && steps[1..][j - 1] == steps[j];
        }
        forall j | 0 <= j < |steps[1..]| && Accepts(steps[1..][j].binding)
          ensures exists k | 0 <= k < |steps| :: Accepts(steps[k].binding)
        {
          assert steps[j + 1] == steps[1..][j];
        }
      }
    }
  }

  /** `Execute` and `ExecuteIfCan` (unless a preview vetoes) post the same
      callback: the first accepting binding's, with the preview's answer and
      the argument state it leaves playing no part. */
  lemma ExecuteIfCanPostsLikeExecute(chain: seq<Step>, parameter: Param)
    ensures PreviewPass(chain, None).verdict != Vetoed ==>
      ExecuteIfCanRun(chain, parameter).posted == ExecuteRun(chain, parameter).posted
    ensures ExecuteRun(chain, parameter).posted == FirstAccepting(chain, parameter)
    ensures ExecuteRun(chain, parameter).result <==> FirstAccepting(chain, parameter) != []
  {
    ExecutePostsFirstAccepting(chain, parameter, None);
    ExecutePostsFirstAccepting(chain, parameter, PreviewPass(chain, None).e);
    FirstAcceptingNonEmpty(chain, parameter);
  }

  lemma {:induction false} FirstAcceptingNonEmpty(steps: seq<Step>, parameter: Param)
    ensures FirstAccepting(steps, parameter) != [] <==> exists j | 0 <= j < |steps| :: Accepts(steps[j].binding)
  {
    if steps != [] {
      FirstAcceptingNonEmpty(steps[1..], parameter);
      if exists j | 0 <= j < |steps| :: Accepts(steps[j].binding) {
        var j :| 0 <= j < |steps| && Accepts(steps[j].binding);
        if j > 0 { assert steps[1..][j - 1] == steps[j]; }
      }
      forall j | 0 <= j < |steps[1..]| && Accepts(steps[1..][j].binding)
        ensures exists k | 0 <= k < |steps| :: Accepts(steps[k].binding)
      {
        assert steps[j + 1] == steps[1..][j];
      }
    }
  }

  // ---------------------------------------------------------------------
  // The one-entry cache used while `CanExecuteChanged` is raised

  /** A `CanExecute` query: a parameter and a resolved target. */
  datatype Query = Query(parameter: Param, target: Element)

  /** The remembered pair and its answer; `target == None` remembers nothing,
      since a real query always has a target. */
  datatype Memo = Memo(parameter: Param, target: Option<Element>, result: bool)

  /** Whether a query repeats the remembered pair (reference equality on
      both). */
  predicate Hit(m: Memo, q: Query)
  {
    m.parameter == q.parameter && m.target == Some(q.target)
  }

  /** One `CanExecute` during a raise: a repeat answers from memory, anything
      else is evaluated (to `answer`) and remembered. */
  function Consult(m: Memo, q: Query, answer: bool): (r: (bool, Memo))
  {
    if Hit(m, q) then (m.result, m) else (answer, Memo(q.parameter, Some(q.target), answer))
  }

  /** A series of queries answered during one raise, where `f` is what a fresh
      evaluation answers: the answers given and the number of evaluations. */
  function Broadcast(m: Memo, qs: seq<Query>, f: Query -> bool): (seq<bool>, nat)
    decreases |qs|
  {
    if qs == [] then ([], 0)
    else
      var (a, m') := Consult(m, qs[0], f(qs[0]));
      var rest := Broadcast(m', qs[1..], f);
      ([a] + rest.0, (if Hit(m, qs[0]) then 0 else 1) + rest.1)
  }

  /** The memo agrees with a fresh evaluation, or remembers nothing. */
  predicate Agrees(m: Memo, f: Query -> bool)
  {
    m.target.Some? ==> m.result == f(Query(m.parameter, m.target.value))
  }

  /** While no binding changes, the cache is invisible: every answer of a
      raise equals a fresh evaluation of its query. A raise starts with an
      empty memo, which agrees with anything. */
  lemma {:induction false} CacheIsTransparent(m: Memo, qs: seq<Query>, f: Query -> bool)
    requires Agrees(m, f)
    ensures |Broadcast(m, qs, f).0| == |qs|
    ensures forall i | 0 <= i < |qs| :: Broadcast(m, qs, f).0[i] == f(qs[i])
    decreases |qs|
  {
    if qs != [] {
      var r := Consult(m, qs[0], f(qs[0]));
      assert r.0 == f(qs[0]);
      CacheIsTransparent(r.1, qs[1..], f);
      var tail := Broadcast(r.1, qs[1..], f).0;
      assert Broadcast(m, qs, f).0 == [r.0] + tail;
      forall i | 0 < i < |qs|
        ensures Broadcast(m, qs, f).0[i] == f(qs[i])
      {
        assert qs[1..][i - 1] == qs[i];
      }
    }
  }

  /** How many queries differ from the one just before them; the first one
      is compared with what the memo holds. */
  function Changes(prev: Option<Query>, qs: seq<Query>): nat
    decreases |qs|
  {
    if qs == [] then 0
    else (if prev == Some(qs[0]) then 0 else 1) + Changes(Some(qs[0]), qs[1..])
  }

  function Remembered(m: Memo): Option<Query>
  {
    if m.target.Some? then Some(Query(m.parameter, m.target.value)) else None
  }

  /** The cache evaluates exactly the queries that differ from the previous
      one: the first query of a raise always, a run of equal queries once. */
  lemma {:induction false} EvaluationsAreChanges(m: Memo, qs: seq<Query>, f: Query -> bool)
    ensures Broadcast(m, qs, f).1 == Changes(Remembered(m), qs)
    decreases |qs|
  {
    if qs != [] {
      var r := Consult(m, qs[0], f(qs[0]));
      assert Hit(m, qs[0]) <==> Remembered(m) == Some(qs[0]);
      assert Remembered(r.1) == Some(qs[0]);
      EvaluationsAreChanges(r.1, qs[1..], f);
    }
  }

  /** Any number of identical queries in one raise evaluate once. */
  lemma {:induction false} RepeatedQueryEvaluatesOnce(q: Query, n: nat)
    requires n >= 1
    ensures Changes(None, seq(n, _ => q)) == 1
  {
    var qs := seq(n, _ => q);
    SameQueryNoChange(q, n - 1);
    assert qs[1..] == seq(n - 1, _ => q);
  }

  lemma {:induction false} SameQueryNoChange(q: Query, n: nat)
    ensures Changes(Some(q), seq(n, _ => q)) == 0
  {
    if n > 0 {
      SameQueryNoChange(q, n - 1);
      assert seq(n, _ => q)[1..] == seq(n - 1, _ => q);
    }
  }
}
