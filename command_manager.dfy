/** The command manager of a form: it hooks focus, key and child-added events
    on the form's controls, turns a key press into a command through the input
    bindings and the routed commands' gestures on the focused control and its
    ancestors, and coalesces requery requests into one deferred broadcast. */
module Manager {
  import opened Wrappers
  import opened Host
  import opened Gestures
  import opened Commands
  import opened InputBindings
  import opened UiThread
  import opened CommandBindings
  import opened Collections
  import opened RoutingSpec
  import opened Routing
  import opened CommandProperties
  import opened Seqs

  // ---------------------------------------------------------------------
  // Event hookup

  /** The controls that get `GotFocus` and `KeyDown`: every control but a
      label, a container control (a form is one), a panel, a group box, a
      splitter or a progress bar. */
  predicate TakesInput(kind: map<Element, ControlKind>, c: Element)
  {
    !(c in kind && kind[c] in {Form, ContainerControl, Label, Panel, GroupBox, Splitter, ProgressBar})
  }

  /** The control and its descendants in the order `Initialize` visits them:
      the control first, then each child's subtree in collection order. */
  function Subtree(tree: Tree, c: Element): (s: seq<Element>)
    requires tree.Valid()
    ensures |s| >= 1 && s[0] == c
    decreases tree.height - tree.Rank(c), |tree.Children(c)| + 1
  {
    [c] + Below(tree, c, 0)
  }

  /** The subtrees of the children of `c` from the `i`-th on. */
  function Below(tree: Tree, c: Element, i: nat): seq<Element>
    requires tree.Valid()
    decreases tree.height - tree.Rank(c), |tree.Children(c)| - i
  {
    if i >= |tree.Children(c)| then []
    else
      ChildRanks(tree, c, i);
      Subtree(tree, tree.Children(c)[i]) + Below(tree, c, i + 1)
  }

  /** A child ranks strictly below its parent and within the tree's height. */
  lemma ChildRanks(tree: Tree, c: Element, i: nat)
    requires tree.Valid() && i < |tree.Children(c)|
    ensures tree.Rank(c) < tree.Rank(tree.Children(c)[i]) <= tree.height
    ensures tree.Parent(tree.Children(c)[i]) == Some(c)
  {
    var x := tree.children[c][i];
    assert x in tree.parent && tree.parent[x] == c;
  }

  /** The elements of `s` that take input, in order. */
  function Inputs(kind: map<Element, ControlKind>, s: seq<Element>): seq<Element>
  {
    if s == [] then []
    else (if TakesInput(kind, s[0]) then [s[0]] else []) + Inputs(kind, s[1..])
  }

  /** An element is hooked as often as it occurs, if it takes input, and
      never otherwise. */
  lemma {:induction false} InputsCount(kind: map<Element, ControlKind>, s: seq<Element>, x: Element)
    ensures multiset(Inputs(kind, s))[x] == if TakesInput(kind, x) then multiset(s)[x] else 0
  {
    if s != [] {
      assert s == [s[0]] + s[1..];
      InputsCount(kind, s[1..], x);
    }
  }

  lemma {:induction false} InputsAppend(kind: map<Element, ControlKind>, a: seq<Element>, b: seq<Element>)
    ensures Inputs(kind, a + b) == Inputs(kind, a) + Inputs(kind, b)
  {
    if a != [] {
      assert (a + b)[0] == a[0] && (a + b)[1..] == a[1..] + b;
      InputsAppend(kind, a[1..], b);
      Assoc(if TakesInput(kind, a[0]) then [a[0]] else [], Inputs(kind, a[1..]), Inputs(kind, b));
    } else {
      assert a + b == b;
    }
  }

  /** One subtree splits into the first child's subtree and the rest. */
  lemma BelowStep(tree: Tree, c: Element, i: nat)
    requires tree.Valid() && i < |tree.Children(c)|
    ensures Below(tree, c, i) == Subtree(tree, tree.Children(c)[i]) + Below(tree, c, i + 1)
  {
  }

  /** Every element of a control's subtree has that control on its parent
      chain: `Initialize` never reaches outside the control it starts from. */
  lemma {:induction false} SubtreeDescends(tree: Tree, c: Element, x: Element)
    requires tree.Valid() && x in Subtree(tree, c)
    ensures c in tree.Up(x)
    decreases tree.height - tree.Rank(c), |tree.Children(c)| + 1
  {
    if x != c {
      BelowDescends(tree, c, 0, x);
    }
  }

  lemma {:induction false} BelowDescends(tree: Tree, c: Element, i: nat, x: Element)
    requires tree.Valid() && x in Below(tree, c, i)
    ensures c in tree.Up(x)
    decreases tree.height - tree.Rank(c), |tree.Children(c)| - i
  {
    ChildRanks(tree, c, i);
    var d := tree.Children(c)[i];
    if x in Subtree(tree, d) {
      SubtreeDescends(tree, d, x);
      tree.UpParent(d);
      assert c in tree.Up(d);
      UpTransitive(tree, x, d, c);
    } else {
      BelowDescends(tree, c, i + 1, x);
    }
  }

  /** An ancestor of an ancestor is an ancestor. */
  lemma {:induction false} UpTransitive(tree: Tree, x: Element, y: Element, z: Element)
    requires tree.Valid() && y in tree.Up(x) && z in tree.Up(y)
    ensures z in tree.Up(x)
    decreases tree.Rank(x)
  {
    if y != x {
      UpTransitive(tree, tree.parent[x], y, z);
    }
  }

  // ---------------------------------------------------------------------
  // Requery coalescing

  /** `_requerySuggested` and the number of live thread timers. */
  datatype RequeryState = RequeryState(suggested: bool, timers: nat)

  const Idle := RequeryState(false, 0)

  /** The flag is set exactly while one timer is live. */
  predicate Consistent(s: RequeryState)
  {
    s.timers == if s.suggested then 1 else 0
  }

  /** What the environment does: a requery request, or a timer tick. */
  datatype TimerEvent = Request | Tick

  /** One event: a request sets a timer only while the flag is clear; a tick
      runs the callback only while a timer is live, and the callback clears the
      flag, kills its timer and broadcasts once. The count is the broadcasts. */
  function Advance(s: RequeryState, ev: TimerEvent): (RequeryState, nat)
  {
    match ev
    case Request => if s.suggested then (s, 0) else (RequeryState(true, s.timers + 1), 0)
    case Tick => if s.timers > 0 then (RequeryState(false, s.timers - 1), 1) else (s, 0)
  }

  /** The state and the number of broadcasts after a sequence of events. */
  function Replay(s: RequeryState, evs: seq<TimerEvent>): (RequeryState, nat)
    decreases |evs|
  {
    if evs == [] then (s, 0)
    else
      var first := Advance(s, evs[0]);
      var rest := Replay(first.0, evs[1..]);
      (rest.0, first.1 + rest.1)
  }

  function Requests(n: nat): (evs: seq<TimerEvent>)
    ensures |evs| == n && forall i | 0 <= i < n :: evs[i] == Request
  {
    seq(n, _ => Request)
  }

  function CountRequests(evs: seq<TimerEvent>): nat
  {
    if evs == [] then 0 else (if evs[0] == Request then 1 else 0) + CountRequests(evs[1..])
  }

  lemma {:induction false} ReplayAppend(s: RequeryState, a: seq<TimerEvent>, b: seq<TimerEvent>)
    ensures Replay(s, a + b) ==
      (Replay(Replay(s, a).0, b).0, Replay(s, a).1 + Replay(Replay(s, a).0, b).1)
    decreases |a|
  {
    if a != [] {
      var first := Advance(s, a[0]);
      assert (a + b)[0] == a[0] && (a + b)[1..] == a[1..] + b;
      ReplayAppend(first.0, a[1..], b);
      assert Replay(s, a) == (Replay(first.0, a[1..]).0, first.1 + Replay(first.0, a[1..]).1);
      assert Replay(s, a + b) == (Replay(first.0, a[1..] + b).0, first.1 + Replay(first.0, a[1..] + b).1);
    } else {
      assert a + b == b;
    }
  }

  /** Any number of requests, from any consistent state, leave the flag set
      and exactly one timer live, and broadcast nothing yet. */
  lemma {:induction false} RequestsCoalesce(s: RequeryState, n: nat)
    requires Consistent(s) && n >= 1
    ensures Replay(s, Requests(n)) == (RequeryState(true, 1), 0)
    decreases n
  {
    if n > 1 {
      assert Requests(n) == [Request] + Requests(n - 1);
      RequestsCoalesce(Advance(s, Request).0, n - 1);
    }
  }

  /** Between two firings, a burst of requests turns into one broadcast, and
      the timer state is back where it started. */
  lemma BurstBroadcastsOnce(n: nat)
    requires n >= 1
    ensures Replay(Idle, Requests(n) + [Tick]) == (Idle, 1)
  {
    ReplayAppend(Idle, Requests(n), [Tick]);
    RequestsCoalesce(Idle, n);
  }

  /** Every sequence of events keeps the flag and the timer in step, and never
      broadcasts more often than it was asked to (plus once for a request
      already pending). */
  lemma {:induction false} ReplayBounded(s: RequeryState, evs: seq<TimerEvent>)
    requires Consistent(s)
    ensures Consistent(Replay(s, evs).0)
    ensures Replay(s, evs).1 <= CountRequests(evs) + (if s.suggested then 1 else 0)
    decreases |evs|
  {
    if evs != [] {
      ReplayBounded(Advance(s, evs[0]).0, evs[1..]);
    }
  }

  /** The static requery state of `CommandManager`. */
  class Requery {
    var suggested: bool
    var timers: nat

    function State(): RequeryState
      reads this
    {
      RequeryState(suggested, timers)
    }

    constructor()
      ensures State() == Idle
    {
      suggested, timers := false, 0;
    }

    /** `InvalidateRequerySuggested`: a timer is set, and the flag raised,
        only when no request is pending. */
    method InvalidateRequerySuggested()
      modifies this
      ensures State() == Advance(old(State()), Request).0
    {
      if !suggested {
        timers := timers + 1;
        suggested := true;
      }
    }

    /** `RequerySuggestedTimerProc`, called by the system for a live timer:
        clear the flag, kill the timer, then raise `CanExecuteChanged` on every
        known routed command. */
    method TimerProc(att: Attachments, reg: Registry, host: Host, ui: Dispatcher, ghost view: ValidView)
      returns (ghost raised: seq<UICommandBase>)
      requires timers > 0 && host.View() == view
      modifies this, att`allUICommands
      modifies att.Raisable()`inRaise, att.Raisable()`lastParameter, att.Raisable()`lastTarget, att.Raisable()`lastResult
      modifies set u | u in att.Raisable() :: u.canExecuteChanged
      modifies host`enabled, ui`trace
      ensures State() == Advance(old(State()), Tick).0
      ensures att.commands == old(att.commands) && Distinct(raised)
      ensures old(att.allUICommands).Some? ==> Elems(raised) == old(att.allUICommands).value
      ensures old(att.allUICommands).None? && att.commands.Some? ==> Elems(raised) == att.UICommands()
    {
      suggested := false;
      timers := timers - 1;
      raised := att.RaiseCanExecuteChangedAllUICommands(reg, host, ui, view);
    }
  }

  // ---------------------------------------------------------------------
  // Key input

  /** The input-binding registry (`CollectionHolder<InputBinding>`). */
  type InputRegistry = CollectionHolder<InputBinding>

  /** Each element's input-binding list. */
  type Keymap = map<Element, seq<InputBinding>>

  function KeyContents(ireg: InputRegistry): Keymap
    reads ireg`collections, ireg.Lists()`items
  {
    if ireg.collections.None? then map[]
    else map c | c in ireg.collections.value :: ireg.collections.value[c].items
  }

  function KeysAt(keys: Keymap, c: Element): seq<InputBinding>
  {
    if c in keys then keys[c] else []
  }

  /** The bindings a keymap holds (the frame of the key functions). */
  function KeyObjects(keys: Keymap): set<InputBinding>
  {
    set c, b | c in keys && b in keys[c] :: b
  }

  /** The position of the first binding whose gesture matches, `|bs|` for none. */
  function FirstKeyBinding(bs: seq<InputBinding>, c: Element, e: KeyStroke): (k: nat)
    reads set b | b in bs
    ensures k <= |bs|
    ensures k < |bs| ==> MatchesKey(bs[k].gesture, c, e)
    ensures forall j | 0 <= j < k :: !MatchesKey(bs[j].gesture, c, e)
  {
    if bs == [] then 0
    else if MatchesKey(bs[0].gesture, c, e) then 0
    else 1 + FirstKeyBinding(bs[1..], c, e)
  }

  /** The position of the first matching gesture, `|gs|` for none. */
  function FirstGesture(gs: seq<InputGesture>, c: Element, e: KeyStroke): (k: nat)
    ensures k <= |gs|
    ensures k < |gs| ==> MatchesKey(gs[k], c, e)
    ensures forall j | 0 <= j < k :: !MatchesKey(gs[j], c, e)
  {
    if gs == [] then 0
    else if MatchesKey(gs[0], c, e) then 0
    else 1 + FirstGesture(gs[1..], c, e)
  }

  /** The routed commands of the command bindings. */
  function RoutedCommands(snap: Snapshot): set<UICommandBase>
  {
    set c, b | c in snap && b in snap[c] && b.command.Routed? :: b.command.ui
  }

  /** What each routed command's gesture list holds. */
  type GestureMap = map<UICommandBase, seq<InputGesture>>

  function GestureMapOf(snap: Snapshot): (gm: GestureMap)
    reads RoutedCommands(snap)`inputGestures
    ensures gm.Keys == RoutedCommands(snap)
  {
    map u | u in RoutedCommands(snap) :: u.Gestures()
  }

  /** The gesture lists are what `gm` says, and every command is sound. */
  ghost predicate Agree(gm: GestureMap)
    reads gm.Keys`inputGestures, gm.Keys`factoryRuns
  {
    forall u | u in gm :: u.Valid() && u.Gestures() == gm[u]
  }

  /** Every routed command of the bindings has its gestures in `gm`. */
  ghost predicate Covers(gm: GestureMap, snap: Snapshot)
  {
    forall c, i | c in snap && 0 <= i < |snap[c]| && snap[c][i].command.Routed? :: snap[c][i].command.ui in gm
  }

  const Nothing := Run(false, [], [])

  /** Two turns one after the other: the calls and the posts of both, and the
      later turn's verdict. */
  function Then(a: Run, b: Run): Run
  {
    Run(b.result, a.calls + b.calls, a.posted + b.posted)
  }

  /** One command binding's turn on `c`: a routed command with a gesture that
      matches runs `ExecuteIfCan(null, c)`, and only the first such gesture
      counts, whatever the outcome. */
  function BindingTurn(tree: Tree, snap: Snapshot, gm: GestureMap, b: CommandBinding, c: Element, e: KeyStroke): Run
    requires tree.Valid()
  {
    if b.command.Routed? && b.command.ui in gm then GesturesTurn(tree, snap, b.command.ui, gm[b.command.ui], c, e)
    else Nothing
  }

  /** A routed command's gestures on `c`: the first that matches runs
      `ExecuteIfCan(null, c)`. */
  function GesturesTurn(tree: Tree, snap: Snapshot, u: UICommandBase, gs: seq<InputGesture>, c: Element,
                        e: KeyStroke): Run
    requires tree.Valid()
  {
    if FirstGesture(gs, c, e) < |gs| then ExecuteIfCanRun(TargetChain(tree, snap, u, c), Null) else Nothing
  }

  /** The command bindings of `c` in order, until one executes. */
  function BindingsTurn(tree: Tree, snap: Snapshot, gm: GestureMap, items: seq<CommandBinding>, c: Element,
                        e: KeyStroke): Run
    requires tree.Valid()
  {
    if items == [] then Nothing
    else
      var t := BindingTurn(tree, snap, gm, items[0], c, e);
      if t.result then t else Then(t, BindingsTurn(tree, snap, gm, items[1..], c, e))
  }

  /** One element's turn: its first matching input binding is posted and
      claims the key; otherwise its command bindings are tried. */
  function ElementTurn(tree: Tree, snap: Snapshot, gm: GestureMap, keys: Keymap, c: Element, e: KeyStroke): Run
    requires tree.Valid()
    reads KeyObjects(keys)
  {
    var bs := KeysAt(keys, c);
    var k := FirstKeyBinding(bs, c, e);
    if k < |bs| then Run(true, [], [RunExecuteCommand(bs[k], c)])
    else BindingsTurn(tree, snap, gm, BindingsOf(snap, c), c, e)
  }

  /** The walk up the parent chain until an element claims the key. */
  function Walk(tree: Tree, snap: Snapshot, gm: GestureMap, keys: Keymap, path: seq<Element>, e: KeyStroke): Run
    requires tree.Valid()
    reads KeyObjects(keys)
  {
    if path == [] then Nothing
    else
      var t := ElementTurn(tree, snap, gm, keys, path[0], e);
      if t.result then t else Then(t, Walk(tree, snap, gm, keys, path[1..], e))
  }

  /** `ProcessInput(target, e)`: a null sender claims nothing. */
  function ProcessRun(tree: Tree, snap: Snapshot, gm: GestureMap, keys: Keymap, target: Option<Element>,
                      e: KeyStroke): Run
    requires tree.Valid()
    reads KeyObjects(keys)
  {
    if target.None? then Nothing else Walk(tree, snap, gm, keys, tree.Up(target.value), e)
  }

  lemma ThenAssoc(a: Run, b: Run, c: Run)
    ensures Then(Then(a, b), c) == Then(a, Then(b, c))
  {
    Assoc(a.calls, b.calls, c.calls);
    Assoc(a.posted, b.posted, c.posted);
  }

  lemma ThenNothing(a: Run)
    ensures Then(Nothing, a) == a
    ensures Then(a, Nothing) == Run(false, a.calls, a.posted)
  {
    Whole(a.calls);
    Whole(a.posted);
  }

  /** The dispatcher after the turns `acc` and then `t`. */
  lemma Extend(trace: seq<Call>, queue: seq<Work>, acc: Run, t: Run)
    ensures (trace + acc.calls) + t.calls == trace + Then(acc, t).calls
    ensures (queue + acc.posted) + t.posted == queue + Then(acc, t).posted
  {
    Assoc(trace, acc.calls, t.calls);
    Assoc(queue, acc.posted, t.posted);
  }

  /** The key is claimed exactly when some element on the path claims it on
      its own turn. */
  lemma {:induction false} WalkClaims(tree: Tree, snap: Snapshot, gm: GestureMap, keys: Keymap,
                                      path: seq<Element>, e: KeyStroke)
    requires tree.Valid()
    ensures Walk(tree, snap, gm, keys, path, e).result <==>
      exists i | 0 <= i < |path| :: ElementTurn(tree, snap, gm, keys, path[i], e).result
  {
    if path != [] {
      WalkClaims(tree, snap, gm, keys, path[1..], e);
      if ElementTurn(tree, snap, gm, keys, path[0], e).result {
        assert 0 < |path|;
      } else {
        forall i | 1 <= i < |path|
          ensures path[i] == path[1..][i - 1]
        {
        }
        if exists i | 0 <= i < |path| :: ElementTurn(tree, snap, gm, keys, path[i], e).result {
          var i :| 0 <= i < |path| && ElementTurn(tree, snap, gm, keys, path[i], e).result;
          assert ElementTurn(tree, snap, gm, keys, path[1..][i - 1], e).result;
        }
      }
    }
  }

  /** A key that no input binding and no routed command's gesture on the path
      matches runs nothing and posts nothing. */
  lemma {:induction false} UnmatchedKeyRunsNothing(tree: Tree, snap: Snapshot, gm: GestureMap, keys: Keymap,
                                                 path: seq<Element>, e: KeyStroke)
    requires tree.Valid()
    requires forall c, b | c in path && b in KeysAt(keys, c) :: !MatchesKey(b.gesture, c, e)
    requires forall c, u, g | c in path && u in gm && g in gm[u] :: !MatchesKey(g, c, e)
    ensures Walk(tree, snap, gm, keys, path, e) == Nothing
  {
    if path != [] {
      var c := path[0];
      assert c in path;
      BindingsUnmatched(tree, snap, gm, BindingsOf(snap, c), c, e);
      UnmatchedKeyRunsNothing(tree, snap, gm, keys, path[1..], e);
      ThenNothing(Nothing);
    }
  }

  lemma {:induction false} BindingsUnmatched(tree: Tree, snap: Snapshot, gm: GestureMap, items: seq<CommandBinding>,
                                             c: Element, e: KeyStroke)
    requires tree.Valid()
    requires forall u, g | u in gm && g in gm[u] :: !MatchesKey(g, c, e)
    ensures BindingsTurn(tree, snap, gm, items, c, e) == Nothing
  {
    if items != [] {
      var b := items[0];
      if b.command.Routed? && b.command.ui in gm {
        var gs := gm[b.command.ui];
        var k := FirstGesture(gs, c, e);
      }
      BindingsUnmatched(tree, snap, gm, items[1..], c, e);
      ThenNothing(Nothing);
    }
  }

  /** A binding list made of mouse bindings never claims a key. */
  lemma MouseBindingsNeverClaim(bs: seq<InputBinding>, c: Element, e: KeyStroke)
    requires forall b | b in bs :: b.gesture.MouseGesture?
    ensures FirstKeyBinding(bs, c, e) == |bs|
  {
  }

  lemma KeyContentsOf(ireg: InputRegistry, c: Element)
    ensures KeysAt(KeyContents(ireg), c) ==
      if ireg.TryGetCollection(c).Some? then ireg.TryGetCollection(c).value.items else []
  {
  }

  /** `KeyEventArgs`: the stroke, and the two flags a handler may set. */
  class KeyEventArgs {
    const stroke: KeyStroke
    var handled: bool
    var suppressKeyPress: bool

    constructor(stroke: KeyStroke)
      ensures this.stroke == stroke && !handled && !suppressKeyPress
    {
      this.stroke := stroke;
      handled, suppressKeyPress := false, false;
    }

    /** The `SuppressKeyPress` setter, which sets `Handled` to the same value. */
    method SetSuppressKeyPress(value: bool)
      modifies this`handled, this`suppressKeyPress
      ensures suppressKeyPress == value && handled == value
    {
      suppressKeyPress := value;
      handled := value;
    }
  }

  /** What a key press reads and leaves as it is: the registries, the host,
      and the values they hold when the key arrives. */
  datatype Scene = Scene(ireg: InputRegistry, reg: Registry, host: Host, view: ValidView, snap: Snapshot,
                         keys: Keymap, gm: GestureMap)

  ghost predicate Held(sc: Scene)
    reads sc.host, sc.reg, sc.reg.Lists(), sc.ireg, sc.ireg.Lists(), sc.gm.Keys
  {
    && sc.host.View() == sc.view && Contents(sc.reg) == sc.snap && KeyContents(sc.ireg) == sc.keys
    && Agree(sc.gm) && Covers(sc.gm, sc.snap)
  }

  /** The `foreach` over one element's input bindings. */
  method MatchInput(ireg: InputRegistry, c: Element, e: KeyStroke, ghost sc: Scene) returns (found: Option<InputBinding>)
    requires sc.ireg == ireg && Held(sc)
    ensures Held(sc)
    ensures var bs := old(KeysAt(KeyContents(ireg), c));
      var k := old(FirstKeyBinding(bs, c, e));
      found == if k < |bs| then Some(bs[k]) else None
  {
    KeyContentsOf(ireg, c);
    var list := ireg.TryGetCollection(c);
    if list.None? {
      return None;
    }
    var items := list.value.items;
    var i := 0;
    while i < |items|
      invariant 0 <= i <= |items|
      invariant forall j | 0 <= j < i :: !MatchesKey(items[j].gesture, c, e)
    {
      if MatchesKey(items[i].gesture, c, e) {
        return Some(items[i]);
      }
      i := i + 1;
    }
    return None;
  }

  /** The `foreach` over a command's gestures, up to the first that matches. */
  method FindGesture(gs: seq<InputGesture>, c: Element, e: KeyStroke) returns (k: nat)
    ensures k == FirstGesture(gs, c, e)
  {
    k := 0;
    while k < |gs|
      invariant 0 <= k <= |gs|
      invariant forall j | 0 <= j < k :: !MatchesKey(gs[j], c, e)
    {
      if MatchesKey(gs[k], c, e) {
        return;
      }
      k := k + 1;
    }
  }

  /** `TryGetInputGestures` on a command of the bindings: what it gives is the
      command's gesture list, found or not. */
  method Gather(u: UICommandBase, ghost sc: Scene) returns (gestures: seq<InputGesture>)
    requires u in sc.gm && Held(sc)
    modifies u`inputGestures, u`factoryRuns
    ensures Held(sc) && gestures == sc.gm[u]
  {
    var found;
    found, gestures := u.TryGetInputGestures();
  }

  /** `ExecuteIfCan(null, c)` for a command whose gesture matched. */
  method ExecuteAt(u: UICommandBase, c: Element, reg: Registry, host: Host, ui: Dispatcher, ghost sc: Scene)
    returns (r: bool)
    requires sc.reg == reg && sc.host == host && Held(sc)
    modifies ui`trace, ui`queue
    ensures Held(sc)
    ensures var run := ExecuteIfCanRun(TargetChain(sc.view.tree, sc.snap, u, c), Null);
      r == run.result && ui.trace == old(ui.trace) + run.calls && ui.queue == old(ui.queue) + run.posted
  {
    r := ExecuteIfCan(u, reg, host, ui, Null, Some(c), sc.view);
  }

  /** A routed command's gestures on `c`: on the first match, `ExecuteIfCan`,
      and the `break` after it whatever it answers. */
  method TryGestures(u: UICommandBase, gs: seq<InputGesture>, c: Element, e: KeyStroke, reg: Registry, host: Host,
                     ui: Dispatcher, ghost sc: Scene) returns (r: bool)
    requires sc.reg == reg && sc.host == host && Held(sc)
    modifies ui`trace, ui`queue
    ensures Held(sc)
    ensures var t := GesturesTurn(sc.view.tree, sc.snap, u, gs, c, e);
      r == t.result && ui.trace == old(ui.trace) + t.calls && ui.queue == old(ui.queue) + t.posted
  {
    var k := FindGesture(gs, c, e);
    if k < |gs| {
      r := ExecuteAt(u, c, reg, host, ui, sc);
    } else {
      r := false;
    }
  }

  /** One command binding's turn: a command that is not a routed one is passed over. */
  method BindingTurnOf(b: CommandBinding, c: Element, e: KeyStroke, reg: Registry, host: Host, ui: Dispatcher,
                       ghost sc: Scene) returns (r: bool)
    requires sc.reg == reg && sc.host == host && Held(sc)
    requires b.command.Routed? ==> b.command.ui in sc.gm
    modifies ui`trace, ui`queue, sc.gm.Keys`inputGestures, sc.gm.Keys`factoryRuns
    ensures Held(sc)
    ensures var t := BindingTurn(sc.view.tree, sc.snap, sc.gm, b, c, e);
      r == t.result && ui.trace == old(ui.trace) + t.calls && ui.queue == old(ui.queue) + t.posted
  {
    if !b.command.Routed? {
      return false;
    }
    var u := b.command.ui;
    var gestures := Gather(u, sc);
    r := TryGestures(u, gestures, c, e, reg, host, ui, sc);
  }

  /** The `foreach` over one element's command bindings. */
  method BindingsTurnOf(c: Element, e: KeyStroke, reg: Registry, host: Host, ui: Dispatcher, ghost sc: Scene)
    returns (r: bool)
    requires sc.reg == reg && sc.host == host && Held(sc)
    modifies ui`trace, ui`queue, sc.gm.Keys`inputGestures, sc.gm.Keys`factoryRuns
    ensures Held(sc)
    ensures var t := BindingsTurn(sc.view.tree, sc.snap, sc.gm, BindingsOf(sc.snap, c), c, e);
      r == t.result && ui.trace == old(ui.trace) + t.calls && ui.queue == old(ui.queue) + t.posted
  {
    ContentsOf(reg, c);
    var list := reg.TryGetCollection(c);
    if list.None? {
      return false;
    }
    var items := list.value.items;
    ghost var goal := BindingsTurn(sc.view.tree, sc.snap, sc.gm, items, c, e);
    ghost var acc := Nothing;
    ThenNothing(goal);
    var i := 0;
    while i < |items|
      invariant 0 <= i <= |items|
      invariant Held(sc)
      invariant goal == Then(acc, BindingsTurn(sc.view.tree, sc.snap, sc.gm, items[i..], c, e))
      invariant ui.trace == old(ui.trace) + acc.calls && ui.queue == old(ui.queue) + acc.posted
    {
      ghost var t := BindingTurn(sc.view.tree, sc.snap, sc.gm, items[i], c, e);
      DropFirst(items, i);
      Extend(old(ui.trace), old(ui.queue), acc, t);
      assert items[i] in sc.snap[c];
      r := BindingTurnOf(items[i], c, e, reg, host, ui, sc);
      if r {
        return;
      }
      ThenAssoc(acc, t, BindingsTurn(sc.view.tree, sc.snap, sc.gm, items[i + 1..], c, e));
      acc := Then(acc, t);
      i := i + 1;
    }
    ThenNothing(acc);
    Whole(items);
    return false;
  }

  /** One element's turn of `ProcessInput`. */
  method ElementTurnOf(c: Element, e: KeyStroke, ireg: InputRegistry, reg: Registry, host: Host, ui: Dispatcher,
                       ghost sc: Scene) returns (r: bool)
    requires sc.ireg == ireg && sc.reg == reg && sc.host == host && Held(sc)
    modifies ui`trace, ui`queue, sc.gm.Keys`inputGestures, sc.gm.Keys`factoryRuns
    ensures Held(sc)
    ensures var t := old(ElementTurn(sc.view.tree, sc.snap, sc.gm, sc.keys, c, e));
      r == t.result && ui.trace == old(ui.trace) + t.calls && ui.queue == old(ui.queue) + t.posted
  {
    var found := MatchInput(ireg, c, e, sc);
    if found.Some? {
      ui.Post(RunExecuteCommand(found.value, c));
      return true;
    }
    r := BindingsTurnOf(c, e, reg, host, ui, sc);
  }

  /** `ProcessInput`: from the target up the parent chain, each element's
      turn, until one claims the key. */
  method ProcessInput(target: Option<Element>, e: KeyStroke, ireg: InputRegistry, reg: Registry, host: Host,
                      ui: Dispatcher, ghost view: ValidView, ghost gm: GestureMap) returns (r: bool)
    requires host.View() == view && Agree(gm) && Covers(gm, Contents(reg))
    modifies ui`trace, ui`queue, gm.Keys`inputGestures, gm.Keys`factoryRuns
    ensures Agree(gm)
    ensures var run := old(ProcessRun(view.tree, Contents(reg), gm, KeyContents(ireg), target, e));
      r == run.result && ui.trace == old(ui.trace) + run.calls && ui.queue == old(ui.queue) + run.posted
  {
    ghost var sc := Scene(ireg, reg, host, view, Contents(reg), KeyContents(ireg), gm);
    var t := target;
    ghost var rest := if t.Some? then view.tree.Up(t.value) else [];
    ghost var goal := ProcessRun(view.tree, sc.snap, gm, sc.keys, target, e);
    ghost var acc := Nothing;
    ThenNothing(goal);
    while t.Some?
      invariant Held(sc)
      invariant rest == if t.Some? then view.tree.Up(t.value) else []
      invariant goal == Then(acc, old(Walk(view.tree, sc.snap, gm, sc.keys, rest, e)))
      invariant ui.trace == old(ui.trace) + acc.calls && ui.queue == old(ui.queue) + acc.posted
      decreases |rest|
    {
      ghost var turn := old(ElementTurn(view.tree, sc.snap, gm, sc.keys, t.value, e));
      Extend(old(ui.trace), old(ui.queue), acc, turn);
      r := ElementTurnOf(t.value, e, ireg, reg, host, ui, sc);
      if r {
        return;
      }
      view.tree.UpParent(t.value);
      ThenAssoc(acc, turn, old(Walk(view.tree, sc.snap, gm, sc.keys, rest[1..], e)));
      acc := Then(acc, turn);
      rest := rest[1..];
      t := host.tree.Parent(t.value);
    }
    ThenNothing(acc);
    return false;
  }

  /** `ExecuteCommand(commandSource, target)`, the work an input binding
      posts: a routed command executes on the binding's target, or on the
      element that claimed the key; any other command executes only when it
      says it can. A binding whose command is null fails on the call. */
  method ExecuteCommand(binding: InputBinding, target: Element, reg: Registry, host: Host, ui: Dispatcher,
                        ghost view: ValidView) returns (r: Outcome)
    requires host.View() == view
    modifies ui`trace, ui`queue
    modifies if binding.command.Some? && binding.command.value.Simple? then {binding.command.value.app} else {}
    ensures binding.command.None? ==> r == Fail(NullReference) && ui.trace == old(ui.trace) && ui.queue == old(ui.queue)
    ensures binding.command.Some? ==> r == Done
    ensures binding.command.Some? && binding.command.value.Routed? ==>
      var run := ExecuteRun(TargetChain(view.tree, old(Contents(reg)), binding.command.value.ui,
                                        binding.commandTarget.OrElse(target)), binding.commandParameter);
      ui.trace == old(ui.trace) + run.calls && ui.queue == old(ui.queue) + run.posted
    ensures binding.command.Some? && binding.command.value.Simple? ==>
      var app := binding.command.value.app;
      var p := binding.commandParameter;
      && app.canExecuteCalls == old(app.canExecuteCalls) + [p]
      && app.executeCalls == old(app.executeCalls) + (if app.answer(p) then [p] else [])
      && ui.trace == old(ui.trace) && ui.queue == old(ui.queue)
  {
    if binding.command.None? {
      return Fail(NullReference);
    }
    var parameter := binding.commandParameter;
    if binding.command.value.Routed? {
      Execute(binding.command.value.ui, reg, host, ui, parameter, Some(binding.commandTarget.OrElse(target)), view);
    } else {
      var app := binding.command.value.app;
      var can := app.CanExecute(parameter);
      if can {
        app.Execute(parameter);
      }
    }
    return Done;
  }

  /** The command manager of one form: the event subscriptions it has made,
      one entry per `+=`, in the order they were made. */
  class CommandManager {
    var gotFocus: seq<Element>
    var keyDown: seq<Element>
    var controlAdded: seq<Element>

    constructor()
      ensures gotFocus == [] && keyDown == [] && controlAdded == []
    {
      gotFocus, keyDown, controlAdded := [], [], [];
    }

    /** `Initialize(control, ...)`: the control, then each child in turn. */
    method Initialize(host: Host, c: Element)
      requires host.tree.Valid()
      modifies this
      ensures gotFocus == old(gotFocus) + Inputs(host.kind, Subtree(host.tree, c))
      ensures keyDown == old(keyDown) + Inputs(host.kind, Subtree(host.tree, c))
      ensures controlAdded == old(controlAdded) + Subtree(host.tree, c)
      decreases host.tree.height - host.tree.Rank(c), |host.tree.Children(c)| + 1
    {
      if TakesInput(host.kind, c) {
        gotFocus := gotFocus + [c];
        keyDown := keyDown + [c];
      }
      controlAdded := controlAdded + [c];
      ghost var seen := [c];
      assert Inputs(host.kind, seen) == if TakesInput(host.kind, c) then [c] else [];
      var children := host.tree.Children(c);
      var i := 0;
      while i < |children|
        invariant 0 <= i <= |children|
        invariant seen + Below(host.tree, c, i) == Subtree(host.tree, c)
        invariant gotFocus == old(gotFocus) + Inputs(host.kind, seen)
        invariant keyDown == old(keyDown) + Inputs(host.kind, seen)
        invariant controlAdded == old(controlAdded) + seen
      {
        ChildRanks(host.tree, c, i);
        BelowStep(host.tree, c, i);
        ghost var sub := Subtree(host.tree, children[i]);
        InputsAppend(host.kind, seen, sub);
        Assoc(seen, sub, Below(host.tree, c, i + 1));
        Assoc(old(gotFocus), Inputs(host.kind, seen), Inputs(host.kind, sub));
        Assoc(old(keyDown), Inputs(host.kind, seen), Inputs(host.kind, sub));
        Assoc(old(controlAdded), seen, sub);
        Initialize(host, children[i]);
        seen := seen + sub;
        i := i + 1;
      }
      Whole(seen);
    }

    /** `Control_ControlAdded`: a control added later is hooked like the
        ones present at construction. */
    method OnControlAdded(host: Host, control: Option<Element>)
      requires host.tree.Valid()
      modifies this
      ensures control.None? ==> gotFocus == old(gotFocus) && keyDown == old(keyDown) && controlAdded == old(controlAdded)
      ensures control.Some? ==>
        && gotFocus == old(gotFocus) + Inputs(host.kind, Subtree(host.tree, control.value))
        && keyDown == old(keyDown) + Inputs(host.kind, Subtree(host.tree, control.value))
        && controlAdded == old(controlAdded) + Subtree(host.tree, control.value)
    {
      if control.Some? {
        Initialize(host, control.value);
      }
    }

    /** `Control_GotFocus` */
    method OnGotFocus(requery: Requery)
      modifies requery
      ensures requery.State() == Advance(old(requery.State()), Request).0
    {
      requery.InvalidateRequerySuggested();
    }

    /** `Control_KeyDown`: a key already handled is left alone; otherwise
        whether `ProcessInput` claims it decides `SuppressKeyPress`. */
    method OnKeyDown(sender: Option<Element>, args: KeyEventArgs, ireg: InputRegistry, reg: Registry, host: Host,
                     ui: Dispatcher, ghost view: ValidView, ghost gm: GestureMap)
      requires host.View() == view && Agree(gm) && Covers(gm, Contents(reg))
      modifies args`handled, args`suppressKeyPress, ui`trace, ui`queue, gm.Keys`inputGestures, gm.Keys`factoryRuns
      ensures old(args.handled) ==>
        && args.suppressKeyPress == old(args.suppressKeyPress) && args.handled
        && ui.trace == old(ui.trace) && ui.queue == old(ui.queue)
      ensures !old(args.handled) ==>
        var run := old(ProcessRun(view.tree, Contents(reg), gm, KeyContents(ireg), sender, args.stroke));
        && args.suppressKeyPress == run.result && args.handled == run.result
        && ui.trace == old(ui.trace) + run.calls && ui.queue == old(ui.queue) + run.posted
    {
      if !args.handled {
        var claimed := ProcessInput(sender, args.stroke, ireg, reg, host, ui, view, gm);
        args.SetSuppressKeyPress(claimed);
      }
    }
  }

  /** `new CommandManager(form)`: a null form is refused; otherwise the form
      and everything on it is hooked. */
  method NewCommandManager(host: Host, form: Option<Element>) returns (r: Result<CommandManager>)
    requires host.tree.Valid()
    requires form.Some? ==> IsForm(host.kind, form.value)
    ensures form.None? <==> r == Err(ArgumentNull("form"))
    ensures r.Ok? ==>
      && fresh(r.value)
      && r.value.gotFocus == Inputs(host.kind, Subtree(host.tree, form.value))
      && r.value.keyDown == Inputs(host.kind, Subtree(host.tree, form.value))
      && r.value.controlAdded == Subtree(host.tree, form.value)
  {
    if form.None? {
      return Err(ArgumentNull("form"));
    }
    var m := new CommandManager();
    m.Initialize(host, form.value);
    return Ok(m);
  }

  /** The form itself never receives `GotFocus` or `KeyDown`, and every
      element of its subtree receives `ControlAdded`. */
  lemma FormHooks(host: HostView, form: Element)
    requires host.tree.Valid() && IsForm(host.kind, form)
    ensures form !in Inputs(host.kind, Subtree(host.tree, form))
    ensures forall x | x in Subtree(host.tree, form) && TakesInput(host.kind, x) :: x in Inputs(host.kind, Subtree(host.tree, form))
  {
    var s := Subtree(host.tree, form);
    InputsCount(host.kind, s, form);
    forall x | x in s && TakesInput(host.kind, x)
      ensures x in Inputs(host.kind, s)
    {
      InputsCount(host.kind, s, x);
    }
  }

}
