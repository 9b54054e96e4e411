/** The handlers that tie a command to a button, a tool-strip item, a menu
    item or a tool-bar button: they keep the component's `Enabled` in step with
    `CanExecute`, execute the command on a click and let go of everything when
    the component is disposed. */
module CommandHandlers {
  import opened Wrappers
  import opened Host
  import opened Commands
  import opened WeakEvents
  import opened UiThread
  import opened FormExtensions
  import opened RoutingSpec
  import opened Routing
  import opened Seqs

  /** The component kinds a command can be attached to. */
  datatype AdapterKind = ButtonAdapter | ToolStripItemAdapter | MenuItemAdapter | ToolBarButtonAdapter

  /** The component events a handler listens to. */
  datatype ComponentEvent = Click | VisibleChanged | Disposed | ButtonClick

  /** The handler methods those events are delivered to. */
  datatype HandlerMethod =
    | OnExecuteMethod
    | OnCanExecuteChangedMethod
    | OnDisposedMethod
    | MenuItemDisposedMethod
    | ToolBarButtonClickMethod

  /** One subscription of a handler method to an event of a component. */
  datatype Hook = Hook(source: Element, event: ComponentEvent, handler: HandlerMethod)

  /** The method id of the delegate a handler puts on its command's
      `CanExecuteChanged`. */
  const OnCanExecuteChangedId: nat := 1

  /** What a handler's constructor subscribes; `parent` is the tool bar of a
      tool-bar button. */
  function Subscriptions(kind: AdapterKind, element: Element, parent: Element): set<Hook>
  {
    match kind
    case ButtonAdapter =>
      {Hook(element, Click, OnExecuteMethod), Hook(element, VisibleChanged, OnCanExecuteChangedMethod),
       Hook(element, Disposed, OnDisposedMethod)}
    case ToolStripItemAdapter =>
      {Hook(element, Click, OnExecuteMethod), Hook(element, VisibleChanged, OnCanExecuteChangedMethod),
       Hook(element, Disposed, OnDisposedMethod)}
    case MenuItemAdapter =>
      {Hook(element, Click, OnExecuteMethod), Hook(element, Disposed, MenuItemDisposedMethod)}
    case ToolBarButtonAdapter =>
      {Hook(parent, ButtonClick, ToolBarButtonClickMethod), Hook(parent, VisibleChanged, OnCanExecuteChangedMethod),
       Hook(element, Disposed, OnDisposedMethod)}
  }

  /** What `DetachComponentEvents` unsubscribes. A menu item that is being
      disposed keeps its `Click` subscription, since removing it then fails. */
  function Unsubscriptions(kind: AdapterKind, element: Element, parent: Element, disposing: bool): set<Hook>
  {
    match kind
    case MenuItemAdapter =>
      (if disposing then {} else {Hook(element, Click, OnExecuteMethod)})
      + {Hook(element, Disposed, MenuItemDisposedMethod)}
    case _ => Subscriptions(kind, element, parent)
  }

  /** `DetachComponentEvents` of the menu-item handler as the source has it:
      it removes `OnDisposed`, which it never subscribed, instead of
      `MenuItem_Disposed`. */
  function MenuItemUnsubscriptionsAsWritten(element: Element, disposing: bool): set<Hook>
  {
    (if disposing then {} else {Hook(element, Click, OnExecuteMethod)})
    + {Hook(element, Disposed, OnDisposedMethod)}
  }

  /** Detaching a handler that is not being disposed removes every
      subscription its constructor made; while a menu item is being disposed
      only its `Click` subscription stays. */
  lemma DetachUndoesAttach(kind: AdapterKind, element: Element, parent: Element)
    ensures Subscriptions(kind, element, parent) - Unsubscriptions(kind, element, parent, false) == {}
    ensures Subscriptions(kind, element, parent) - Unsubscriptions(kind, element, parent, true)
         == if kind == MenuItemAdapter then {Hook(element, Click, OnExecuteMethod)} else {}
  {
  }

  /** As written, detaching a menu-item handler leaves `MenuItem_Disposed`
      subscribed, so the menu item keeps the old handler alive, and disposing
      the menu item later runs that handler's `MenuItem_Disposed`, and with it
      its `DetachEvents`, a second time. */
  lemma MenuItemDetachAsWrittenKeepsDisposedHook(element: Element, disposing: bool)
    ensures Subscriptions(MenuItemAdapter, element, element) - MenuItemUnsubscriptionsAsWritten(element, disposing)
         == {Hook(element, Disposed, MenuItemDisposedMethod)}
            + (if disposing then {Hook(element, Click, OnExecuteMethod)} else {})
  {
  }

  /** The channel objects whose state a handler's delegate lives in. */
  function Channels(command: Command): set<WeakEventHandler>
  {
    if command.Routed? then {command.ui.canExecuteChanged} else {}
  }

  function Apps(command: Command): set<SimpleCommand>
  {
    if command.Simple? then {command.app} else {}
  }

  function RoutedCommands(command: Command): set<UICommandBase>
  {
    if command.Routed? then {command.ui} else {}
  }

  /** The raise flag and the memo of a routed command. */
  function RaiseFlag(command: Command): bool
    reads RoutedCommands(command)`inRaise
  {
    command.Routed? && command.ui.inRaise
  }

  function CommandMemo(command: Command): Memo
    reads RoutedCommands(command)`lastParameter, RoutedCommands(command)`lastTarget
    reads RoutedCommands(command)`lastResult
  {
    if command.Routed? then MemoOf(command.ui) else Memo(Null, None, false)
  }

  /** What `DetachEvents` leaves behind: the handler's own hooks on its
      component gone, and its delegate off the command's channel. */
  twostate predicate Detached(h: CommandHandler)
    reads h`hooks, h`disposing, Channels(h.command)`entries, Channels(h.command)`table, Apps(h.command)`listeners
  {
    && h.hooks == old(h.hooks) - Unsubscriptions(h.kind, h.element, h.parent, old(h.disposing))
    && (h.command.Routed? ==>
          && h.command.ui.canExecuteChanged.entries
             == RemoveFirstLive(old(h.command.ui.canExecuteChanged.entries), h.Delegate())
          && h.command.ui.canExecuteChanged.table
             == RemoveFromTable(old(h.command.ui.canExecuteChanged.table), h, h.Delegate()))
    && (h.command.Simple? ==> h.command.app.listeners == RemoveLast(old(h.command.app.listeners), h.Delegate()))
  }

  /** What a handler's constructor does to its command: the handler's
      delegate appended, alive, to the command's listeners. */
  twostate predicate Subscribed(command: Command, new h: CommandHandler)
    reads Channels(command)`entries, Channels(command)`table, Apps(command)`listeners
  {
    && (command.Routed? ==>
          && command.ui.canExecuteChanged.entries
             == old(command.ui.canExecuteChanged.entries) + [WeakRef(h.Delegate(), true)]
          && command.ui.canExecuteChanged.table
             == AddToTable(old(command.ui.canExecuteChanged.table), h, h.Delegate()))
    && (command.Simple? ==> command.app.listeners == old(command.app.listeners) + [h.Delegate()])
  }

  /** A command whose listeners are as they were. */
  twostate predicate Unsubscribed(command: Command)
    reads Channels(command)`entries, Channels(command)`table, Apps(command)`listeners
  {
    && (command.Routed? ==>
          && command.ui.canExecuteChanged.entries == old(command.ui.canExecuteChanged.entries)
          && command.ui.canExecuteChanged.table == old(command.ui.canExecuteChanged.table))
    && (command.Simple? ==> command.app.listeners == old(command.app.listeners))
  }

  /** The `enabled` set after `SetEnabled(value)` on element `c`. */
  function Enabling(enabled: set<Element>, c: Element, value: bool): set<Element>
  {
    if value then enabled + {c} else enabled - {c}
  }

  /** Subscribing a fresh delegate and removing it again leaves the live
      subscribers of a weak channel as they were. */
  lemma {:induction false} AttachThenDetach(entries: seq<WeakRef>, h: EventHandler)
    requires h !in LiveHandlers(entries)
    ensures LiveHandlers(RemoveFirstLive(entries + [WeakRef(h, true)], h)) == LiveHandlers(entries)
  {
    RemoveDropsOneCall(entries + [WeakRef(h, true)], h);
    AddedHandlerCalledLast(entries, h);
    RemoveFirstOfAppended(LiveHandlers(entries), h);
  }

  lemma {:induction false} RemoveFirstOfAppended(hs: seq<EventHandler>, h: EventHandler)
    requires h !in hs
    ensures RemoveFirst(hs + [h], h) == hs
  {
    if hs != [] {
      assert (hs + [h])[1..] == hs[1..] + [h];
      RemoveFirstOfAppended(hs[1..], h);
    }
  }

  /** `CommandHandler` with its four subclasses, told apart by `kind`. */
  class CommandHandler {
    const kind: AdapterKind
    /** The component (`_button`, `_item`, `_menuItem`). */
    const element: Element
    /** `_parent` of a tool-bar button handler: the tool bar when the handler
        was made; the component itself for the other kinds. */
    const parent: Element
    const command: Command
    const parameter: Param
    const target: Option<Element>
    /** `_disposing` of the menu-item handler. */
    var disposing: bool
    /** The component events currently delivering to this handler. */
    var hooks: set<Hook>

    /** The delegate on the command's `CanExecuteChanged`. */
    function Delegate(): EventHandler
    {
      EventHandler(this, OnCanExecuteChangedId)
    }

    constructor(kind: AdapterKind, element: Element, parent: Element, command: Command,
                parameter: Param, target: Option<Element>)
      modifies Channels(command)`entries, Channels(command)`table, Apps(command)`listeners
      ensures this.kind == kind && this.element == element && this.parent == parent
      ensures this.command == command && this.parameter == parameter && this.target == target
      ensures !disposing && hooks == Subscriptions(kind, element, parent)
      ensures Subscribed(command, this)
    {
      this.kind := kind;
      this.element := element;
      this.parent := parent;
      this.command := command;
      this.parameter := parameter;
      this.target := target;
      disposing := false;
      hooks := Subscriptions(kind, element, parent);
      new;
      match command {
        case Routed(ui) =>
          ui.canExecuteChanged.AddHandler(Some(EventHandler(this, OnCanExecuteChangedId)));
        case Simple(app) =>
          app.AddListener(EventHandler(this, OnCanExecuteChangedId));
      }
    }

    /** The base-class constructor on its own: the fields and the delegate on
        the command's `CanExecuteChanged`, with no component hook yet. A
        tool-bar button handler is left in this state when its constructor
        throws on a button that is on no tool bar; `parent` then stands for
        the null `_parent`, and only the `Disposed` hook would have used it. */
    constructor Unhooked(kind: AdapterKind, element: Element, command: Command,
                         parameter: Param, target: Option<Element>)
      modifies Channels(command)`entries, Channels(command)`table, Apps(command)`listeners
      ensures this.kind == kind && this.element == element && this.parent == element
      ensures this.command == command && this.parameter == parameter && this.target == target
      ensures !disposing && hooks == {}
      ensures Subscribed(command, this)
    {
      this.kind := kind;
      this.element := element;
      this.parent := element;
      this.command := command;
      this.parameter := parameter;
      this.target := target;
      disposing := false;
      hooks := {};
      new;
      match command {
        case Routed(ui) =>
          ui.canExecuteChanged.AddHandler(Some(EventHandler(this, OnCanExecuteChangedId)));
        case Simple(app) =>
          app.AddListener(EventHandler(this, OnCanExecuteChangedId));
      }
    }

    /** `Available`: a menu item has no `VisibleChanged` and is always
        refreshed; the other components only while visible. */
    predicate Available(v: HostView)
    {
      kind == MenuItemAdapter || element in v.visible
    }

    /** `SourceControl`: the button itself, the owner of a tool-strip item,
        the tool bar a tool-bar button is on now, nothing for a menu item. */
    function SourceControl(v: HostView): Option<Element>
    {
      match kind
      case ButtonAdapter => Some(element)
      case MenuItemAdapter => None
      case _ => if element in v.owner then Some(v.owner[element]) else None
    }

    /** The target handed to the command: the explicit target, else the
        focused control of the form the source control is on. */
    ghost function TargetOf(v: HostView): Option<Element>
      requires v.Valid()
    {
      if target.Some? then target
      else
        var source := SourceControl(v);
        if source.None? then None
        else
          var form := v.tree.FindForm(Forms(v.kind), source.value);
          if form.None? then None else Descent(v.tree, v.kind, v.activeControl, form.value)
    }

    method GetTarget(host: Host) returns (t: Option<Element>)
      requires host.Valid()
      ensures t == TargetOf(host.View())
      ensures target.Some? ==> t == target
      ensures target.None? && SourceControl(host.View()).None? ==> t == None
    {
      if target.Some? {
        return target;
      }
      var source := SourceControl(host.View());
      if source.None? {
        return None;
      }
      var form := host.tree.FindForm(Forms(host.kind), source.value);
      if form.None? {
        return None;
      }
      t := GetActiveControl(host, form.value);
    }

    /** What the handler's question answers when its command's raise flag
        and memo are `inRaise` and `m`: the `CanExecute` answer with the
        routing calls and the memo of a routed command, the application
        command's own answer otherwise. */
    ghost function Ask(v: HostView, snap: Snapshot, inRaise: bool, m: Memo): Answer
      requires v.Valid()
    {
      match command
      case Routed(ui) => CanExecuteAnswer(v, snap, ui, inRaise, m, parameter, TargetOf(v))
      case Simple(app) => Answer(app.answer(parameter), [], Memo(Null, None, false))
    }

    /** What `OnCanExecuteChanged` computes when the component is available. */
    ghost function Refresh(v: HostView, snap: Snapshot): Answer
      reads RoutedCommands(command)`inRaise, RoutedCommands(command)`lastParameter
      reads RoutedCommands(command)`lastTarget, RoutedCommands(command)`lastResult
      requires v.Valid()
    {
      Ask(v, snap, RaiseFlag(command), CommandMemo(command))
    }

    /** `OnCanExecuteChanged`: while the component is available, sets its
        `Enabled` to what the command answers for the handler's parameter and
        target. */
    method OnCanExecuteChanged(host: Host, reg: Registry, ui: Dispatcher)
      requires host.Valid()
      modifies host`enabled, ui`trace, Apps(command)`canExecuteCalls
      modifies RoutedCommands(command)`lastParameter, RoutedCommands(command)`lastTarget
      modifies RoutedCommands(command)`lastResult
      ensures Contents(reg) == old(Contents(reg))
      ensures !Available(host.View()) ==>
        && host.enabled == old(host.enabled) && ui.trace == old(ui.trace)
        && unchanged(RoutedCommands(command)) && unchanged(Apps(command))
      ensures Available(host.View()) ==>
        var a := old(Refresh(host.View(), Contents(reg)));
        host.enabled == Enabling(old(host.enabled), element, a.result) && ui.trace == old(ui.trace) + a.calls
      ensures Available(host.View()) && command.Routed? ==> MemoOf(command.ui) == old(Refresh(host.View(), Contents(reg))).memo
      ensures Available(host.View()) && command.Simple? ==>
        command.app.canExecuteCalls == old(command.app.canExecuteCalls) + [parameter]
    {
      if !Available(host.View()) {
        return;
      }
      var enabled;
      match command {
        case Routed(uicommand) =>
          ghost var snap := Contents(reg);
          var t := GetTarget(host);
          assert Contents(reg) == snap;
          enabled := CanExecute(uicommand, reg, host, ui, parameter, t);
        case Simple(app) =>
          enabled := app.CanExecute(parameter);
      }
      SetEnabled(host, enabled);
    }

    /** `SetEnabled`: the component's `Enabled` (`_button.Enabled`,
        `_item.Enabled`, `_menuItem.Enabled`). */
    method SetEnabled(host: Host, value: bool)
      modifies host`enabled
      ensures host.enabled == Enabling(old(host.enabled), element, value)
      ensures host.View() == old(host.View())
    {
      host.SetEnabled(element, value);
    }

    /** `OnExecute`: a routed command runs `ExecuteIfCan` for the handler's
        parameter and target; an application command is executed when its
        `CanExecute` says so. */
    method OnExecute(host: Host, reg: Registry, ui: Dispatcher)
      requires host.Valid()
      modifies ui`trace, ui`queue, Apps(command)`canExecuteCalls, Apps(command)`executeCalls
      ensures command.Routed? ==>
        var t := ResolveTarget(host.tree, host.kind, host.activeControl, host.activeForm, TargetOf(host.View()));
        && (t.None? ==> ui.trace == old(ui.trace) && ui.queue == old(ui.queue))
        && (t.Some? ==>
              var run := ExecuteIfCanRun(TargetChain(host.tree, old(Contents(reg)), command.ui, t.value), parameter);
              ui.trace == old(ui.trace) + run.calls && ui.queue == old(ui.queue) + run.posted)
      ensures command.Simple? ==>
        && command.app.canExecuteCalls == old(command.app.canExecuteCalls) + [parameter]
        && command.app.executeCalls
           == old(command.app.executeCalls) + (if command.app.answer(parameter) then [parameter] else [])
        && ui.trace == old(ui.trace) && ui.queue == old(ui.queue)
    {
      match command {
        case Routed(uicommand) =>
          ghost var snap := Contents(reg);
          var t := GetTarget(host);
          assert Contents(reg) == snap;
          var _ := ExecuteIfCan(uicommand, reg, host, ui, parameter, t, host.View());
        case Simple(app) =>
          var can := app.CanExecute(parameter);
          if can {
            app.Execute(parameter);
          }
      }
    }

    /** `ToolBar_ButtonClick`: the tool bar reports a click on any of its
        buttons; only a click on this handler's button executes. */
    method ToolBarButtonClick(clicked: Element, host: Host, reg: Registry, ui: Dispatcher)
      requires host.Valid()
      modifies ui`trace, ui`queue, Apps(command)`canExecuteCalls, Apps(command)`executeCalls
      ensures clicked != element ==>
        && ui.trace == old(ui.trace) && ui.queue == old(ui.queue) && unchanged(Apps(command))
      ensures clicked == element && command.Routed? ==>
        var t := ResolveTarget(host.tree, host.kind, host.activeControl, host.activeForm, TargetOf(host.View()));
        && (t.None? ==> ui.trace == old(ui.trace) && ui.queue == old(ui.queue))
        && (t.Some? ==>
              var run := ExecuteIfCanRun(TargetChain(host.tree, old(Contents(reg)), command.ui, t.value), parameter);
              ui.trace == old(ui.trace) + run.calls && ui.queue == old(ui.queue) + run.posted)
      ensures clicked == element && command.Simple? ==>
        && command.app.canExecuteCalls == old(command.app.canExecuteCalls) + [parameter]
        && command.app.executeCalls
           == old(command.app.executeCalls) + (if command.app.answer(parameter) then [parameter] else [])
        && ui.trace == old(ui.trace) && ui.queue == old(ui.queue)
    {
      if clicked == element {
        OnExecute(host, reg, ui);
      }
    }

    /** `DetachEvents`: the delegate leaves the command's `CanExecuteChanged`
        and the component subscriptions are removed. */
    method DetachEvents()
      modifies this`hooks, Channels(command)`entries, Channels(command)`table, Apps(command)`listeners
      ensures Detached(this)
    {
      match command {
        case Routed(ui) =>
          ui.canExecuteChanged.RemoveHandler(Some(Delegate()));
        case Simple(app) =>
          app.RemoveListener(Delegate());
      }
      hooks := hooks - Unsubscriptions(kind, element, parent, disposing);
    }

    /** `OnDisposed`. */
    method OnDisposed()
      modifies this`hooks, Channels(command)`entries, Channels(command)`table, Apps(command)`listeners
      ensures hooks == old(hooks) - Unsubscriptions(kind, element, parent, disposing)
      ensures command.Routed? ==>
        && command.ui.canExecuteChanged.entries == RemoveFirstLive(old(command.ui.canExecuteChanged.entries), Delegate())
        && command.ui.canExecuteChanged.table
           == RemoveFromTable(old(command.ui.canExecuteChanged.table), this, Delegate())
      ensures command.Simple? ==> command.app.listeners == RemoveLast(old(command.app.listeners), Delegate())
    {
      DetachEvents();
    }

    /** `MenuItem_Disposed`: marks the handler as disposing, then detaches. */
    method MenuItemDisposed()
      requires kind == MenuItemAdapter
      modifies this`disposing, this`hooks, Channels(command)`entries, Channels(command)`table, Apps(command)`listeners
      ensures disposing
      ensures hooks == old(hooks) - Unsubscriptions(kind, element, parent, true)
      ensures command.Routed? ==>
        && command.ui.canExecuteChanged.entries == RemoveFirstLive(old(command.ui.canExecuteChanged.entries), Delegate())
        && command.ui.canExecuteChanged.table
           == RemoveFromTable(old(command.ui.canExecuteChanged.table), this, Delegate())
      ensures command.Simple? ==> command.app.listeners == RemoveLast(old(command.app.listeners), Delegate())
    {
      disposing := true;
      OnDisposed();
    }
  }

  /** What a raise of `CanExecuteChanged` carries from one delegate to the
      next: the enabled components, the routing calls made so far and the
      command's memo. */
  datatype RaiseState = RaiseState(enabled: set<Element>, calls: seq<Call>, memo: Memo)

  /** Whether delegate `h` is the `OnCanExecuteChanged` of a handler for `cmd`. */
  predicate Notifies(cmd: UICommandBase, h: EventHandler)
  {
    && h.target is CommandHandler && h.methodId == OnCanExecuteChangedId
    && (h.target as CommandHandler).command == Routed(cmd)
  }

  /** One delegate of a raise: a handler for `cmd` whose component is
      available asks `CanExecute` with the raise's memo and sets its
      component's `Enabled`. */
  ghost function Notify(v: HostView, snap: Snapshot, cmd: UICommandBase, h: EventHandler, s: RaiseState): RaiseState
    requires v.Valid()
  {
    if Notifies(cmd, h) && (h.target as CommandHandler).Available(v) then
      var ch := h.target as CommandHandler;
      var a := CanExecuteAnswer(v, snap, cmd, true, s.memo, ch.parameter, ch.TargetOf(v));
      RaiseState(Enabling(s.enabled, ch.element, a.result), s.calls + a.calls, a.memo)
    else s
  }

  /** The delegates `hs` of a raise, called in order. */
  ghost function Dispatch(v: HostView, snap: Snapshot, cmd: UICommandBase, hs: seq<EventHandler>, s: RaiseState)
    : RaiseState
    requires v.Valid()
    decreases |hs|
  {
    if hs == [] then s
    else Dispatch(v, snap, cmd, hs[1..], Notify(v, snap, cmd, hs[0], s))
  }

  /** One delegate of a raise if its handler asked the routing afresh,
      with no memo. */
  ghost function FreshNotify(v: HostView, snap: Snapshot, cmd: UICommandBase, h: EventHandler,
                             enabled: set<Element>): set<Element>
    requires v.Valid()
  {
    if Notifies(cmd, h) && (h.target as CommandHandler).Available(v) then
      var ch := h.target as CommandHandler;
      var a := CanExecuteAnswer(v, snap, cmd, false, Memo(Null, None, false), ch.parameter, ch.TargetOf(v));
      Enabling(enabled, ch.element, a.result)
    else enabled
  }

  /** The enabled components if every handler of the raise asked the routing
      afresh. */
  ghost function FreshDispatch(v: HostView, snap: Snapshot, cmd: UICommandBase, hs: seq<EventHandler>,
                               enabled: set<Element>): set<Element>
    requires v.Valid()
    decreases |hs|
  {
    if hs == [] then enabled
    else FreshDispatch(v, snap, cmd, hs[1..], FreshNotify(v, snap, cmd, hs[0], enabled))
  }

  /** The memo remembers nothing, or what a fresh evaluation answers. */
  ghost predicate MemoFresh(tree: Tree, snap: Snapshot, cmd: UICommandBase, m: Memo)
    requires tree.Valid()
  {
    m.target.Some? ==> m.result == CanExecuteRun(TargetChain(tree, snap, cmd, m.target.value)).result
  }

  /** With a memo that agrees with the bindings, a cached answer is the fresh
      answer, and the memo it leaves agrees too. */
  lemma CachedAnswerIsFresh(v: HostView, snap: Snapshot, cmd: UICommandBase, m: Memo,
                            parameter: Param, target: Option<Element>)
    requires v.Valid() && MemoFresh(v.tree, snap, cmd, m)
    ensures var a := CanExecuteAnswer(v, snap, cmd, true, m, parameter, target);
      && a.result == CanExecuteAnswer(v, snap, cmd, false, m, parameter, target).result
      && MemoFresh(v.tree, snap, cmd, a.memo)
  {
  }

  /** While the bindings stay put, the memo of a raise changes no component's
      `Enabled`: the raise ends as if every handler had asked afresh. A raise
      starts with a memo that remembers nothing. */
  lemma {:induction false} RaiseIsTransparent(v: HostView, snap: Snapshot, cmd: UICommandBase,
                                              hs: seq<EventHandler>, s: RaiseState)
    requires v.Valid() && MemoFresh(v.tree, snap, cmd, s.memo)
    ensures Dispatch(v, snap, cmd, hs, s).enabled == FreshDispatch(v, snap, cmd, hs, s.enabled)
    ensures MemoFresh(v.tree, snap, cmd, Dispatch(v, snap, cmd, hs, s).memo)
    decreases |hs|
  {
    if hs != [] {
      var h := hs[0];
      if Notifies(cmd, h) && (h.target as CommandHandler).Available(v) {
        var ch := h.target as CommandHandler;
        CachedAnswerIsFresh(v, snap, cmd, s.memo, ch.parameter, ch.TargetOf(v));
      }
      RaiseIsTransparent(v, snap, cmd, hs[1..], Notify(v, snap, cmd, h, s));
    }
  }

  /** A raise leaves alone every component no handler of the command is
      attached to. */
  lemma {:induction false} RaiseTouchesOnlyItsComponents(v: HostView, snap: Snapshot, cmd: UICommandBase,
                                                         hs: seq<EventHandler>, s: RaiseState, e: Element)
    requires v.Valid()
    requires forall h | h in hs && Notifies(cmd, h) :: (h.target as CommandHandler).element != e
    ensures e in Dispatch(v, snap, cmd, hs, s).enabled <==> e in s.enabled
    decreases |hs|
  {
    if hs != [] {
      forall h | h in hs[1..] && Notifies(cmd, h)
        ensures (h.target as CommandHandler).element != e
      {
        assert h in hs;
      }
      assert hs[0] in hs;
      RaiseTouchesOnlyItsComponents(v, snap, cmd, hs[1..], Notify(v, snap, cmd, hs[0], s), e);
    }
  }

  /** One delegate call of a raise, in raise state `s`: the handler for
      `cmd` behind `h`, if any, runs `OnCanExecuteChanged`. The delegates of
      other receivers are not modelled. */
  method Deliver(cmd: UICommandBase, h: EventHandler, reg: Registry, host: Host, ui: Dispatcher,
                 ghost v: HostView, ghost snap: Snapshot, ghost s: RaiseState, ghost base: seq<Call>)
    returns (ghost next: RaiseState)
    requires host.Valid() && host.View() == v && cmd.inRaise && Contents(reg) == snap
    requires host.enabled == s.enabled && ui.trace == base + s.calls && MemoOf(cmd) == s.memo
    modifies cmd`lastParameter, cmd`lastTarget, cmd`lastResult, host`enabled, ui`trace
    ensures host.View() == v && Contents(reg) == snap
    ensures next == Notify(v, snap, cmd, h, s)
    ensures host.enabled == next.enabled && ui.trace == base + next.calls && MemoOf(cmd) == next.memo
  {
    next := s;
    if h.target is CommandHandler && h.methodId == OnCanExecuteChangedId {
      var ch := h.target as CommandHandler;
      if ch.command == Routed(cmd) {
        ghost var a := CanExecuteAnswer(v, snap, cmd, true, s.memo, ch.parameter, ch.TargetOf(v));
        next := Notify(v, snap, cmd, h, s);
        ch.OnCanExecuteChanged(host, reg, ui);
        Assoc(base, s.calls, a.calls);
      }
    }
  }

  /** The opening of a raise: the memo switched on and emptied, and the
      channel's live delegates taken, the dead ones pruned. */
  method BeginRaise(cmd: UICommandBase, reg: Registry, host: Host) returns (called: seq<EventHandler>)
    modifies cmd`inRaise, cmd`lastParameter, cmd`lastTarget, cmd.canExecuteChanged`entries
    ensures Contents(reg) == old(Contents(reg)) && host.View() == old(host.View()) && host.Valid() == old(host.Valid())
    ensures cmd.inRaise && cmd.lastParameter == Null && cmd.lastTarget == None
    ensures called == LiveHandlers(old(cmd.canExecuteChanged.entries))
    ensures cmd.canExecuteChanged.entries == Pruned(old(cmd.canExecuteChanged.entries))
  {
    cmd.inRaise := true;
    cmd.lastParameter := Null;
    cmd.lastTarget := None;
    called := cmd.canExecuteChanged.Invoke();
  }

  /** The delegate calls of a raise, in order. */
  method DeliverAll(cmd: UICommandBase, called: seq<EventHandler>, reg: Registry, host: Host, ui: Dispatcher,
                    ghost view: HostView, ghost snap: Snapshot, ghost s0: RaiseState, ghost base: seq<Call>)
    returns (ghost st: RaiseState)
    requires host.Valid() && host.View() == view && cmd.inRaise && Contents(reg) == snap
    requires host.enabled == s0.enabled && ui.trace == base + s0.calls && MemoOf(cmd) == s0.memo
    modifies cmd`lastParameter, cmd`lastTarget, cmd`lastResult, host`enabled, ui`trace
    ensures Contents(reg) == snap && host.View() == view
    ensures st == Dispatch(view, snap, cmd, called, s0)
    ensures host.enabled == st.enabled && ui.trace == base + st.calls && MemoOf(cmd) == st.memo
  {
    ghost var goal := Dispatch(view, snap, cmd, called, s0);
    Whole(called);
    st := s0;
    var i := 0;
    while i < |called|
      invariant 0 <= i <= |called|
      invariant view.Valid() && host.View() == view && Contents(reg) == snap
      invariant Dispatch(view, snap, cmd, called[i..], st) == goal
      invariant host.enabled == st.enabled && ui.trace == base + st.calls && MemoOf(cmd) == st.memo
    {
      DropFirst(called, i);
      st := Deliver(cmd, called[i], reg, host, ui, view, snap, st, base);
      i := i + 1;
    }
    Whole(called);
  }

  /** `UICommandBase.RaiseCanExecuteChanged`: unless nobody listens, raises
      `CanExecuteChanged` with the memo switched on and remembering nothing,
      so that handlers asking the same question share one evaluation; the
      memo is switched off afterwards, its last answer kept. */
  method RaiseCanExecuteChanged(cmd: UICommandBase, reg: Registry, host: Host, ui: Dispatcher)
    returns (ghost s: RaiseState)
    requires host.Valid()
    modifies cmd`inRaise, cmd`lastParameter, cmd`lastTarget, cmd`lastResult, cmd.canExecuteChanged
    modifies host`enabled, ui`trace
    ensures host.View() == old(host.View())
    ensures old(cmd.canExecuteChanged.IsEmpty()) ==>
      && host.enabled == old(host.enabled) && ui.trace == old(ui.trace)
      && unchanged(cmd) && unchanged(cmd.canExecuteChanged)
    ensures s == old(Dispatch(host.View(), Contents(reg), cmd, LiveHandlers(cmd.canExecuteChanged.entries),
                        RaiseState(host.enabled, [], Memo(Null, None, cmd.lastResult))))
    ensures !old(cmd.canExecuteChanged.IsEmpty()) ==>
      && host.enabled == s.enabled && ui.trace == old(ui.trace) + s.calls
      && !cmd.inRaise && cmd.lastParameter == Null && cmd.lastTarget == None && cmd.lastResult == s.memo.result
      && cmd.canExecuteChanged.entries == Pruned(old(cmd.canExecuteChanged.entries))
      && cmd.canExecuteChanged.table == old(cmd.canExecuteChanged.table)
  {
    ghost var snap, view := Contents(reg), host.View();
    ghost var s0 := RaiseState(host.enabled, [], Memo(Null, None, cmd.lastResult));
    if cmd.canExecuteChanged.IsEmpty() {
      s := s0;
      return;
    }
    var called := BeginRaise(cmd, reg, host);
    s := DeliverAll(cmd, called, reg, host, ui, view, snap, s0, old(ui.trace));
    cmd.inRaise := false;
    cmd.lastParameter := Null;
    cmd.lastTarget := None;
  }
}
