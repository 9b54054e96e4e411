/** The `Command` attached property of buttons, tool-strip items, menu items
    and tool-bar buttons: one handler per component, kept in a dictionary that
    is created on first use, plus a cache of the routed commands the handlers
    hold, which the command manager raises when it suggests a requery. */
module CommandProperties {
  import opened Wrappers
  import opened Host
  import opened Commands
  import opened WeakEvents
  import opened UiThread
  import opened RoutingSpec
  import opened Routing
  import opened CommandHandlers

  /** An `Option<CommandHandler>` seen as the set of zero or one handlers,
      and the objects its handler's state lives in. */
  function HandlerSet(h: Option<CommandHandler>): set<CommandHandler>
  {
    if h.Some? then {h.value} else {}
  }

  function HandlerChannels(h: Option<CommandHandler>): set<WeakEventHandler>
  {
    if h.Some? then Channels(h.value.command) else {}
  }

  function HandlerApps(h: Option<CommandHandler>): set<SimpleCommand>
  {
    if h.Some? then Apps(h.value.command) else {}
  }

  function HandlerRouted(h: Option<CommandHandler>): set<UICommandBase>
  {
    if h.Some? then RoutedCommands(h.value.command) else {}
  }

  /** The routed commands held by the handlers stored under `keys`. */
  function RoutedHeld(m: map<Element, Option<CommandHandler>>, keys: set<Element>): set<UICommandBase>
  {
    set k | k in keys && k in m && m[k].Some? && m[k].value.command.Routed? :: m[k].value.command.ui
  }

  /** Taking one more key adds the routed command its handler holds, if any. */
  lemma RoutedHeldStep(m: map<Element, Option<CommandHandler>>, keys: set<Element>, k: Element)
    requires k in m
    ensures RoutedHeld(m, keys + {k})
         == RoutedHeld(m, keys) + (if m[k].Some? && m[k].value.command.Routed? then {m[k].value.command.ui} else {})
  {
  }

  function Elems<T>(s: seq<T>): set<T>
  {
    set x | x in s
  }

  predicate Distinct<T(==)>(s: seq<T>)
  {
    forall i, j | 0 <= i < j < |s| :: s[i] != s[j]
  }

  /** Appending an element not yet present keeps a sequence free of repeats. */
  lemma AppendDistinct<T>(s: seq<T>, x: T)
    requires Distinct(s) && x !in Elems(s)
    ensures Distinct(s + [x]) && Elems(s + [x]) == Elems(s) + {x}
  {
    assert forall i | 0 <= i < |s| :: (s + [x])[i] == s[i];
  }

  /** The `_commands` dictionary as a value: `None` until first use. */
  type Table = Option<map<Element, Option<CommandHandler>>>

  /** The handler stored for `c`, if any. */
  function Lookup(t: Table, c: Element): Option<CommandHandler>
  {
    if t.Some? && c in t.value then t.value[c] else None
  }

  /** `GetCommandCore` on the dictionary: no dictionary, no entry and a null
      handler all read as no command. */
  function CommandOf(t: Table, c: Element): Option<Command>
  {
    if t.None? || c !in t.value then None
    else if t.value[c].None? then None
    else Some(t.value[c].value.command)
  }

  /** Whether `SetCommandCore(c, handler)` returns at once: a null handler
      for a component that has no entry. */
  predicate Skips(t: Table, c: Element, handler: Option<CommandHandler>)
  {
    handler.None? && (t.None? || c !in t.value)
  }

  /** The dictionary after `SetCommandCore(c, handler)`. */
  function Put(t: Table, c: Element, handler: Option<CommandHandler>): Table
  {
    if Skips(t, c, handler) then t else Some(t.OrElse(map[])[c := handler])
  }

  /** Reading back: the component just set answers the handler's command (no
      command for a null handler), every other component what it answered
      before. */
  lemma PutThenGet(t: Table, c: Element, handler: Option<CommandHandler>, d: Element)
    ensures CommandOf(Put(t, c, handler), d)
         == if d != c then CommandOf(t, d) else if handler.Some? then Some(handler.value.command) else None
    ensures d != c ==> Lookup(Put(t, c, handler), d) == Lookup(t, d)
  {
  }

  /** `_commands`, `_allUICommands`, and the components whose `Disposed`
      event carries the dictionary's `Key_Disposed`. A `Some(None)` entry is
      a component whose command was set back to null. */
  class Attachments {
    var commands: Option<map<Element, Option<CommandHandler>>>
    var hooked: set<Element>
    var allUICommands: Option<set<UICommandBase>>

    /** Every stored component is hooked, and a handler is stored under its
        own component. */
    ghost predicate Valid()
      reads this`commands, this`hooked
    {
      commands.Some? ==>
        && commands.value.Keys <= hooked
        && forall c | c in commands.value && commands.value[c].Some? :: commands.value[c].value.element == c
    }

    constructor()
      ensures Valid() && commands == None && hooked == {} && allUICommands == None
    {
      commands, hooked, allUICommands := None, {}, None;
    }

    function Stored(c: Element): Option<CommandHandler>
      reads this`commands
    {
      Lookup(commands, c)
    }

    function StoredAt(component: Option<Element>): Option<CommandHandler>
      reads this`commands
    {
      if component.Some? then Stored(component.value) else None
    }

    /** `GetCommandCore` */
    function GetCommandCore(c: Element): Option<Command>
      reads this`commands
    {
      CommandOf(commands, c)
    }

    /** The routed commands the stored handlers hold. */
    function UICommands(): set<UICommandBase>
      reads this`commands
    {
      if commands.None? then {} else RoutedHeld(commands.value, commands.value.Keys)
    }

    /** Every routed command a requery can raise: the cache and the held ones. */
    function Raisable(): set<UICommandBase>
      reads this`commands, this`allUICommands
    {
      allUICommands.OrElse({}) + UICommands()
    }

    predicate Ignores(c: Element, handler: Option<CommandHandler>)
      reads this`commands
    {
      Skips(commands, c, handler)
    }

    /** The old handler of a replaced entry lets go of its command and
        component, and gives the component back its `Enabled`. */
    method Retire(h: CommandHandler, host: Host)
      modifies h`hooks, Channels(h.command)`entries, Channels(h.command)`table, Apps(h.command)`listeners, host`enabled
      ensures Detached(h)
      ensures host.enabled == old(host.enabled) + {h.element}
      ensures host.View() == old(host.View())
    {
      h.DetachEvents();
      h.SetEnabled(host, true);
    }

    /** The bookkeeping half of `SetCommandCore`: the dictionary made on
        first use, the component hooked when it gets its first entry, the old
        handler retired, the new one stored and the cache dropped. */
    method Store(c: Element, handler: Option<CommandHandler>, host: Host)
      requires Valid() && !Ignores(c, handler)
      requires handler.Some? ==> handler.value.element == c
      modifies this`commands, this`hooked, this`allUICommands
      modifies HandlerSet(Stored(c))`hooks, HandlerChannels(Stored(c))`entries, HandlerChannels(Stored(c))`table, HandlerApps(Stored(c))`listeners
      modifies host`enabled
      ensures Valid()
      ensures commands == Put(old(commands), c, handler)
      ensures hooked == old(hooked) + {c} && allUICommands == None
      ensures old(Stored(c)).Some? ==> Detached(old(Stored(c)).value)
      ensures host.enabled == if old(Stored(c)).Some? then old(host.enabled) + {c} else old(host.enabled)
      ensures handler.Some? ==>
        RaiseFlag(handler.value.command) == old(RaiseFlag(handler.value.command))
        && CommandMemo(handler.value.command) == old(CommandMemo(handler.value.command))
      ensures host.View() == old(host.View())
    {
      if commands.None? {
        commands := Some(map[]);
        hooked := hooked + {c};
      } else if c in commands.value {
        var previous := commands.value[c];
        if previous.Some? {
          Retire(previous.value, host);
        }
      } else {
        hooked := hooked + {c};
      }
      commands := Some(commands.value[c := handler]);
      allUICommands := None;
    }

    /** `SetCommandCore`: stores `handler` for component `c` (null included),
        retiring the handler it replaces, and lets the new handler set the
        component's `Enabled` at once. A null handler for a component without
        an entry changes nothing. */
    method SetCommandCore(c: Element, handler: Option<CommandHandler>, host: Host, reg: Registry, ui: Dispatcher,
                          ghost view: ValidView)
      requires Valid() && host.View() == view
      requires handler.Some? ==> handler.value.element == c
      modifies this`commands, this`hooked, this`allUICommands
      modifies HandlerSet(Stored(c))`hooks, HandlerChannels(Stored(c))`entries, HandlerChannels(Stored(c))`table, HandlerApps(Stored(c))`listeners
      modifies host`enabled, ui`trace, HandlerApps(handler)`canExecuteCalls
      modifies HandlerRouted(handler)`lastParameter, HandlerRouted(handler)`lastTarget
      modifies HandlerRouted(handler)`lastResult
      ensures Valid() && host.View() == view
      ensures commands == Put(old(commands), c, handler)
      ensures hooked == if old(Ignores(c, handler)) then old(hooked) else old(hooked) + {c}
      ensures allUICommands == if old(Ignores(c, handler)) then old(allUICommands) else None
      ensures old(Stored(c)).Some? ==> Detached(old(Stored(c)).value)
      ensures
        var e1 := if old(Stored(c)).Some? then old(host.enabled) + {c} else old(host.enabled);
        var snap := Contents(reg);
        var v := view;
        && (handler.Some? && handler.value.Available(v) ==>
              var a := handler.value.Ask(v, snap, old(RaiseFlag(handler.value.command)),
                                         old(CommandMemo(handler.value.command)));
              host.enabled == Enabling(e1, c, a.result) && ui.trace == old(ui.trace) + a.calls)
        && (!(handler.Some? && handler.value.Available(v)) ==>
              host.enabled == e1 && ui.trace == old(ui.trace))
    {
      if Ignores(c, handler) {
        return;
      }
      Replace(c, handler, host, reg, ui, view);
    }

    /** `SetCommandCore` past its early return: store, then refresh. */
    method Replace(c: Element, handler: Option<CommandHandler>, host: Host, reg: Registry, ui: Dispatcher, ghost view: ValidView)
      requires Valid() && host.View() == view && !Ignores(c, handler)
      requires handler.Some? ==> handler.value.element == c
      modifies this`commands, this`hooked, this`allUICommands
      modifies HandlerSet(Stored(c))`hooks, HandlerChannels(Stored(c))`entries, HandlerChannels(Stored(c))`table, HandlerApps(Stored(c))`listeners
      modifies host`enabled, ui`trace, HandlerApps(handler)`canExecuteCalls
      modifies HandlerRouted(handler)`lastParameter, HandlerRouted(handler)`lastTarget
      modifies HandlerRouted(handler)`lastResult
      ensures Valid() && host.View() == view
      ensures commands == Put(old(commands), c, handler)
      ensures hooked == old(hooked) + {c}
      ensures allUICommands == None
      ensures old(Stored(c)).Some? ==> Detached(old(Stored(c)).value)
      ensures
        var e1 := if old(Stored(c)).Some? then old(host.enabled) + {c} else old(host.enabled);
        var snap := Contents(reg);
        var v := view;
        && (handler.Some? && handler.value.Available(v) ==>
              var a := handler.value.Ask(v, snap, old(RaiseFlag(handler.value.command)),
                                         old(CommandMemo(handler.value.command)));
              host.enabled == Enabling(e1, c, a.result) && ui.trace == old(ui.trace) + a.calls)
        && (!(handler.Some? && handler.value.Available(v)) ==>
              host.enabled == e1 && ui.trace == old(ui.trace))
    {
      Store(c, handler, host);
      if handler.Some? {
        ghost var a := Update(handler.value, host, reg, ui, view);
      }
    }

    /** `UpdateCanExecute` of the new handler, `a` being what it asks. */
    static method Update(h: CommandHandler, host: Host, reg: Registry, ui: Dispatcher, ghost view: ValidView)
      returns (ghost a: Answer)
      requires host.View() == view
      modifies host`enabled, ui`trace, Apps(h.command)`canExecuteCalls
      modifies RoutedCommands(h.command)`lastParameter, RoutedCommands(h.command)`lastTarget
      modifies RoutedCommands(h.command)`lastResult
      ensures Contents(reg) == old(Contents(reg)) && host.View() == view
      ensures a == h.Ask(view, Contents(reg), old(RaiseFlag(h.command)), old(CommandMemo(h.command)))
      ensures h.Available(view) ==>
        host.enabled == Enabling(old(host.enabled), h.element, a.result) && ui.trace == old(ui.trace) + a.calls
      ensures !h.Available(view) ==> host.enabled == old(host.enabled) && ui.trace == old(ui.trace)
    {
      a := h.Refresh(view, Contents(reg));
      h.OnCanExecuteChanged(host, reg, ui);
    }

    /** `Key_Disposed`: a disposed component's entry goes. */
    method KeyDisposed(sender: Element)
      requires Valid()
      modifies this`commands
      ensures Valid()
      ensures commands == if old(commands).None? then None else Some(old(commands).value - {sender})
      ensures GetCommandCore(sender) == None
      ensures forall d | d != sender :: Stored(d) == old(Stored(d))
    {
      if commands.Some? {
        commands := Some(commands.value - {sender});
      }
    }

    /** `RaiseCanExecuteChangedAllUICommands`: raises every cached routed
        command once; without a cache, every distinct routed command a stored
        handler holds once, and caches them. `raised` is the order. */
    method RaiseCanExecuteChangedAllUICommands(reg: Registry, host: Host, ui: Dispatcher, ghost view: ValidView)
      returns (ghost raised: seq<UICommandBase>)
      requires host.View() == view
      modifies this`allUICommands
      modifies Raisable()`inRaise, Raisable()`lastParameter, Raisable()`lastTarget, Raisable()`lastResult
      modifies set u | u in Raisable() :: u.canExecuteChanged
      modifies host`enabled, ui`trace
      ensures commands == old(commands) && hooked == old(hooked) && Distinct(raised)
      ensures old(allUICommands).Some? ==> allUICommands == old(allUICommands) && Elems(raised) == allUICommands.value
      ensures old(allUICommands).None? && commands.Some? ==> allUICommands == Some(UICommands()) && Elems(raised) == UICommands()
      ensures old(allUICommands).None? && commands.None? ==> allUICommands == None && raised == []
    {
      raised := [];
      if allUICommands.Some? {
        raised := RaiseEach(allUICommands.value, reg, host, ui, view);
      } else if commands.Some? {
        var seen;
        seen, raised := RaiseHeld(commands.value, reg, host, ui, view);
        allUICommands := Some(seen);
      }
    }

    /** The `foreach` over the cache: each cached command raised once. */
    static method RaiseEach(cache: set<UICommandBase>, reg: Registry, host: Host, ui: Dispatcher, ghost view: ValidView)
      returns (ghost raised: seq<UICommandBase>)
      requires host.View() == view
      modifies cache`inRaise, cache`lastParameter, cache`lastTarget, cache`lastResult
      modifies set u | u in cache :: u.canExecuteChanged
      modifies host`enabled, ui`trace
      ensures Distinct(raised) && Elems(raised) == cache
    {
      raised := [];
      var rest := cache;
      while rest != {}
        invariant rest <= cache && Elems(raised) == cache - rest && Distinct(raised)
        invariant host.View() == view
        decreases rest
      {
        var u :| u in rest;
        AppendDistinct(raised, u);
        raised := raised + [u];
        rest := rest - {u};
        var _ := RaiseCanExecuteChanged(u, reg, host, ui);
      }
    }

    /** The `foreach` over the dictionary's handlers: each routed command
        they hold raised once, in `raised`, and collected in `seen`. */
    static method RaiseHeld(m: map<Element, Option<CommandHandler>>, reg: Registry, host: Host, ui: Dispatcher,
                            ghost view: ValidView)
      returns (seen: set<UICommandBase>, ghost raised: seq<UICommandBase>)
      requires host.View() == view
      modifies RoutedHeld(m, m.Keys)`inRaise, RoutedHeld(m, m.Keys)`lastParameter
      modifies RoutedHeld(m, m.Keys)`lastTarget, RoutedHeld(m, m.Keys)`lastResult
      modifies set u | u in RoutedHeld(m, m.Keys) :: u.canExecuteChanged
      modifies host`enabled, ui`trace
      ensures seen == RoutedHeld(m, m.Keys) && Elems(raised) == seen && Distinct(raised)
    {
      raised := [];
      seen := {};
      var keys := m.Keys;
      ghost var done: set<Element> := {};
      while keys != {}
        invariant keys <= m.Keys && done == m.Keys - keys
        invariant seen == RoutedHeld(m, done) && Elems(raised) == seen && Distinct(raised)
        invariant host.View() == view
        decreases keys
      {
        var k :| k in keys;
        RoutedHeldStep(m, done, k);
        var h := m[k];
        if h.Some? && h.value.command.Routed? {
          var u := h.value.command.ui;
          if u !in seen {
            assert u in RoutedHeld(m, m.Keys);
            AppendDistinct(raised, u);
            raised := raised + [u];
            seen := seen + {u};
            var _ := RaiseCanExecuteChanged(u, reg, host, ui);
          }
        }
        keys := keys - {k};
        done := done + {k};
      }
    }
  }

  /** The name `ThrowIfNull` reports for a null component. */
  function ParamName(kind: AdapterKind): string
  {
    match kind
    case ButtonAdapter => "button"
    case ToolStripItemAdapter => "item"
    case MenuItemAdapter => "menuItem"
    case ToolBarButtonAdapter => "button"
  }

  /** `GetCommand` of each component kind: a null component throws
      `ArgumentNull`, otherwise the command attached to it, if any. */
  function GetCommand(att: Attachments, kind: AdapterKind, component: Option<Element>): (r: Result<Option<Command>>)
    reads att`commands
    ensures component.None? <==> r == Err(ArgumentNull(ParamName(kind)))
    ensures component.Some? ==> r == Ok(att.GetCommandCore(component.value))
  {
    if component.None? then Err(ArgumentNull(ParamName(kind))) else Ok(att.GetCommandCore(component.value))
  }

  /** Why `SetCommand` throws before it touches anything, if it does: a null
      component; a disposed button or tool-strip item (menu items and tool-bar
      buttons are not checked); a tool-bar button that is on no tool bar. */
  function SetCommandRejects(host: HostView, disposed: set<Element>, kind: AdapterKind,
                             component: Option<Element>, command: Option<Command>): (r: Option<Error>)
  {
    if component.None? then Some(ArgumentNull(ParamName(kind)))
    else if (kind == ButtonAdapter || kind == ToolStripItemAdapter) && component.value in disposed then Some(ObjectDisposed)
    else if kind == ToolBarButtonAdapter && command.Some? && component.value !in host.owner then Some(NullReference)
    else None
  }

  function CommandChannels(command: Option<Command>): set<WeakEventHandler>
  {
    if command.Some? then Channels(command.value) else {}
  }

  function CommandApps(command: Option<Command>): set<SimpleCommand>
  {
    if command.Some? then Apps(command.value) else {}
  }

  function CommandRouted(command: Option<Command>): set<UICommandBase>
  {
    if command.Some? then RoutedCommands(command.value) else {}
  }

  /** `SetCommand` of each component kind: after the argument checks, a
      handler of the component's kind for a non-null command (a tool-bar
      button's handler remembers the tool bar it is on), stored by
      `SetCommandCore`; a null command clears the entry. */
  method SetCommand(att: Attachments, kind: AdapterKind, component: Option<Element>, command: Option<Command>,
                    parameter: Param, target: Option<Element>, host: Host, reg: Registry, ui: Dispatcher,
                    ghost view: ValidView)
    returns (r: Outcome, ghost leftover: Option<CommandHandler>)
    requires att.Valid() && host.View() == view
    modifies att`commands, att`hooked, att`allUICommands
    modifies HandlerSet(att.StoredAt(component))`hooks, HandlerChannels(att.StoredAt(component))
    modifies HandlerApps(att.StoredAt(component))`listeners
    modifies CommandChannels(command)`entries, CommandChannels(command)`table, CommandApps(command)`listeners, CommandApps(command)`canExecuteCalls
    modifies CommandRouted(command)`lastParameter, CommandRouted(command)`lastTarget
    modifies CommandRouted(command)`lastResult
    modifies host`enabled, ui`trace
    ensures att.Valid()
    ensures var rejected := old(SetCommandRejects(view, host.disposed, kind, component, command));
      && (rejected.Some? <==> r.Fail?)
      && (rejected.Some? ==> r == Fail(rejected.value))
    ensures r.Fail? ==>
      && att.commands == old(att.commands) && att.hooked == old(att.hooked)
      && att.allUICommands == old(att.allUICommands)
      && host.enabled == old(host.enabled) && ui.trace == old(ui.trace)
    ensures leftover.Some? <==> r == Fail(NullReference)
    ensures r.Fail? && leftover.None? && command.Some? ==> Unsubscribed(command.value)
    ensures leftover.Some? ==>
      var h := leftover.value;
      && fresh(h) && h.kind == kind && h.element == component.value && h.hooks == {}
      && h.command == command.value && h.parameter == parameter && h.target == target
      && Subscribed(command.value, h)
    ensures r.Done? ==>
      var c := component.value;
      && att.GetCommandCore(c) == command
      && (forall d | d != c :: att.Stored(d) == old(att.Stored(d)))
      && (command.Some? || (old(att.commands).Some? && c in old(att.commands).value) ==>
            && c in att.hooked && att.allUICommands == None)
    ensures r.Done? && command.Some? ==>
      var h := att.Stored(component.value).value;
      && fresh(h) && h.kind == kind && h.element == component.value
      && h.parent == (if kind == ToolBarButtonAdapter then view.owner[component.value] else component.value)
      && h.parameter == parameter && h.target == target
  {
    leftover := None;
    if component.None? {
      r := Fail(ArgumentNull(ParamName(kind)));
      return;
    }
    var c := component.value;
    if (kind == ButtonAdapter || kind == ToolStripItemAdapter) && c in host.disposed {
      r := Fail(ObjectDisposed);
      return;
    }
    var parent := c;
    if kind == ToolBarButtonAdapter && command.Some? {
      if c !in host.owner {
        // the base constructor has subscribed before `_parent.ButtonClick` throws
        var h := new CommandHandler.Unhooked(kind, c, command.value, parameter, target);
        leftover := Some(h);
        r := Fail(NullReference);
        return;
      }
      parent := host.owner[c];
    }
    var handler := Install(att, kind, c, parent, command, parameter, target, host, reg, ui, view);
    forall d {
      PutThenGet(old(att.commands), c, handler, d);
    }
    r := Done;
  }

  /** `SetCommandCore(component, command == null ? null : new ...CommandHandler(...))`:
      the dictionary takes the fresh handler (or the null one), which has the
      given fields and its component hooks. */
  method Install(att: Attachments, kind: AdapterKind, c: Element, parent: Element, command: Option<Command>,
                 parameter: Param, target: Option<Element>, host: Host, reg: Registry, ui: Dispatcher,
                 ghost view: ValidView)
    returns (handler: Option<CommandHandler>)
    requires att.Valid() && host.View() == view
    modifies att`commands, att`hooked, att`allUICommands
    modifies HandlerSet(att.Stored(c))`hooks, HandlerChannels(att.Stored(c))`entries, HandlerChannels(att.Stored(c))`table
    modifies HandlerApps(att.Stored(c))`listeners
    modifies CommandChannels(command)`entries, CommandChannels(command)`table, CommandApps(command)`listeners, CommandApps(command)`canExecuteCalls
    modifies CommandRouted(command)`lastParameter, CommandRouted(command)`lastTarget
    modifies CommandRouted(command)`lastResult
    modifies host`enabled, ui`trace
    ensures att.Valid()
    ensures att.commands == Put(old(att.commands), c, handler)
    ensures att.hooked == (if Skips(old(att.commands), c, handler) then old(att.hooked) else old(att.hooked) + {c})
    ensures att.allUICommands == (if Skips(old(att.commands), c, handler) then old(att.allUICommands) else None)
    ensures handler.Some? <==> command.Some?
    ensures handler.Some? ==>
      var h := handler.value;
      && fresh(h) && h.kind == kind && h.element == c && h.parent == parent
      && h.command == command.value && h.parameter == parameter && h.target == target
  {
    handler := None;
    if command.Some? {
      var h := new CommandHandler(kind, c, parent, command.value, parameter, target);
      handler := Some(h);
    }
    att.SetCommandCore(c, handler, host, reg, ui, view);
  }
}

