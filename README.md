# CommandForWinForms in Dafny

This project models the command routing of CommandForWinForms, a library that brings
WPF-style commands to Windows Forms.

- **Routed commands.** A `UICommandBase` is a routed command. The control it is asked on
  is its target, and the command walks from the target up the parent chain.
- **Command bindings.** A `CommandBinding` answers on an element. A routed command asks the
  bindings on its target and on every ancestor:
  - `CanExecute` runs a preview pass first, from the outermost binding inward, then a
    bubble pass from the target outward;
  - `Execute` posts the first binding's `Executed` handler that accepts;
  - `ExecuteIfCan` lets the preview pass veto, then executes.
- **Command handlers.** Buttons, tool-strip items, menu items and tool-bar buttons carry a
  `Command` attached property. Its handler:
  - keeps the component's `Enabled` in step with `CanExecute`;
  - executes the command on a click;
  - detaches itself when the component is disposed.
- **Weak event channel.** A routed command's `CanExecuteChanged` holds its subscribers
  weakly. While it is raised, a one-entry memo short-circuits repeated identical queries.
- **Command manager.** A `CommandManager` hooks a form's controls and turns key presses into
  commands:
  - first through the input bindings (key and mouse bindings) of the focused control and
    its ancestors;
  - then through the input gestures of the routed commands bound there.

  It also coalesces requery requests into one deferred broadcast, using a timer and a flag.

The host toolkit is modelled as a collaborator: module `Host` holds the parent chain, the
kinds of control, visibility, the enabled and disposed flags, and the active control and
active form. Elements are plain identities. The state the library mutates in place is held
in classes:
- the binding lists and their dictionaries;
- the attached-property dictionary;
- the command's caches and channel;
- the handler's hooks;
- the event-argument flags;
- the UI thread's queue (`BeginInvoke`) and trace (handler calls).

Each method is proved against a specification function. Functions such as `TargetChain`,
`PreviewPass`, `BubblePass`, `ExecutePass`, `CanExecuteRun`, `ExecuteIfCanRun`,
`Dispatch`, `Walk` and `ProcessRun` describe on values what an operation answers, which
handlers it calls in which order, and what it posts. Lemmas then prove what the library
promises about those functions.

Where the code does not compile as it stands, the model follows its evident intent:
- `CommandManager` calls `RaiseCanExecuteChangedAllUICommand`, but the method is named
  `RaiseCanExecuteChangedAllUICommands`;
- `SetCommandCore` calls `UpdateCanExecute`, which no handler defines; the model uses
  `OnCanExecuteChanged`.

## Model

| member | source | states |
|---|---|---|
| Gestures.KeyGestureOf | src/CommandForWinForms/KeyGesture.cs:11-16 | the one-argument key gesture has no modifiers and an empty display string |
| Gestures.NewKeyGesture | src/CommandForWinForms/KeyGesture.cs:18-25 | a null display string is an `ArgumentNull` error, exactly; otherwise the gesture holds the given key, modifiers and string |
| Gestures.MouseGestureOf | src/CommandForWinForms/MouseGesture.cs:9-15 | the mouse gesture holds the given action and modifiers |
| Gestures.KeyGestureExactModifiers | src/CommandForWinForms/KeyGesture.cs:27-28 | a key gesture matches a stroke of its key exactly when the modifiers are equal, and the target never matters |
| Gestures.KeyGestureRejectsExtraAndMissing | src/CommandForWinForms/KeyGesture.cs:27-28 | adding a modifier to a matching stroke, or removing one, stops the match |
| Gestures.MouseGestureToleratesExtraModifiers | src/CommandForWinForms/MouseGesture.cs:17-18 | a mouse gesture keeps matching when extra modifiers are held, and stops matching when one of its own is missing |
| Gestures.NeverMatches | src/CommandForWinForms/InputGesture.cs:5-7 | a mouse gesture with no action matches nothing; a mouse gesture never matches a key and a key gesture never matches a mouse action |
| EventArgs.CanExecuteEventArgs.constructor | src/CommandForWinForms/CanExecuteEventArgs.cs:11-17 | new arguments hold the command and the parameter, with both flags cleared |
| EventArgs.CanExecuteEventArgs.SetCanExecute | src/CommandForWinForms/CanExecuteEventArgs.cs:9 | the `CanExecute` flag takes the value |
| EventArgs.CanExecuteEventArgs.SetHandled | src/CommandForWinForms/CanExecuteEventArgs.cs:5 | the inherited `Handled` flag takes the value |
| EventArgs.NewCanExecuteEventArgs | src/CommandForWinForms/CanExecuteEventArgs.cs:11-17 | a null command is an `ArgumentNull` error, exactly; otherwise fresh arguments with cleared flags |
| EventArgs.NewExecutedEventArgs | src/CommandForWinForms/ExecutedEventArgs.cs:10-16 | a null command is an `ArgumentNull` error, exactly; otherwise the arguments carry the command and the parameter |
| EventArgs.ApplyEffectsCanExecute | src/CommandForWinForms/CanExecuteEventArgs.cs:9 | after one handler's assignments, `CanExecute` is the last value it assigned, or the value it started with |
| EventArgs.RunHandlersCanExecute | src/CommandForWinForms/CommandBinding.cs:35-53 | after a multicast query event, `CanExecute` is the last value any subscriber assigned, or the value it started with |
| Commands.SimpleCommand.constructor | tests/CommandForWinForms.Tests/TestCommand.cs:14-18 | an application command with a fixed answer and no calls or listeners yet |
| Commands.SimpleCommand.CanExecute | src/CommandForWinForms/ICommand.cs:7 | answers the command's own answer for the parameter and records the call |
| Commands.SimpleCommand.Execute | src/CommandForWinForms/ICommand.cs:8 | records the execution with its parameter |
| Commands.SimpleCommand.AddListener | src/CommandForWinForms/ICommand.cs:6 | `CanExecuteChanged +=` appends the delegate |
| Commands.SimpleCommand.RemoveListener | src/CommandForWinForms/ICommand.cs:6 | `CanExecuteChanged -=` leaves the listeners `RemoveLast` gives: the last registration of the delegate gone, the others kept in order (`RemoveLastDropsLastOccurrence`) |
| Commands.RemoveLast | src/CommandForWinForms/ICommand.cs:6 | removing a delegate that is not registered changes nothing; removing one that is drops exactly one entry |
| Commands.LastIndexOf | src/CommandForWinForms/ICommand.cs:6 | a position holding the delegate with no registration of it after |
| Commands.RemoveLastDropsLastOccurrence | src/CommandForWinForms/ICommand.cs:6 | the entry removed is the last registration of the delegate, and the entries before and after it stay, in order |
| Commands.UICommandBase.constructor | src/CommandForWinForms/UICommandBase.cs:34-39 | a routed command with the given gesture list (or none), an empty channel, the memo off and nothing remembered |
| Commands.UICommandBase.InputGestures | src/CommandForWinForms/UICommandBase.cs:14 | the cached list if there is one; otherwise the factory's list, or an empty list, which is cached; the factory is consulted only on the first use |
| Commands.UICommandBase.TryGetInputGestures | src/CommandForWinForms/UICommandBase.cs:18-32 | found exactly when a list is cached or the factory produces one; a found list is cached; nothing is found and nothing is cached otherwise, and the gestures stay what they were; the factory is consulted exactly when no list was cached |
| Commands.UICommandBase.AddInputGesture | src/CommandForWinForms/UICommandBase.cs:14 | adding to `InputGestures` appends to the list it returns, created on first use |
| Commands.NewUICommand | src/CommandForWinForms/UICommand.cs:9-17 | a null name, then an empty name, then a null text are refused in that order; success exactly when all three pass, with the given name, text and gestures |
| AppCommands.ApplicationCommands.constructor | src/CommandForWinForms/ApplicationCommands.cs:5-25 | no singleton exists yet |
| AppCommands.ApplicationCommands.Close | src/CommandForWinForms/ApplicationCommands.cs:5-12 | the first use creates `Close`, with no gesture factory, and every later use returns that same command |
| AppCommands.ApplicationCommands.Print | src/CommandForWinForms/ApplicationCommands.cs:14-23 | the first use creates `Print`, whose factory gives Ctrl+P, and every later use returns that same command |
| AppCommands.ApplicationCommands.PrintPreview | src/CommandForWinForms/ApplicationCommands.cs:25-34 | the first use creates `PrintPreview`, whose factory gives Ctrl+F2, and every later use returns that same command |
| AppCommands.BuiltInChords | src/CommandForWinForms/ApplicationCommands.cs:21-22 | Print's gesture is matched by Ctrl+P and nothing else, PrintPreview's by Ctrl+F2 and nothing else |
| WeakEvents.WeakEventHandler.constructor | src/CommandForWinForms/WeakEventHandler.cs:7-8 | a channel with an empty table and no references |
| WeakEvents.WeakEventHandler.AddHandler | src/CommandForWinForms/WeakEventHandler.cs:10-34 | null is ignored; a delegate is kept alive by its receiver (the channel itself for a static method), turning a single entry into a list on the second delegate, and is appended as a live weak reference |
| WeakEvents.WeakEventHandler.RemoveHandler | src/CommandForWinForms/WeakEventHandler.cs:36-63 | null is ignored; one delegate is dropped from the receiver's list (a single entry goes whatever it is), and the first live reference to the delegate is removed |
| WeakEvents.WeakEventHandler.Invoke | src/CommandForWinForms/WeakEventHandler.cs:67-76 | calls every live delegate once per registration, in subscription order, and prunes the dead references |
| WeakEvents.WeakEventHandler.Collect | src/CommandForWinForms/WeakEventHandler.cs:7-8 | when a receiver is collected, its table entry goes and its references die |
| WeakEvents.PruneKeepsLiveHandlers | src/CommandForWinForms/WeakEventHandler.cs:67-76 | pruning changes nothing about who is called, and leaves only live references |
| WeakEvents.AddedHandlerCalledLast | src/CommandForWinForms/WeakEventHandler.cs:10-34 | a new subscriber is called after every earlier one, and a second registration is called twice |
| WeakEvents.RemoveDropsOneCall | src/CommandForWinForms/WeakEventHandler.cs:36-63 | unsubscribing removes exactly the first call of that delegate and keeps the order of the others |
| WeakEvents.CollectedNeverCalled | src/CommandForWinForms/WeakEventHandler.cs:67-76 | once its receiver is collected, a delegate is never called again |
| WeakEvents.DeadReferencesKeepChannelNonEmpty | src/CommandForWinForms/WeakEventHandler.cs:36-76 | a channel whose references are all dead calls nobody; no `RemoveHandler` shortens it, so it stays non-empty, and the pruning of an `Invoke` empties it |
| Collections.ItemList.constructor | src/CommandForWinForms/ControlCommandProperties.cs:22 | a new binding list is empty |
| Collections.ItemList.Add | src/CommandForWinForms/ControlCommandProperties.cs:36-40 | `IList.Add` appends |
| Collections.ItemList.SetAt | src/CommandForWinForms/ControlCommandProperties.cs:36-40 | the indexer replaces one position and keeps the others |
| Collections.ItemList.RemoveAt | src/CommandForWinForms/ControlCommandProperties.cs:36-40 | `RemoveAt` drops one position and keeps the order of the rest |
| Collections.ItemList.Clear | src/CommandForWinForms/ControlCommandProperties.cs:36-40 | `Clear` empties the list |
| Collections.CollectionHolder.constructor | src/CommandForWinForms/ControlCommandProperties.cs:8-10 | no dictionary until first use |
| Collections.CollectionHolder.TryGetCollection | src/CommandForWinForms/ControlCommandProperties.cs:42-51 | found exactly when the dictionary exists and has an entry for the element |
| Collections.CollectionHolder.GetOrCreate | src/CommandForWinForms/ControlCommandProperties.cs:12-33 | null is `ArgumentNull` and a disposed control is `ObjectDisposed`, both changing nothing; otherwise an existing list is returned unchanged, or a new empty list is stored (the dictionary made on first use) and the control is hooked for disposal |
| Collections.CollectionHolder.KeyDisposed | src/CommandForWinForms/ControlCommandProperties.cs:53-58 | a disposed element's entry goes, and no other entry changes |
| CommandBindings.Invocations | src/CommandForWinForms/CommandBinding.cs:35-53 | a multicast calls each subscriber once, in order, with the sender |
| CommandBindings.CommandBinding.SetCommand | src/CommandForWinForms/CommandBinding.cs:10-18 | setting the command to null is an `ArgumentNull` error, exactly; otherwise only the command changes |
| CommandBindings.NewCommandBinding | src/CommandForWinForms/CommandBinding.cs:26-33 | a null command is an `ArgumentNull` error, exactly; otherwise a binding with the given handlers and no preview handler |
| CommandBindings.CommandBinding.OnPreviewCanExecute | src/CommandForWinForms/CommandBinding.cs:35-43 | with no preview subscriber it answers false and touches nothing; otherwise it creates the arguments if they are null, runs the subscribers in order and answers `CanExecute` |
| CommandBindings.CommandBinding.OnCanExecute | src/CommandForWinForms/CommandBinding.cs:45-53 | with no `CanExecute` subscriber it answers whether there is an `Executed` handler; otherwise as the preview step, over the `CanExecute` subscribers |
| CommandBindings.CommandBinding.OnExecuted | src/CommandForWinForms/CommandBinding.cs:55-76 | without `Executed` it answers false and does nothing; otherwise it first clears `CanExecute` on reused arguments (or creates new ones) and runs the `CanExecute` subscribers, then posts `Executed` on the sender and answers true exactly when they allow it |
| CommandBindings.Fire | src/CommandForWinForms/CommandBinding.cs:41 | raising a query event calls every subscriber in order, and the flags are what their assignments leave |
| CommandBindings.Apply | src/CommandForWinForms/CommandBinding.cs:41 | one subscriber's assignments update the flags in order |
| RoutingSpec.ChainMembers | src/CommandForWinForms/UICommandBase.cs:195-213 | a binding is in a target's chain exactly when it is registered on the target or an ancestor and is for this command |
| RoutingSpec.MatchingMembers | src/CommandForWinForms/UICommandBase.cs:202-206 | one element contributes exactly its bindings for the command |
| RoutingSpec.ChainAlongMembers | src/CommandForWinForms/UICommandBase.cs:198-210 | the bindings collected along a path are exactly those for the command on the path's elements |
| RoutingSpec.UpRanksDecrease | src/CommandForWinForms/UICommandBase.cs:208 | every step up the parent chain reaches a strictly lower rank |
| RoutingSpec.NearestElementFirst | src/CommandForWinForms/UICommandBase.cs:195-213 | the chain lists nearer elements first: no binding comes after one on a farther-out element |
| RoutingSpec.PreviewVisitsBackward | src/CommandForWinForms/UICommandBase.cs:96-103 | the preview pass calls the preview handlers of a suffix of the chain, outermost first, and the whole chain when nothing decides |
| RoutingSpec.UndecidedPreviewLeavesCleared | src/CommandForWinForms/UICommandBase.cs:96-103 | a preview pass that decides nothing leaves the arguments null or with both flags cleared |
| RoutingSpec.OutermostPreviewVeto | src/CommandForWinForms/UICommandBase.cs:96-103 | a preview handler on the outermost binding that sets `Handled` without `CanExecute` makes `CanExecute` and `ExecuteIfCan` answer false after that one call |
| RoutingSpec.BubbleEntriesCleared | src/CommandForWinForms/UICommandBase.cs:105-112 | a bubble pass that starts from cleared arguments meets cleared arguments at every binding it reaches |
| RoutingSpec.BubbleHandlersMeetClearedArgs | src/CommandForWinForms/UICommandBase.cs:93-112 | after an undecided preview, every `CanExecute` subscriber of the query meets arguments with both flags clear |
| RoutingSpec.ExecutedStepIsAccepts | src/CommandForWinForms/CommandBinding.cs:55-76 | whatever argument state it meets, `OnExecuted` succeeds exactly when the binding has `Executed` and its `CanExecute` subscribers allow it, and it posts only then |
| RoutingSpec.ExecutePostsFirstAccepting | src/CommandForWinForms/UICommandBase.cs:143-157 | the execute pass posts exactly the first accepting binding's `Executed`, at most one post; it succeeds exactly when some binding accepts, and never vetoes |
| RoutingSpec.ExecuteIfCanPostsLikeExecute | src/CommandForWinForms/UICommandBase.cs:138-190 | unless the preview vetoes, `ExecuteIfCan` posts what `Execute` posts: the first accepting binding's handler; `Execute` succeeds exactly when it posts |
| RoutingSpec.FirstAcceptingNonEmpty | src/CommandForWinForms/UICommandBase.cs:147-153 | something is posted exactly when some binding of the chain accepts |
| RoutingSpec.CacheIsTransparent | src/CommandForWinForms/UICommandBase.cs:70-78 | while no binding changes, every answer during a raise equals a fresh evaluation |
| RoutingSpec.EvaluationsAreChanges | src/CommandForWinForms/UICommandBase.cs:70-78 | the memo evaluates exactly the queries that differ from the one before them |
| RoutingSpec.RepeatedQueryEvaluatesOnce | src/CommandForWinForms/UICommandBase.cs:118-136 | any number of identical queries in one raise are evaluated once |
| FormExtensions.DescentStopsAtLeaf | src/CommandForWinForms/FormExtensions.cs:5-18 | the active-control descent ends at a control that is no container, or at a container that is its own active control, never above where it started |
| FormExtensions.DescentNullIffChainBreaks | src/CommandForWinForms/FormExtensions.cs:5-18 | at any depth, the descent gives null exactly when some container it reaches has no active control, even if every outer one had one |
| FormExtensions.GetActiveControl | src/CommandForWinForms/FormExtensions.cs:5-18 | the loop follows active controls from the form until it reaches a control that is no container, or one that is its own active control |
| Host.Tree.Up | src/CommandForWinForms/UICommandBase.cs:156 | the parent chain starts at the element itself |
| Host.Tree.UpParent | src/CommandForWinForms/UICommandBase.cs:208 | one step up the chain drops exactly the element itself |
| Host.Tree.FindForm | src/CommandForWinForms/CommandHandler.cs:26 | the form found is the nearest form on the element's parent chain, the element itself included; none means no form is on it |
| Host.Host.SetEnabled | src/CommandForWinForms/CommandHandler.Button.cs:39-40 | sets one element's `Enabled` and changes nothing the commands read |
| Routing.ResolveTargetOf | src/CommandForWinForms/UICommandBase.cs:192-193 | an explicit target stands; otherwise the focused control of the active form, if there is one |
| Routing.GetTargetCommandBindings | src/CommandForWinForms/UICommandBase.cs:195-213 | returns the chain of bindings for the command from the target up to the root |
| Routing.Preview | src/CommandForWinForms/UICommandBase.cs:96-103 | the preview loop from the last binding back to the first ends as the preview pass says, with its calls in order |
| Routing.Bubble | src/CommandForWinForms/UICommandBase.cs:105-112 | the bubble loop from the first binding to the last ends as the bubble pass says, with its calls in order |
| Routing.ExecuteSteps | src/CommandForWinForms/UICommandBase.cs:180-185 | the execute loop of `ExecuteIfCan` ends as the execute pass says, with its calls and its post |
| Routing.CanExecuteCore | src/CommandForWinForms/UICommandBase.cs:87-116 | false with no binding; otherwise the preview pass decides, or else the bubble pass; the calls are the preview's and then the bubble's |
| Routing.CanExecute | src/CommandForWinForms/UICommandBase.cs:64-85 | false without a target; outside a raise, the fresh answer; during a raise, the memo answers a repeat and remembers any other query and its answer |
| Routing.Execute | src/CommandForWinForms/UICommandBase.cs:138-158 | without a target nothing happens; otherwise exactly the run of the execute pass over the target's chain, which posts the first accepting binding |
| Routing.ExecuteWalk | src/CommandForWinForms/UICommandBase.cs:143-157 | the upward walk with one argument object shared across elements is the execute pass over the whole chain |
| Routing.ExecuteList | src/CommandForWinForms/UICommandBase.cs:145-155 | one element's `foreach` is the execute pass over its bindings for the command |
| Routing.ExecutedStepPostsOnlyOnSuccess | src/CommandForWinForms/CommandBinding.cs:69-75 | `OnExecuted` posts nothing when it answers false |
| Routing.ExecuteIfCan | src/CommandForWinForms/UICommandBase.cs:160-190 | false without a target; otherwise a preview veto is false; a preview that grants or decides nothing goes on to the execute pass with the same arguments |
| CommandHandlers.DetachUndoesAttach | src/CommandForWinForms/CommandHandler.MenuItem.cs:47-53 | detaching a handler that is not being disposed removes every subscription its constructor made; while a menu item is disposed only its `Click` stays |
| CommandHandlers.MenuItemDetachAsWrittenKeepsDisposedHook | src/CommandForWinForms/CommandHandler.MenuItem.cs:47-53 | as written, the menu-item handler's detach leaves `MenuItem_Disposed` subscribed |
| CommandHandlers.AttachThenDetach | src/CommandForWinForms/CommandHandler.cs:19 | subscribing a handler's delegate and unsubscribing it leaves the channel's live subscribers as they were |
| CommandHandlers.CommandHandler.constructor | src/CommandForWinForms/CommandHandler.cs:13-20 | the handler holds command, parameter and target, subscribes its `OnCanExecuteChanged` to the command, and makes its kind's component subscriptions |
| CommandHandlers.CommandHandler.Unhooked | src/CommandForWinForms/CommandHandler.cs:13-20 | the base constructor alone: the fields and the live delegate on the command, with no component subscription |
| CommandHandlers.CommandHandler.GetTarget | src/CommandForWinForms/CommandHandler.cs:26 | the explicit target, else the focused control of the form the source control is on; none without a source control |
| CommandHandlers.CommandHandler.OnCanExecuteChanged | src/CommandForWinForms/CommandHandler.cs:30-42 | an unavailable component is left alone; otherwise its `Enabled` becomes the command's answer for the handler's parameter and target |
| CommandHandlers.CommandHandler.SetEnabled | src/CommandForWinForms/CommandHandler.ToolStripItem.cs:39-40 | sets the component's `Enabled` |
| CommandHandlers.CommandHandler.OnExecute | src/CommandForWinForms/CommandHandler.cs:44-55 | a routed command runs `ExecuteIfCan` on the handler's target; an application command executes only when it says it can |
| CommandHandlers.CommandHandler.ToolBarButtonClick | src/CommandForWinForms/CommandHandler.ToolBarButton.cs:36-40 | a tool-bar click on another button does nothing; on this button it is `OnExecute` |
| CommandHandlers.CommandHandler.DetachEvents | src/CommandForWinForms/CommandHandler.cs:62-66 | the delegate leaves the command's channel and the component subscriptions are removed |
| CommandHandlers.CommandHandler.OnDisposed | src/CommandForWinForms/CommandHandler.cs:57-60 | disposal detaches the handler from the command and from its component |
| CommandHandlers.CommandHandler.MenuItemDisposed | src/CommandForWinForms/CommandHandler.MenuItem.cs:41-45 | marks the menu-item handler as disposing, then detaches, keeping `Click` |
| CommandHandlers.CachedAnswerIsFresh | src/CommandForWinForms/UICommandBase.cs:64-85 | with a memo that agrees with the bindings, an answer during a raise is the fresh answer, and the memo left behind agrees too |
| CommandHandlers.RaiseIsTransparent | src/CommandForWinForms/UICommandBase.cs:118-136 | while the bindings stay put, a raise sets every component's `Enabled` as if each handler had asked afresh |
| CommandHandlers.RaiseTouchesOnlyItsComponents | src/CommandForWinForms/UICommandBase.cs:118-136 | a raise leaves alone every component that no handler of the command is attached to |
| CommandHandlers.Deliver | src/CommandForWinForms/CommandHandler.cs:30-42 | one delegate call of a raise is one notification step |
| CommandHandlers.BeginRaise | src/CommandForWinForms/UICommandBase.cs:120-127 | a raise switches the memo on and empties it, and takes the live delegates in order, pruning the dead |
| CommandHandlers.DeliverAll | src/CommandForWinForms/WeakEventHandler.cs:67-76 | the delegate calls of a raise, in order, are the dispatch over them |
| CommandHandlers.RaiseCanExecuteChanged | src/CommandForWinForms/UICommandBase.cs:118-136 | an empty channel does nothing; otherwise every live delegate is notified in order with the memo on, and the memo is switched off and emptied afterwards |
| CommandProperties.PutThenGet | src/CommandForWinForms/ControlCommandProperties.cs:67-103 | after `SetCommandCore`, the component answers the new handler's command (none for null), and every other component answers as before |
| CommandProperties.Attachments.constructor | src/CommandForWinForms/ControlCommandProperties.cs:65-105 | no dictionary and no cache until first use |
| CommandProperties.Attachments.Retire | src/CommandForWinForms/ControlCommandProperties.cs:87-91 | a replaced handler is detached and its component re-enabled |
| CommandProperties.Attachments.Store | src/CommandForWinForms/ControlCommandProperties.cs:76-101 | the dictionary is made on first use, the component hooked, the old handler retired, the new one stored, and the cache dropped |
| CommandProperties.Attachments.SetCommandCore | src/CommandForWinForms/ControlCommandProperties.cs:74-103 | a null handler for a component without an entry changes nothing; otherwise the entry is replaced as in `Store`, and an available new handler sets its component's `Enabled` to the command's answer |
| CommandProperties.Attachments.Replace | src/CommandForWinForms/ControlCommandProperties.cs:76-102 | past the early return: store, then the new handler's refresh |
| CommandProperties.Attachments.Update | src/CommandForWinForms/ControlCommandProperties.cs:102 | the new handler's refresh: `Enabled` follows the command's answer while the component is available |
| CommandProperties.Attachments.KeyDisposed | src/CommandForWinForms/ControlCommandProperties.cs:53-58 | a disposed component's entry goes, so it answers no command, and other entries stay |
| CommandProperties.Attachments.RaiseCanExecuteChangedAllUICommands | src/CommandForWinForms/ControlCommandProperties.cs:107-127 | with a cache, each cached command is raised once; without one, each distinct routed command a stored handler holds is raised once and becomes the cache; with no dictionary, nothing |
| CommandProperties.Attachments.RaiseEach | src/CommandForWinForms/ControlCommandProperties.cs:109-113 | each cached command is raised exactly once |
| CommandProperties.Attachments.RaiseHeld | src/CommandForWinForms/ControlCommandProperties.cs:114-126 | each routed command held by a stored handler is raised exactly once, and those are what it collects |
| CommandProperties.GetCommand | src/CommandForWinForms/CommandHandler.Button.cs:5-9 | a null component is `ArgumentNull`, exactly; otherwise the attached command, if any |
| CommandProperties.SetCommand | src/CommandForWinForms/CommandHandler.ToolStripItem.cs:11-19 | rejected exactly for a null component, a disposed button or tool-strip item, or a tool-bar button on no tool bar; the first two change nothing, while the tool-bar button's failed constructor leaves a fresh, unhooked handler subscribed to the command; otherwise the component answers the new command, no other entry changes, and a fresh handler of its kind holds the command and its parameter and target |
| CommandProperties.Install | src/CommandForWinForms/CommandHandler.MenuItem.cs:16-17 | a fresh handler of the kind for a non-null command (none for null), handed to `SetCommandCore` |
| InputBindings.InputBinding.constructor | src/CommandForWinForms/InputBinding.cs:25-32 | the binding holds command and gesture, with no parameter or target |
| InputBindings.NewInputBinding | src/CommandForWinForms/InputBinding.cs:25-32 | a null command, then a null gesture, is an `ArgumentNull` error; success exactly when both are given |
| InputBindings.InputBinding.SetGesture | src/CommandForWinForms/InputBinding.cs:15-23 | the base refuses null; a key or mouse binding refuses any gesture of the wrong kind; the gesture changes exactly on success |
| InputBindings.InputBinding.SetCommand | src/CommandForWinForms/InputBinding.cs:7 | the command is set as given, null included |
| InputBindings.InputBinding.SetCommandParameter | src/CommandForWinForms/InputBinding.cs:9 | the parameter is set |
| InputBindings.InputBinding.SetCommandTarget | src/CommandForWinForms/InputBinding.cs:11 | the target is set |
| InputBindings.InputBinding.SetKey | src/CommandForWinForms/KeyBinding.cs:17-25 | the key becomes the value and the modifiers stay; an unchanged key keeps the gesture, a new one gets a fresh gesture with an empty display string |
| InputBindings.InputBinding.SetModifiers | src/CommandForWinForms/KeyBinding.cs:28-36 | the modifiers become the value and the key stays; an unchanged value keeps the gesture |
| InputBindings.InputBinding.SetMouseAction | src/CommandForWinForms/MouseBinding.cs:15-23 | a new action replaces the gesture with one that has no modifiers; the same action keeps it |
| InputBindings.NewKeyBinding | src/CommandForWinForms/KeyBinding.cs:41-42 | a null command is an `ArgumentNull` error, exactly; otherwise the key gesture of the key and modifiers |
| InputBindings.NewMouseBinding | src/CommandForWinForms/MouseBinding.cs:28-29 | a null command is an `ArgumentNull` error, exactly; otherwise the mouse gesture of the action with no modifiers |
| UiThread.Dispatcher.constructor | src/CommandForWinForms/CommandManager.cs:62 | nothing posted and nothing called yet |
| UiThread.Dispatcher.Post | src/CommandForWinForms/CommandBinding.cs:71 | `BeginInvoke` runs the work after everything posted before it |
| UiThread.Dispatcher.Record | src/CommandForWinForms/CommandBinding.cs:41 | a handler call is recorded after the earlier ones |
| Manager.Subtree | src/CommandForWinForms/CommandManager.cs:15-32 | the walk of `Initialize` starts at the control itself |
| Manager.SubtreeDescends | src/CommandForWinForms/CommandManager.cs:27-31 | `Initialize` never reaches outside the control it starts from |
| Manager.InputsCount | src/CommandForWinForms/CommandManager.cs:17-24 | an element gets `GotFocus` and `KeyDown` once per visit if it is not a label, container, panel, group box, splitter or progress bar, and never otherwise |
| Manager.FormHooks | src/CommandForWinForms/CommandManager.cs:8-32 | the form itself, a container control, gets neither `GotFocus` nor `KeyDown`; every other input control on it does |
| Manager.CommandManager.constructor | src/CommandForWinForms/CommandManager.cs:8-13 | a manager with no subscriptions yet |
| Manager.CommandManager.Initialize | src/CommandForWinForms/CommandManager.cs:15-32 | hooks `GotFocus` and `KeyDown` on the input controls of the subtree and `ControlAdded` on all of it, in visiting order |
| Manager.CommandManager.OnControlAdded | src/CommandForWinForms/CommandManager.cs:45-50 | a null control is ignored; an added control is hooked like those present at construction |
| Manager.CommandManager.OnGotFocus | src/CommandForWinForms/CommandManager.cs:34-37 | focus requests a requery |
| Manager.CommandManager.OnKeyDown | src/CommandForWinForms/CommandManager.cs:39-43 | a key already handled is left alone; otherwise `SuppressKeyPress` (and with it `Handled`) is whether `ProcessInput` claims the key |
| Manager.NewCommandManager | src/CommandForWinForms/CommandManager.cs:8-13 | a null form is `ArgumentNull`, exactly; otherwise the form and its subtree are hooked |
| Manager.KeyEventArgs.constructor | src/CommandForWinForms/CommandManager.cs:39-43 | the stroke with both flags clear |
| Manager.KeyEventArgs.SetSuppressKeyPress | src/CommandForWinForms/CommandManager.cs:42 | setting `SuppressKeyPress` sets `Handled` to the same value |
| Manager.RequestsCoalesce | src/CommandForWinForms/CommandManager.cs:113-125 | any number of requests set the flag and leave exactly one live timer, with no broadcast yet |
| Manager.BurstBroadcastsOnce | src/CommandForWinForms/CommandManager.cs:111-135 | a burst of requests followed by the timer firing broadcasts once and returns to idle |
| Manager.ReplayBounded | src/CommandForWinForms/CommandManager.cs:111-135 | every sequence of requests and ticks keeps the flag set exactly while one timer lives, and broadcasts no more often than requested |
| Manager.Requery.constructor | src/CommandForWinForms/CommandManager.cs:111 | the flag is clear and no timer lives |
| Manager.Requery.InvalidateRequerySuggested | src/CommandForWinForms/CommandManager.cs:113-125 | a timer is set, and the flag raised, only while no request is pending |
| Manager.Requery.TimerProc | src/CommandForWinForms/CommandManager.cs:129-135 | clears the flag, kills the timer, and raises every known routed command once |
| Manager.FirstKeyBinding | src/CommandForWinForms/CommandManager.cs:58-65 | the first input binding whose gesture matches, every earlier one not matching |
| Manager.FirstGesture | src/CommandForWinForms/CommandManager.cs:76-85 | the first gesture that matches, every earlier one not matching |
| Manager.GestureMapOf | src/CommandForWinForms/CommandManager.cs:72-74 | the gesture lists of exactly the routed commands of the bindings |
| Manager.WalkClaims | src/CommandForWinForms/CommandManager.cs:52-95 | the key is claimed exactly when some element on the parent chain claims it on its own turn |
| Manager.UnmatchedKeyRunsNothing | src/CommandForWinForms/CommandManager.cs:52-95 | a key no input binding and no command gesture on the path matches claims nothing, runs nothing and posts nothing |
| Manager.BindingsUnmatched | src/CommandForWinForms/CommandManager.cs:68-89 | with no matching gesture, the command bindings of an element run nothing |
| Manager.MouseBindingsNeverClaim | src/CommandForWinForms/CommandManager.cs:58-65 | mouse bindings never claim a key press |
| Manager.MatchInput | src/CommandForWinForms/CommandManager.cs:56-65 | finds the first input binding on the element whose gesture matches |
| Manager.FindGesture | src/CommandForWinForms/CommandManager.cs:76-85 | finds the first matching gesture |
| Manager.Gather | src/CommandForWinForms/CommandManager.cs:74 | `TryGetInputGestures` yields the command's gesture list, found or not |
| Manager.ExecuteAt | src/CommandForWinForms/CommandManager.cs:80 | `ExecuteIfCan(null, target)` on the element whose gesture matched |
| Manager.TryGestures | src/CommandForWinForms/CommandManager.cs:76-85 | on the first matching gesture runs `ExecuteIfCan` and stops, whatever it answers |
| Manager.BindingTurnOf | src/CommandForWinForms/CommandManager.cs:70-88 | one command binding's turn; a command that is not routed is passed over |
| Manager.BindingsTurnOf | src/CommandForWinForms/CommandManager.cs:68-89 | the command bindings of an element in order, until one executes |
| Manager.ElementTurnOf | src/CommandForWinForms/CommandManager.cs:56-89 | an element's first matching input binding is posted and claims the key; otherwise its command bindings are tried |
| Manager.ProcessInput | src/CommandForWinForms/CommandManager.cs:52-95 | from the sender up the parent chain, each element's turn, until one claims the key; a null sender claims nothing |
| Manager.ExecuteCommand | src/CommandForWinForms/CommandManager.cs:96-109 | a routed command executes on the binding's target, else on the claiming element; an application command executes only when it says it can; a null command fails |

## Left out

- Threads, the garbage collector and `BeginInvoke`: collection is an explicit `WeakEventHandler.Collect` step, and the UI thread is a FIFO queue of posted work.
- The Win32 timer: `SetTimer` and `KillTimer` are a count of live timers.
- Manager.Requery.TimerProc: requires a live timer, which is what the system guarantees when it calls the procedure.
- Key events as a whole: only the key code and the modifiers of `KeyEventArgs` are modelled.
- Mouse input: mouse gestures are matched, but no mouse event reaches the command manager, as in the code.
- The order in which a `HashSet` or a `Dictionary` enumerates is not modelled.
- CommandProperties.Attachments.RaiseCanExecuteChangedAllUICommands: states which commands are raised, each once, but not in which order, and does not compose the effect each raise has on the components' `Enabled`.
- CommandProperties.SetCommand: does not state the fresh handler's component hooks and channel registration; `CommandHandler.constructor` states them.
- CommandProperties.Install: does not state the fresh handler's component hooks either, for the same reason.
- A tool-bar button that is on no tool bar makes the handler's constructor fail after its base constructor subscribed; `SetCommand` reports that as `NullReference`, and the half-built handler stays on the command until its weak reference dies (a routed command) or for as long as the application command lives.
- CommandHandlers.RaiseCanExecuteChanged: handler exceptions are not modelled, since no handler effect can throw. So the model has no `finally` reset of the raise flag and the memo key on an exception, no later delegates skipped, and no exception escaping `CanExecute`, `Execute` or `ExecuteIfCan`; the reset is stated for a normal return only.
- `ObjectDisposed` carries no object name, while the exception the source throws names the control; only the kind of error is modelled.
- CommandHandlers.Deliver: a `CanExecuteChanged` delegate whose receiver is not a command handler (an application's own subscriber) is called with no modelled effect and leaves no trace.
- Command bindings are values, not references: the model does not capture one binding shared between two lists, or subscribers added to a binding after it was put in a list.
- WeakEvents.WeakEventHandler.Collect: collects by receiver only. When `RemoveHandler` drops a receiver's single table entry for another delegate of that receiver, the delegate that entry kept alive loses its strong root and may be collected while its receiver lives; the model keeps calling it.
- Manager.CommandManager.Initialize: records every `+=`, so a control that is added again is hooked twice, and the recorded sequences show that.
- A mouse gesture's settable properties: `MouseGesture` is a value, and re-assigning its action is not modelled.
- Application commands: `SimpleCommand` stands for an application's own `ICommand`, with a fixed answer per parameter and its calls recorded.
- The cache of routed commands is not reset when a component is disposed; the model follows the code in this.
- The ghost parameters `view`, `gm` and `sc` name the host state and the command gesture lists a call reads; they add no behaviour.

## Findings

| source | as written | input that shows it | evidently intended | confidence | as-written member | corrected member |
|---|---|---|---|---|---|---|
| src/CommandForWinForms/CommandHandler.MenuItem.cs:30-52 | the constructor subscribes `MenuItem_Disposed`, but `DetachComponentEvents` removes `OnDisposed`, which was never subscribed | set a command on a menu item, then set another command on it: the first handler stays subscribed to `Disposed` | remove `MenuItem_Disposed` | not executed | CommandHandlers.MenuItemDetachAsWrittenKeepsDisposedHook | CommandHandlers.DetachUndoesAttach |
