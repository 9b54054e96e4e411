/** A command binding: for one command on one element, the handlers that
    decide whether it can run (`PreviewCanExecute`, `CanExecute`) and the
    handlers that run it (`Executed`). A binding belongs to the binding list of
    exactly one element, so it is a value kept in that list. */
module CommandBindings {
  import opened Wrappers
  import opened Host
  import opened Commands
  import opened EventArgs
  import opened UiThread

  /** The handler calls a multicast makes, in order. */
  function Invocations(hs: seq<ArgsHandler>, sender: Element): (calls: seq<Call>)
    ensures |calls| == |hs|
    ensures forall i | 0 <= i < |hs| :: calls[i] == Invoked(hs[i].id, sender)
  {
    if hs == [] then [] else [Invoked(hs[0].id, sender)] + Invocations(hs[1..], sender)
  }

  /** What one binding step does: its answer, the argument reference after
      it, the handler calls it made and the work it posted. */
  datatype StepResult = StepResult(result: bool, e: Option<Flags>, calls: seq<Call>, posted: seq<Work>)

  /** Executed handler ids; a multicast with no subscriber is a null event. */
  datatype CommandBinding = CommandBinding(command: Command, executed: seq<nat>,
                                           canExecute: seq<ArgsHandler>, preview: seq<ArgsHandler>)
  {
    /** The `Command` setter refuses null. */
    function SetCommand(value: Option<Command>): (r: Result<CommandBinding>)
      ensures value.None? <==> r == Err(ArgumentNull("value"))
      ensures r.Ok? ==> r.value == this.(command := value.value)
    {
      if value.None? then Err(ArgumentNull("value")) else Ok(this.(command := value.value))
    }

    /** `OnPreviewCanExecute`: no subscriber answers false and leaves the
        argument reference alone; otherwise the arguments are created if need
        be, the subscribers run and their `CanExecute` is the answer. */
    function PreviewStep(sender: Element, e: Option<Flags>): StepResult
    {
      if preview == [] then StepResult(false, e, [], [])
      else
        var f := RunHandlers(e.OrElse(Cleared), preview);
        StepResult(f.canExecute, Some(f), Invocations(preview, sender), [])
    }

    /** `OnCanExecute`: with no subscriber the answer is whether an `Executed`
        handler exists; otherwise as in the preview, and the flags the
        subscribers meet are not reset. */
    function CanExecuteStep(sender: Element, e: Option<Flags>): StepResult
    {
      if canExecute == [] then StepResult(executed != [], e, [], [])
      else
        var f := RunHandlers(e.OrElse(Cleared), canExecute);
        StepResult(f.canExecute, Some(f), Invocations(canExecute, sender), [])
    }

    /** The `Executed` callback posted on `sender`. */
    function Posting(sender: Element, parameter: Param): Work
    {
      RunExecuted(sender, executed, ExecutedEventArgs(command, parameter))
    }

    /** `OnExecuted`: without `Executed` nothing happens; with it and without a
        `CanExecute` subscriber it is posted; otherwise `CanExecute` is reset
        to false (`Handled` is kept) before the subscribers run, and it is
        posted only when they leave it true. */
    function ExecutedStep(sender: Element, parameter: Param, e: Option<Flags>): StepResult
    {
      if executed == [] then StepResult(false, e, [], [])
      else if canExecute == [] then StepResult(true, e, [], [Posting(sender, parameter)])
      else
        var start := if e.None? then Cleared else Flags(false, e.value.handled);
        var f := RunHandlers(start, canExecute);
        StepResult(f.canExecute, Some(f), Invocations(canExecute, sender),
                   if f.canExecute then [Posting(sender, parameter)] else [])
    }

    method OnPreviewCanExecute(sender: Element, parameter: Param, e: CanExecuteEventArgs?, ui: Dispatcher)
      returns (e': CanExecuteEventArgs?, r: bool)
      modifies e, ui`trace
      ensures var st := PreviewStep(sender, old(FlagsOf(e)));
        r == st.result && FlagsOf(e') == st.e && ui.trace == old(ui.trace) + st.calls
      ensures e' == e || (e == null && fresh(e') && e'.command == command && e'.parameter == parameter)
    {
      if preview == [] {
        return e, false;
      }
      e' := e;
      if e' == null {
        e' := new CanExecuteEventArgs(command, parameter);
      }
      Fire(preview, sender, e', ui);
      r := e'.canExecute;
    }

    method OnCanExecute(sender: Element, parameter: Param, e: CanExecuteEventArgs?, ui: Dispatcher)
      returns (e': CanExecuteEventArgs?, r: bool)
      modifies e, ui`trace
      ensures var st := CanExecuteStep(sender, old(FlagsOf(e)));
        r == st.result && FlagsOf(e') == st.e && ui.trace == old(ui.trace) + st.calls
      ensures e' == e || (e == null && fresh(e') && e'.command == command && e'.parameter == parameter)
    {
      if canExecute == [] {
        return e, executed != [];
      }
      e' := e;
      if e' == null {
        e' := new CanExecuteEventArgs(command, parameter);
      }
      Fire(canExecute, sender, e', ui);
      r := e'.canExecute;
    }

    method OnExecuted(sender: Element, parameter: Param, e: CanExecuteEventArgs?, ui: Dispatcher)
      returns (e': CanExecuteEventArgs?, r: bool)
      modifies e, ui`trace, ui`queue
      ensures var st := ExecutedStep(sender, parameter, old(FlagsOf(e)));
        && r == st.result && FlagsOf(e') == st.e
        && ui.trace == old(ui.trace) + st.calls && ui.queue == old(ui.queue) + st.posted
      ensures e' == e || (e == null && fresh(e') && e'.command == command && e'.parameter == parameter)
    {
      e' := e;
      if executed != [] {
        var can := true;
        if canExecute != [] {
          if e' == null {
            e' := new CanExecuteEventArgs(command, parameter);
          } else {
            e'.canExecute := false;
          }
          Fire(canExecute, sender, e', ui);
          can := e'.canExecute;
        }
        if can {
          ui.Post(Posting(sender, parameter));
          return e', true;
        }
      }
      return e', false;
    }
  }

  /** `new CommandBinding(command, executed, canExecute)`; a null command throws. */
  function NewCommandBinding(command: Option<Command>, executed: seq<nat>, canExecute: seq<ArgsHandler>)
    : (r: Result<CommandBinding>)
    ensures command.None? <==> r == Err(ArgumentNull("command"))
    ensures r.Ok? ==> r.value == CommandBinding(command.value, executed, canExecute, [])
  {
    if command.None? then Err(ArgumentNull("command"))
    else Ok(CommandBinding(command.value, executed, canExecute, []))
  }

  /** Raising a query event: every subscriber is called in order and applies
      its writes to the shared arguments. */
  method Fire(hs: seq<ArgsHandler>, sender: Element, e: CanExecuteEventArgs, ui: Dispatcher)
    modifies e`canExecute, e`handled, ui`trace
    ensures FlagsOf(e) == Some(RunHandlers(old(Flags(e.canExecute, e.handled)), hs))
    ensures ui.trace == old(ui.trace) + Invocations(hs, sender)
  {
    var i := 0;
    while i < |hs|
      invariant 0 <= i <= |hs|
      invariant RunHandlers(old(Flags(e.canExecute, e.handled)), hs)
             == RunHandlers(Flags(e.canExecute, e.handled), hs[i..])
      invariant ui.trace == old(ui.trace) + Invocations(hs[..i], sender)
    {
      ui.Record(Invoked(hs[i].id, sender));
      Apply(hs[i].effects, e);
      assert hs[i..][1..] == hs[i + 1..];
      InvocationsAppend(hs[..i], hs[i], sender);
      assert hs[..i + 1] == hs[..i] + [hs[i]];
      i := i + 1;
    }
  }

  method Apply(effects: seq<Effect>, e: CanExecuteEventArgs)
    modifies e`canExecute, e`handled
    ensures Flags(e.canExecute, e.handled) == ApplyEffects(old(Flags(e.canExecute, e.handled)), effects)
  {
    var i := 0;
    while i < |effects|
      invariant 0 <= i <= |effects|
      invariant ApplyEffects(old(Flags(e.canExecute, e.handled)), effects)
             == ApplyEffects(Flags(e.canExecute, e.handled), effects[i..])
    {
      assert effects[i..][1..] == effects[i + 1..];
      match effects[i] {
        case SetCanExecute(v) => e.canExecute := v;
        case SetHandled(v) => e.handled := v;
      }
      i := i + 1;
    }
  }

  lemma {:induction false} InvocationsAppend(hs: seq<ArgsHandler>, h: ArgsHandler, sender: Element)
    ensures Invocations(hs + [h], sender) == Invocations(hs, sender) + [Invoked(h.id, sender)]
  {
    if hs == [] {
      assert Invocations([h], sender) == [Invoked(h.id, sender)] + Invocations([], sender);
    } else {
      assert (hs + [h])[1..] == hs[1..] + [h];
      InvocationsAppend(hs[1..], h, sender);
    }
  }
}
