/** The arguments the library hands to command-binding handlers. */
module EventArgs {
  import opened Wrappers
  import opened Commands

  /** The query arguments: one instance is shared by every handler of one
      resolution pass, so what a handler writes is what the next one reads.
      Both flags start false. */
  class CanExecuteEventArgs {
    const command: Command
    const parameter: Param
    var canExecute: bool
    var handled: bool

    constructor(command: Command, parameter: Param)
      ensures this.command == command && this.parameter == parameter
      ensures !canExecute && !handled
    {
      this.command := command;
      this.parameter := parameter;
      canExecute, handled := false, false;
    }

    method SetCanExecute(value: bool)
      modifies this`canExecute
      ensures canExecute == value
    {
      canExecute := value;
    }

    method SetHandled(value: bool)
      modifies this`handled
      ensures handled == value
    {
      handled := value;
    }
  }

  /** `new CanExecuteEventArgs(command, parameter)`; a null command throws. */
  method NewCanExecuteEventArgs(command: Option<Command>, parameter: Param) returns (r: Result<CanExecuteEventArgs>)
    ensures command.None? <==> r == Err(ArgumentNull("command"))
    ensures r.Ok? ==>
      && fresh(r.value) && r.value.command == command.value && r.value.parameter == parameter
      && !r.value.canExecute && !r.value.handled
  {
    if command.None? {
      return Err(ArgumentNull("command"));
    }
    var e := new CanExecuteEventArgs(command.value, parameter);
    return Ok(e);
  }

  /** The execution arguments: immutable. */
  datatype ExecutedEventArgs = ExecutedEventArgs(command: Command, parameter: Param)

  /** `new ExecutedEventArgs(command, parameter)`; a null command throws. */
  function NewExecutedEventArgs(command: Option<Command>, parameter: Param): (r: Result<ExecutedEventArgs>)
    ensures command.None? <==> r == Err(ArgumentNull("command"))
    ensures r.Ok? ==> Some(r.value.command) == command && r.value.parameter == parameter
  {
    if command.None? then Err(ArgumentNull("command"))
    else Ok(ExecutedEventArgs(command.value, parameter))
  }

  /** The two flags of a query argument, the part handlers act on. */
  datatype Flags = Flags(canExecute: bool, handled: bool)

  const Cleared := Flags(false, false)

  /** The flags of an argument reference; null is `None`. */
  function FlagsOf(e: CanExecuteEventArgs?): Option<Flags>
    reads e
  {
    if e == null then None else Some(Flags(e.canExecute, e.handled))
  }

  /** What one subscriber does to the arguments: a handler sets the flags. */
  datatype Effect = SetCanExecute(value: bool) | SetHandled(value: bool)

  /** One subscriber of a `CanExecute` or `PreviewCanExecute` event. */
  datatype ArgsHandler = ArgsHandler(id: nat, effects: seq<Effect>)

  function ApplyEffects(f: Flags, effects: seq<Effect>): Flags
    decreases effects
  {
    if effects == [] then f
    else
      var g := match effects[0]
        case SetCanExecute(v) => f.(canExecute := v)
        case SetHandled(v) => f.(handled := v);
      ApplyEffects(g, effects[1..])
  }

  /** The flags after a multicast event ran its subscribers in order. */
  function RunHandlers(f: Flags, hs: seq<ArgsHandler>): Flags
    decreases hs
  {
    if hs == [] then f else RunHandlers(ApplyEffects(f, hs[0].effects), hs[1..])
  }

  /** The last `SetCanExecute` a multicast performs, if any. */
  function LastCanExecute(hs: seq<ArgsHandler>): Option<bool>
  {
    if hs == [] then None
    else
      var rest := LastCanExecute(hs[1..]);
      if rest.Some? then rest else LastCanExecute1(hs[0].effects)
  }

  function LastCanExecute1(effects: seq<Effect>): Option<bool>
  {
    if effects == [] then None
    else
      var rest := LastCanExecute1(effects[1..]);
      if rest.Some? then rest
      else if effects[0].SetCanExecute? then Some(effects[0].value) else None
  }

  lemma {:induction false} ApplyEffectsCanExecute(f: Flags, effects: seq<Effect>)
    ensures ApplyEffects(f, effects).canExecute == LastCanExecute1(effects).OrElse(f.canExecute)
    decreases effects
  {
    if effects != [] {
      var g := match effects[0]
        case SetCanExecute(v) => f.(canExecute := v)
        case SetHandled(v) => f.(handled := v);
      ApplyEffectsCanExecute(g, effects[1..]);
    }
  }

  /** What a multicast leaves in `CanExecute` depends only on the value it
      started with and the last subscriber write to it; the `Handled` flag it
      meets plays no part. */
  lemma {:induction false} RunHandlersCanExecute(f: Flags, hs: seq<ArgsHandler>)
    ensures RunHandlers(f, hs).canExecute == LastCanExecute(hs).OrElse(f.canExecute)
    decreases hs
  {
    if hs != [] {
      ApplyEffectsCanExecute(f, hs[0].effects);
      RunHandlersCanExecute(ApplyEffects(f, hs[0].effects), hs[1..]);
    }
  }
}
