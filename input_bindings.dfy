/** Input bindings: a gesture tied to a command, with an optional parameter and
    target. Key and mouse bindings accept only their own gesture kind. */
module InputBindings {
  import opened Wrappers
  import opened Gestures
  import opened Host
  import opened Commands

  /** `InputBinding`, `KeyBinding` or `MouseBinding`. */
  datatype BindingKind = PlainBinding | KeyBinding | MouseBinding

  predicate Accepts(kind: BindingKind, g: InputGesture)
  {
    match kind
    case PlainBinding => true
    case KeyBinding => g.KeyGesture?
    case MouseBinding => g.MouseGesture?
  }

  class InputBinding {
    const kind: BindingKind
    /** The command setter has no null check, so null can be stored. */
    var command: Option<Command>
    var commandParameter: Param
    var commandTarget: Option<Element>
    var gesture: InputGesture

    ghost predicate Valid()
      reads this
    {
      Accepts(kind, gesture)
    }

    constructor(kind: BindingKind, command: Command, gesture: InputGesture)
      requires Accepts(kind, gesture)
      ensures Valid() && this.kind == kind && this.command == Some(command) && this.gesture == gesture
      ensures commandParameter == Null && commandTarget == None
    {
      this.kind := kind;
      this.command := Some(command);
      this.gesture := gesture;
      commandParameter := Null;
      commandTarget := None;
    }

    /** The `Gesture` setter: null is refused by the base class; a key or
        mouse binding refuses every other kind of gesture, null included, with
        an argument error. */
    method SetGesture(value: Option<InputGesture>) returns (r: Outcome)
      requires Valid()
      modifies this`gesture
      ensures Valid()
      ensures kind == PlainBinding && value.None? ==> r == Fail(ArgumentNull("value"))
      ensures kind != PlainBinding && (value.None? || !Accepts(kind, value.value)) ==> r == Fail(Argument("value"))
      ensures r == Done <==> value.Some? && Accepts(kind, value.value)
      ensures gesture == if r == Done then value.value else old(gesture)
    {
      if kind != PlainBinding && (value.None? || !Accepts(kind, value.value)) {
        return Fail(Argument("value"));
      }
      if value.None? {
        return Fail(ArgumentNull("value"));
      }
      gesture := value.value;
      return Done;
    }

    method SetCommand(value: Option<Command>)
      modifies this`command
      ensures command == value
    {
      command := value;
    }

    method SetCommandParameter(value: Param)
      modifies this`commandParameter
      ensures commandParameter == value
    {
      commandParameter := value;
    }

    method SetCommandTarget(value: Option<Element>)
      modifies this`commandTarget
      ensures commandTarget == value
    {
      commandTarget := value;
    }

    /** `KeyBinding.Key` and `KeyBinding.Modifiers` */
    function Key(): Key
      requires Valid() && kind == KeyBinding
      reads this
    {
      gesture.key
    }

    function Modifiers(): ModifierKeys
      requires Valid() && kind == KeyBinding
      reads this
    {
      gesture.modifiers
    }

    /** Setting the key to its current value keeps the gesture (and its display
        string); another value replaces it with a new gesture with the same
        modifiers and an empty display string. */
    method SetKey(value: Key)
      requires Valid() && kind == KeyBinding
      modifies this`gesture
      ensures Valid() && Key() == value && Modifiers() == old(Modifiers())
      ensures value == old(Key()) ==> gesture == old(gesture)
      ensures value != old(Key()) ==> gesture == KeyGesture(value, old(Modifiers()), "")
    {
      if value != gesture.key {
        gesture := KeyGesture(value, gesture.modifiers, "");
      }
    }

    method SetModifiers(value: ModifierKeys)
      requires Valid() && kind == KeyBinding
      modifies this`gesture
      ensures Valid() && Modifiers() == value && Key() == old(Key())
      ensures value == old(Modifiers()) ==> gesture == old(gesture)
      ensures value != old(Modifiers()) ==> gesture == KeyGesture(old(Key()), value, "")
    {
      if value != gesture.modifiers {
        gesture := KeyGesture(gesture.key, value, "");
      }
    }

    /** `MouseBinding.MouseAction` */
    function MouseAction(): MouseAction
      requires Valid() && kind == MouseBinding
      reads this
    {
      gesture.mouseAction
    }

    /** A new action replaces the gesture with one that has no modifiers. */
    method SetMouseAction(value: MouseAction)
      requires Valid() && kind == MouseBinding
      modifies this`gesture
      ensures Valid() && MouseAction() == value
      ensures value == old(MouseAction()) ==> gesture == old(gesture)
      ensures value != old(MouseAction()) ==> gesture == MouseGesture(value, {})
    {
      if value != gesture.mouseAction {
        gesture := MouseGesture(value, {});
      }
    }
  }

  /** `new InputBinding(command, gesture)`: the command is checked first. The
      key and mouse constructors take a gesture of their own kind or null. */
  method NewInputBinding(kind: BindingKind, command: Option<Command>, gesture: Option<InputGesture>)
    returns (r: Result<InputBinding>)
    requires gesture.Some? ==> Accepts(kind, gesture.value)
    ensures command.None? ==> r == Err(ArgumentNull("command"))
    ensures command.Some? && gesture.None? ==> r == Err(ArgumentNull("gesture"))
    ensures r.Ok? <==> command.Some? && gesture.Some?
    ensures r.Ok? ==>
      && fresh(r.value) && r.value.Valid() && r.value.kind == kind
      && r.value.command == command && r.value.gesture == gesture.value
      && r.value.commandParameter == Null && r.value.commandTarget == None
  {
    if command.None? {
      return Err(ArgumentNull("command"));
    }
    if gesture.None? {
      return Err(ArgumentNull("gesture"));
    }
    var b := new InputBinding(kind, command.value, gesture.value);
    return Ok(b);
  }

  /** `new KeyBinding(command, key, modifiers)` */
  method NewKeyBinding(command: Option<Command>, key: Key, modifiers: ModifierKeys) returns (r: Result<InputBinding>)
    ensures command.None? <==> r == Err(ArgumentNull("command"))
    ensures r.Ok? ==>
      && fresh(r.value) && r.value.Valid() && r.value.kind == KeyBinding
      && r.value.gesture == KeyGesture(key, modifiers, "")
  {
    r := NewInputBinding(KeyBinding, command, Some(KeyGesture(key, modifiers, "")));
  }

  /** `new MouseBinding(command, mouseAction)` */
  method NewMouseBinding(command: Option<Command>, action: MouseAction) returns (r: Result<InputBinding>)
    ensures command.None? <==> r == Err(ArgumentNull("command"))
    ensures r.Ok? ==>
      && fresh(r.value) && r.value.Valid() && r.value.kind == MouseBinding
      && r.value.gesture == MouseGesture(action, {})
  {
    r := NewInputBinding(MouseBinding, command, Some(MouseGesture(action, {})));
  }
}
