/** Commands: the library's routed command (`UICommandBase`, `UICommand`) and
    the plain command an application implements itself. */
module Commands {
  import opened Wrappers
  import opened Gestures
  import opened WeakEvents
  import opened Host

  /** A command parameter: null or an object, compared by reference. */
  datatype Param = Null | Obj(id: nat)

  /** A command written by the application: its answers and its effects are the
      application's own, so the model records the calls and takes the answers
      as given. Its `CanExecuteChanged` is an ordinary (strong) event. */
  class SimpleCommand {
    const answer: Param -> bool
    var canExecuteCalls: seq<Param>
    var executeCalls: seq<Param>
    var listeners: seq<EventHandler>

    constructor(answer: Param -> bool)
      ensures this.answer == answer
      ensures canExecuteCalls == [] && executeCalls == [] && listeners == []
    {
      this.answer := answer;
      canExecuteCalls, executeCalls, listeners := [], [], [];
    }

    method CanExecute(parameter: Param) returns (r: bool)
      modifies this`canExecuteCalls
      ensures r == answer(parameter)
      ensures canExecuteCalls == old(canExecuteCalls) + [parameter]
    {
      canExecuteCalls := canExecuteCalls + [parameter];
      r := answer(parameter);
    }

    method Execute(parameter: Param)
      modifies this`executeCalls
      ensures executeCalls == old(executeCalls) + [parameter]
    {
      executeCalls := executeCalls + [parameter];
    }

    /** `CanExecuteChanged += h` */
    method AddListener(h: EventHandler)
      modifies this`listeners
      ensures listeners == old(listeners) + [h]
    {
      listeners := listeners + [h];
    }

    /** `CanExecuteChanged -= h`: delegate removal drops the last equal entry. */
    method RemoveListener(h: EventHandler)
      modifies this`listeners
      ensures listeners == RemoveLast(old(listeners), h)
    {
      listeners := RemoveLast(listeners, h);
    }
  }

  function RemoveLast(hs: seq<EventHandler>, h: EventHandler): (r: seq<EventHandler>)
    ensures h !in hs ==> r == hs
    ensures h in hs ==> |r| == |hs| - 1
  {
    if hs == [] then []
    else if hs[|hs| - 1] == h then hs[..|hs| - 1]
    else RemoveLast(hs[..|hs| - 1], h) + [hs[|hs| - 1]]
  }

  /** The position of the last registration of `h`. */
  function LastIndexOf(hs: seq<EventHandler>, h: EventHandler): (k: nat)
    requires h in hs
    ensures k < |hs| && hs[k] == h && h !in hs[k + 1..]
  {
    if hs[|hs| - 1] == h then |hs| - 1
    else
      assert h in hs[..|hs| - 1] by { assert hs == hs[..|hs| - 1] + [hs[|hs| - 1]]; }
      var k := LastIndexOf(hs[..|hs| - 1], h);
      assert hs[k + 1..] == hs[..|hs| - 1][k + 1..] + [hs[|hs| - 1]];
      k
  }

  /** `-=` removes the last registration of the delegate and keeps every
      other one in order. */
  lemma {:induction false} RemoveLastDropsLastOccurrence(hs: seq<EventHandler>, h: EventHandler)
    requires h in hs
    ensures exists k | 0 <= k < |hs| ::
      hs[k] == h && h !in hs[k + 1..] && RemoveLast(hs, h) == hs[..k] + hs[k + 1..]
  {
    RemoveLastAt(hs, h);
    var k := LastIndexOf(hs, h);
    assert hs[k] == h && h !in hs[k + 1..] && RemoveLast(hs, h) == hs[..k] + hs[k + 1..];
  }

  lemma {:induction false} RemoveLastAt(hs: seq<EventHandler>, h: EventHandler)
    requires h in hs
    ensures var k := LastIndexOf(hs, h); RemoveLast(hs, h) == hs[..k] + hs[k + 1..]
  {
    var n := |hs|;
    if hs[n - 1] == h {
      assert hs[n..] == [];
    } else {
      var init := hs[..n - 1];
      assert hs == init + [hs[n - 1]];
      RemoveLastAt(init, h);
      var k := LastIndexOf(init, h);
      assert LastIndexOf(hs, h) == k;
      assert hs[..k] == init[..k];
      assert hs[k + 1..] == init[k + 1..] + [hs[n - 1]];
    }
  }

  /** `ICommand`: either a routed command of the library or an application's own. */
  datatype Command = Routed(ui: UICommandBase) | Simple(app: SimpleCommand)

  /** The routed command. `factory` is what `CreateInputGestures` returns (a
      subclass decision; null by default), `inputGestures` the lazily filled
      gesture list, the `last*` fields the one-entry cache used while
      `CanExecuteChanged` is being raised. */
  class UICommandBase {
    const name: string
    const text: string
    const factory: Option<seq<InputGesture>>
    var inputGestures: Option<seq<InputGesture>>
    /** How often the factory has been consulted. */
    ghost var factoryRuns: nat

    const canExecuteChanged: WeakEventHandler

    var inRaise: bool
    var lastParameter: Param
    var lastTarget: Option<Element>
    var lastResult: bool

    /** The factory is consulted at most once when it produces a list; it is
        never consulted while a list is cached from the start. */
    ghost predicate Valid()
      reads this`factoryRuns, this`inputGestures
    {
      factory.Some? ==> factoryRuns <= 1 && (inputGestures.None? ==> factoryRuns == 0)
    }

    /** The gestures the command responds to: the cached list, or what the
        factory would give, or none. */
    function Gestures(): seq<InputGesture>
      reads this`inputGestures
    {
      if inputGestures.Some? then inputGestures.value else factory.OrElse([])
    }

    /** `UICommandBase(inputGestures)`; the parameterless base constructor is
        the case `gestures == None`. */
    constructor(name: string, text: string, factory: Option<seq<InputGesture>>, gestures: Option<seq<InputGesture>>)
      ensures Valid() && fresh(canExecuteChanged) && canExecuteChanged.entries == []
      ensures this.name == name && this.text == text && this.factory == factory
      ensures inputGestures == gestures && factoryRuns == 0
      ensures !inRaise && lastParameter == Null && lastTarget == None && !lastResult
    {
      this.name := name;
      this.text := text;
      this.factory := factory;
      inputGestures := gestures;
      factoryRuns := 0;
      canExecuteChanged := new WeakEventHandler();
      inRaise, lastParameter, lastTarget, lastResult := false, Null, None, false;
    }

    /** `InputGestures`: fills the cache on first use, with an empty list when
        the factory gives null, and returns the cached list from then on. */
    method InputGestures() returns (gestures: seq<InputGesture>)
      requires Valid()
      modifies this`inputGestures, this`factoryRuns
      ensures Valid()
      ensures gestures == old(Gestures()) && inputGestures == Some(gestures)
      ensures old(inputGestures).Some? ==> factoryRuns == old(factoryRuns)
      ensures old(inputGestures).None? ==> factoryRuns == old(factoryRuns) + 1
    {
      if inputGestures.None? {
        factoryRuns := factoryRuns + 1;
        inputGestures := Some(factory.OrElse([]));
      }
      gestures := inputGestures.value;
    }

    /** `TryGetInputGestures`: never creates an empty list; caches what the
        factory gives only when it is not null. */
    method TryGetInputGestures() returns (found: bool, gestures: seq<InputGesture>)
      requires Valid()
      modifies this`inputGestures, this`factoryRuns
      ensures Valid()
      ensures found <==> old(inputGestures).Some? || factory.Some?
      ensures found ==> gestures == old(Gestures()) && inputGestures == Some(gestures)
      ensures !found ==> inputGestures == None && gestures == []
      ensures Gestures() == old(Gestures())
      ensures old(inputGestures).Some? ==> factoryRuns == old(factoryRuns)
      ensures old(inputGestures).None? ==> factoryRuns == old(factoryRuns) + 1
    {
      if inputGestures.Some? {
        return true, inputGestures.value;
      }
      factoryRuns := factoryRuns + 1;
      if factory.Some? {
        inputGestures := factory;
        return true, factory.value;
      }
      return false, [];
    }

    /** `InputGestures.Add(g)` */
    method AddInputGesture(g: InputGesture)
      requires Valid()
      modifies this`inputGestures, this`factoryRuns
      ensures Valid()
      ensures inputGestures == Some(old(Gestures()) + [g])
    {
      var gs := InputGestures();
      inputGestures := Some(gs + [g]);
    }
  }

  /** `new UICommand(text, name, inputGestures)`: the name is checked first
      (null, then empty), then the text. */
  method NewUICommand(text: Option<string>, name: Option<string>, gestures: Option<seq<InputGesture>>)
    returns (r: Result<UICommandBase>)
    ensures name.None? ==> r == Err(ArgumentNull("name"))
    ensures name == Some("") ==> r == Err(Argument("name"))
    ensures name.Some? && name.value != "" && text.None? ==> r == Err(ArgumentNull("text"))
    ensures r.Ok? <==> name.Some? && name.value != "" && text.Some?
    ensures r.Ok? ==>
      && fresh(r.value) && r.value.Valid() && r.value.name == name.value
      && r.value.text == text.value && r.value.factory == None
      && r.value.inputGestures == gestures
  {
    if name.None? {
      return Err(ArgumentNull("name"));
    }
    if name.value == "" {
      return Err(Argument("name"));
    }
    if text.None? {
      return Err(ArgumentNull("text"));
    }
    var c := new UICommandBase(name.value, text.value, None, gestures);
    return Ok(c);
  }
}
