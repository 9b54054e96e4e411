/** Input gestures: key chords matched exactly, mouse actions matched with
    "at least these modifiers". */
module Gestures {
  import opened Wrappers

  /** A key code of the host toolkit, without modifier bits. */
  type Key = nat

  const KeyP: Key := 0x50
  const KeyF2: Key := 0x71

  /** The modifier flags a gesture or an event carries; the flag enum of the
      host toolkit is a set of these three. */
  datatype Modifier = Alt | Control | Shift
  type ModifierKeys = set<Modifier>

  datatype MouseAction =
    | NoAction
    | LeftClick
    | RightClick
    | MiddleClick
    | WheelClick
    | LeftDoubleClick
    | RightDoubleClick
    | MiddleDoubleClick

  /** What a key-down event reports: the key code and the modifiers held. */
  datatype KeyStroke = KeyStroke(keyCode: Key, modifiers: ModifierKeys)

  /** The two concrete gesture kinds; the abstract base matches nothing. */
  datatype InputGesture =
    | KeyGesture(key: Key, modifiers: ModifierKeys, displayString: string)
    | MouseGesture(mouseAction: MouseAction, mouseModifiers: ModifierKeys)

  /** `new KeyGesture(key)` */
  function KeyGestureOf(key: Key): (g: InputGesture)
    ensures g.KeyGesture? && g.key == key && g.modifiers == {} && g.displayString == ""
  {
    KeyGesture(key, {}, "")
  }

  /** `new KeyGesture(key, modifiers, displayString)`; a null display string throws. */
  function NewKeyGesture(key: Key, modifiers: ModifierKeys, displayString: Option<string>): (r: Result<InputGesture>)
    ensures displayString.None? <==> r == Err(ArgumentNull("displayString"))
    ensures r.Ok? ==> r.value.KeyGesture? && r.value.key == key && r.value.modifiers == modifiers
                      && Some(r.value.displayString) == displayString
  {
    match displayString
    case None => Err(ArgumentNull("displayString"))
    case Some(s) => Ok(KeyGesture(key, modifiers, s))
  }

  /** `new MouseGesture()` and `new MouseGesture(action, modifiers)` */
  function MouseGestureOf(action: MouseAction, modifiers: ModifierKeys): (g: InputGesture)
    ensures g.MouseGesture? && g.mouseAction == action && g.mouseModifiers == modifiers
  {
    MouseGesture(action, modifiers)
  }

  /** The keyboard match. The target element is part of the signature and is
      not consulted; a mouse gesture keeps the base behaviour and never matches. */
  predicate MatchesKey<T>(g: InputGesture, target: T, e: KeyStroke)
  {
    g.KeyGesture? && e.keyCode == g.key && e.modifiers == g.modifiers
  }

  /** The mouse match: a real action, the same action, and every modifier of the
      gesture held (the flag test `(modifiers & M) == M`). A key gesture never
      matches a mouse event. */
  predicate MatchesMouse<T>(g: InputGesture, target: T, action: MouseAction, modifiers: ModifierKeys)
  {
    g.MouseGesture? && g.mouseAction != NoAction && action == g.mouseAction
    && g.mouseModifiers <= modifiers
  }

  /** A key gesture matches a stroke with exactly its modifiers and with no
      other modifier set, whatever the target. */
  lemma KeyGestureExactModifiers<T>(g: InputGesture, t: T, u: T, key: Key, m: ModifierKeys)
    requires g.KeyGesture? && key == g.key
    ensures MatchesKey(g, t, KeyStroke(key, m)) <==> m == g.modifiers
    ensures MatchesKey(g, t, KeyStroke(key, m)) == MatchesKey(g, u, KeyStroke(key, m))
  {
  }

  /** A key gesture with modifiers does not fire on the bare key, and adding
      any modifier to a matching stroke breaks the match. */
  lemma KeyGestureRejectsExtraAndMissing<T>(g: InputGesture, t: T, e: KeyStroke, x: Modifier)
    requires MatchesKey(g, t, e)
    ensures x !in e.modifiers ==> !MatchesKey(g, t, KeyStroke(e.keyCode, e.modifiers + {x}))
    ensures x in e.modifiers ==> !MatchesKey(g, t, KeyStroke(e.keyCode, e.modifiers - {x}))
  {
  }

  /** A mouse gesture keeps matching when more modifiers are held, and stops
      matching when one of its own modifiers is released. */
  lemma MouseGestureToleratesExtraModifiers<T>(g: InputGesture, t: T, a: MouseAction, m: ModifierKeys, extra: ModifierKeys, x: Modifier)
    requires MatchesMouse(g, t, a, m)
    ensures MatchesMouse(g, t, a, m + extra)
    ensures x in g.mouseModifiers ==> !MatchesMouse(g, t, a, m - {x})
  {
  }

  /** A mouse gesture whose action is None matches nothing; neither kind
      responds to the other kind's events. */
  lemma NeverMatches<T>(g: InputGesture, t: T, a: MouseAction, m: ModifierKeys, e: KeyStroke)
    ensures g.MouseGesture? && g.mouseAction == NoAction ==> !MatchesMouse(g, t, a, m)
    ensures g.MouseGesture? ==> !MatchesKey(g, t, e)
    ensures g.KeyGesture? ==> !MatchesMouse(g, t, a, m)
  {
  }
}
