/** The built-in commands: lazily created singletons. */
module AppCommands {
  import opened Wrappers
  import opened Gestures
  import opened Commands

  /** What the Print and PrintPreview commands' factories return. */
  function PrintGestures(): seq<InputGesture>
  {
    [KeyGesture(KeyP, {Control}, "")]
  }

  function PrintPreviewGestures(): seq<InputGesture>
  {
    [KeyGesture(KeyF2, {Control}, "")]
  }

  /** Ctrl+P is the one chord Print answers, and Ctrl+F2 the one chord
      PrintPreview answers. */
  lemma BuiltInChords<T>(t: T, e: KeyStroke)
    ensures MatchesKey(PrintGestures()[0], t, e) <==> e == KeyStroke(KeyP, {Control})
    ensures MatchesKey(PrintPreviewGestures()[0], t, e) <==> e == KeyStroke(KeyF2, {Control})
  {
  }

  /** The static holder of the three singletons. */
  class ApplicationCommands {
    var closeCommand: UICommandBase?
    var printCommand: UICommandBase?
    var printPreviewCommand: UICommandBase?

    constructor()
      ensures closeCommand == null && printCommand == null && printPreviewCommand == null
    {
      closeCommand, printCommand, printPreviewCommand := null, null, null;
    }

    /** `Close`: no gestures. */
    method Close() returns (c: UICommandBase)
      modifies this`closeCommand
      ensures old(closeCommand) != null ==> c == old(closeCommand)
      ensures old(closeCommand) == null ==>
        && fresh(c) && c.Valid() && c.name == "Close" && c.text == "Close"
        && c.factory == None && c.inputGestures == None
      ensures closeCommand == c
    {
      if closeCommand == null {
        closeCommand := new UICommandBase("Close", "Close", None, None);
      }
      c := closeCommand;
    }

    /** `Print`: its factory gives Ctrl+P. */
    method Print() returns (c: UICommandBase)
      modifies this`printCommand
      ensures old(printCommand) != null ==> c == old(printCommand)
      ensures old(printCommand) == null ==>
        && fresh(c) && c.Valid() && c.name == "Print" && c.text == "Print"
        && c.factory == Some(PrintGestures()) && c.inputGestures == None
      ensures printCommand == c
    {
      if printCommand == null {
        printCommand := new UICommandBase("Print", "Print", Some(PrintGestures()), None);
      }
      c := printCommand;
    }

    /** `PrintPreview`: its factory gives Ctrl+F2. */
    method PrintPreview() returns (c: UICommandBase)
      modifies this`printPreviewCommand
      ensures old(printPreviewCommand) != null ==> c == old(printPreviewCommand)
      ensures old(printPreviewCommand) == null ==>
        && fresh(c) && c.Valid() && c.name == "PrintPreview" && c.text == "PrintPreview"
        && c.factory == Some(PrintPreviewGestures()) && c.inputGestures == None
      ensures printPreviewCommand == c
    {
      if printPreviewCommand == null {
        printPreviewCommand := new UICommandBase("PrintPreview", "PrintPreview", Some(PrintPreviewGestures()), None);
      }
      c := printPreviewCommand;
    }
  }
}
