/** The UI thread as the library sees it: a FIFO of callbacks posted with
    `BeginInvoke`, and a record of the event handlers it has called. */
module UiThread {
  import opened Host
  import opened EventArgs
  import opened InputBindings

  /** A posted callback: an `Executed` event raised later on `sender`, or the
      command manager's `ExecuteCommand` for an input binding. */
  datatype Work =
    | RunExecuted(sender: Element, handlers: seq<nat>, args: ExecutedEventArgs)
    | RunExecuteCommand(binding: InputBinding, target: Element)

  /** One subscriber of a query event called with `sender`. */
  datatype Call = Invoked(handler: nat, sender: Element)

  class Dispatcher {
    var queue: seq<Work>
    var trace: seq<Call>

    constructor()
      ensures queue == [] && trace == []
    {
      queue, trace := [], [];
    }

    /** `BeginInvoke`: the work runs after everything posted before it. */
    method Post(w: Work)
      modifies this`queue
      ensures queue == old(queue) + [w]
    {
      queue := queue + [w];
    }

    method Record(c: Call)
      modifies this`trace
      ensures trace == old(trace) + [c]
    {
      trace := trace + [c];
    }
  }
}
