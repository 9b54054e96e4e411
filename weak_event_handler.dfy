/** The weak event channel behind `CanExecuteChanged`: subscribers are held
    through weak references, and each subscriber's delegate is kept alive only
    by a table keyed by the delegate's receiver, so a subscriber whose receiver
    is collected drops out of the channel by itself. */
module WeakEvents {
  import opened Wrappers

  /** A delegate: receiver (null for a static method) and method identity.
      Two delegates are equal when both agree, as delegate equality is. */
  datatype EventHandler = EventHandler(target: object?, methodId: nat)

  /** A table entry: one delegate, or the list a second delegate for the same
      receiver turns it into. */
  datatype Group = Single(handler: EventHandler) | Many(handlers: seq<EventHandler>)

  /** A weak reference to a delegate; `alive` is false once it was collected. */
  datatype WeakRef = WeakRef(handler: EventHandler, alive: bool)

  /** The delegates still reachable, in subscription order, once per registration. */
  function LiveHandlers(entries: seq<WeakRef>): seq<EventHandler>
  {
    if entries == [] then []
    else (if entries[0].alive then [entries[0].handler] else []) + LiveHandlers(entries[1..])
  }

  /** The entries left once the dead ones are dropped. */
  function Pruned(entries: seq<WeakRef>): seq<WeakRef>
  {
    if entries == [] then []
    else (if entries[0].alive then [entries[0]] else []) + Pruned(entries[1..])
  }

  /** The entries left once the first live registration of `h` is dropped. */
  function RemoveFirstLive(entries: seq<WeakRef>, h: EventHandler): seq<WeakRef>
  {
    if entries == [] then []
    else if entries[0].alive && entries[0].handler == h then entries[1..]
    else [entries[0]] + RemoveFirstLive(entries[1..], h)
  }

  /** `List.Remove`: drop the first occurrence. */
  function RemoveFirst(hs: seq<EventHandler>, h: EventHandler): seq<EventHandler>
  {
    if hs == [] then []
    else if hs[0] == h then hs[1..]
    else [hs[0]] + RemoveFirst(hs[1..], h)
  }

  /** The entries after the receiver `r` was collected. */
  function Collected(entries: seq<WeakRef>, r: object): seq<WeakRef>
  {
    if entries == [] then []
    else [if entries[0].handler.target == r then WeakRef(entries[0].handler, false) else entries[0]]
         + Collected(entries[1..], r)
  }

  function AddToTable(table: map<object, Group>, key: object, h: EventHandler): map<object, Group>
  {
    if key in table then
      match table[key]
      case Many(hs) => table[key := Many(hs + [h])]
      case Single(h0) => table[key := Many([h0, h])]
    else table[key := Single(h)]
  }

  /** A single entry is dropped whichever delegate is being removed; a list
      loses its first equal delegate and is dropped once empty. */
  function RemoveFromTable(table: map<object, Group>, key: object, h: EventHandler): map<object, Group>
  {
    if key in table then
      match table[key]
      case Many(hs) =>
        var rest := RemoveFirst(hs, h);
        if rest == [] then table - {key} else table[key := Many(rest)]
      case Single(_) => table - {key}
    else table
  }

  class WeakEventHandler {
    /** The conditional weak table: receiver to the delegates it keeps alive. */
    var table: map<object, Group>
    /** The weak references, in subscription order. */
    var entries: seq<WeakRef>

    constructor()
      ensures table == map[] && entries == []
    {
      table := map[];
      entries := [];
    }

    /** `value.Target ?? this` */
    function KeyOf(h: EventHandler): object
    {
      if h.target == null then this else h.target
    }

    method AddHandler(value: Option<EventHandler>)
      modifies this`table, this`entries
      ensures value.None? ==> table == old(table) && entries == old(entries)
      ensures value.Some? ==>
        && table == AddToTable(old(table), KeyOf(value.value), value.value)
        && entries == old(entries) + [WeakRef(value.value, true)]
    {
      if value.Some? {
        var h := value.value;
        table := AddToTable(table, KeyOf(h), h);
        entries := entries + [WeakRef(h, true)];
      }
    }

    method RemoveHandler(value: Option<EventHandler>)
      modifies this`table, this`entries
      ensures value.None? ==> table == old(table) && entries == old(entries)
      ensures value.Some? ==>
        && table == RemoveFromTable(old(table), KeyOf(value.value), value.value)
        && entries == RemoveFirstLive(old(entries), value.value)
    {
      if value.Some? {
        var h := value.value;
        table := RemoveFromTable(table, KeyOf(h), h);
        var i := 0;
        while i < |entries|
          invariant 0 <= i <= |entries| && entries == old(entries)
          invariant RemoveFirstLive(entries, h) == entries[..i] + RemoveFirstLive(entries[i..], h)
        {
          if entries[i].alive && entries[i].handler == h {
            entries := entries[..i] + entries[i + 1..];
            return;
          }
          assert entries[i..] == [entries[i]] + entries[i + 1..];
          assert entries[..i + 1] == entries[..i] + [entries[i]];
          i := i + 1;
        }
        assert entries[i..] == [];
        assert entries[..i] == entries;
      }
    }

    /** Counts dead references not yet pruned: a channel whose subscribers were
        all collected stays non-empty until the next `Invoke`. */
    predicate IsEmpty()
      reads this
    {
      |entries| == 0
    }

    /** The delegates to call, in order, once per live registration; dead
        references are removed as they are met. */
    method Invoke() returns (called: seq<EventHandler>)
      modifies this`entries
      ensures called == LiveHandlers(old(entries))
      ensures entries == Pruned(old(entries)) && table == old(table)
    {
      called := [];
      var i := 0;
      while i < |entries|
        invariant 0 <= i <= |entries|
        invariant forall k | 0 <= k < i :: entries[k].alive
        invariant Pruned(old(entries)) == entries[..i] + Pruned(entries[i..])
        invariant LiveHandlers(old(entries)) == called + LiveHandlers(entries[i..])
        invariant table == old(table)
        decreases |entries| - i
      {
        assert entries[i..] == [entries[i]] + entries[i + 1..];
        if entries[i].alive {
          called := called + [entries[i].handler];
          assert entries[..i + 1] == entries[..i] + [entries[i]];
          i := i + 1;
        } else {
          var rest := entries[i + 1..];
          entries := entries[..i] + entries[i + 1..];
          assert entries[i..] == rest;
        }
      }
      assert entries[i..] == [];
      assert entries[..i] == entries;
    }

    /** The environment: the receiver `r` became unreachable and was collected,
        taking its table entry and the delegates only that entry kept alive. */
    method Collect(r: object)
      modifies this`table, this`entries
      ensures table == old(table) - {r}
      ensures entries == Collected(old(entries), r)
    {
      table := table - {r};
      entries := Collected(entries, r);
    }
  }

  /** Pruning changes nothing that `Invoke` calls, and leaves only live entries. */
  lemma {:induction false} PruneKeepsLiveHandlers(entries: seq<WeakRef>)
    ensures LiveHandlers(Pruned(entries)) == LiveHandlers(entries)
    ensures forall i | 0 <= i < |Pruned(entries)| :: Pruned(entries)[i].alive
  {
    if entries != [] {
      PruneKeepsLiveHandlers(entries[1..]);
      var p := Pruned(entries[1..]);
      if entries[0].alive {
        assert Pruned(entries) == [entries[0]] + p;
        assert ([entries[0]] + p)[1..] == p;
        assert LiveHandlers([entries[0]] + p) == [entries[0].handler] + LiveHandlers(p);
      } else {
        assert Pruned(entries) == p;
        assert LiveHandlers(entries) == LiveHandlers(entries[1..]);
      }
    }
  }

  /** A new subscriber is called after all earlier ones, and a second
      registration of the same delegate is called a second time. */
  lemma {:induction false} AddedHandlerCalledLast(entries: seq<WeakRef>, h: EventHandler)
    ensures LiveHandlers(entries + [WeakRef(h, true)]) == LiveHandlers(entries) + [h]
  {
    if entries == [] {
      assert LiveHandlers([WeakRef(h, true)]) == [h] + LiveHandlers([]);
    } else {
      assert (entries + [WeakRef(h, true)])[1..] == entries[1..] + [WeakRef(h, true)];
      AddedHandlerCalledLast(entries[1..], h);
    }
  }

  /** Unsubscribing drops exactly one call of that delegate and keeps the order
      of all the others. */
  lemma {:induction false} RemoveDropsOneCall(entries: seq<WeakRef>, h: EventHandler)
    ensures LiveHandlers(RemoveFirstLive(entries, h)) == RemoveFirst(LiveHandlers(entries), h)
  {
    if entries != [] {
      RemoveDropsOneCall(entries[1..], h);
      if entries[0].alive && entries[0].handler == h {
      } else if entries[0].alive {
        assert RemoveFirstLive(entries, h) == [entries[0]] + RemoveFirstLive(entries[1..], h);
        assert ([entries[0]] + RemoveFirstLive(entries[1..], h))[1..] == RemoveFirstLive(entries[1..], h);
      } else {
        var r := RemoveFirstLive(entries[1..], h);
        assert RemoveFirstLive(entries, h) == [entries[0]] + r;
        assert ([entries[0]] + r)[1..] == r;
        assert LiveHandlers([entries[0]] + r) == LiveHandlers(r);
        assert LiveHandlers(entries) == LiveHandlers(entries[1..]);
      }
    }
  }

  /** Once its receiver is collected, a delegate is never called again. */
  lemma {:induction false} CollectedNeverCalled(entries: seq<WeakRef>, r: object, h: EventHandler)
    requires h.target == r
    ensures h !in LiveHandlers(Collected(entries, r))
  {
    if entries != [] {
      CollectedNeverCalled(entries[1..], r, h);
      assert Collected(entries, r)[1..] == Collected(entries[1..], r);
    }
  }

  /** Every reference is dead: all subscribers were collected. */
  predicate AllDead(entries: seq<WeakRef>)
  {
    forall i | 0 <= i < |entries| :: !entries[i].alive
  }

  /** A channel whose subscribers were all collected calls nobody, yet no
      `RemoveHandler` shortens it (and `AddHandler` only lengthens it), so it
      is not `IsEmpty`; only the pruning of an `Invoke` empties it. */
  lemma {:induction false} DeadReferencesKeepChannelNonEmpty(entries: seq<WeakRef>, h: EventHandler)
    requires AllDead(entries)
    ensures LiveHandlers(entries) == []
    ensures RemoveFirstLive(entries, h) == entries
    ensures Pruned(entries) == []
  {
    if entries != [] {
      assert !entries[0].alive;
      assert AllDead(entries[1..]) by {
        forall i | 0 <= i < |entries[1..]| ensures !entries[1..][i].alive {
          assert entries[1..][i] == entries[i + 1];
        }
      }
      DeadReferencesKeepChannelNonEmpty(entries[1..], h);
      assert [entries[0]] + entries[1..] == entries;
    }
  }
}
