/** The per-element binding lists: one registry per element type, each list
    created on first request, returned by identity afterwards, and dropped when
    its element is disposed. */
module Collections {
  import opened Wrappers
  import opened Host

  /** The mutable list handed out to callers (`IList<T>`). */
  class ItemList<T> {
    var items: seq<T>

    constructor()
      ensures items == []
    {
      items := [];
    }

    method Add(x: T)
      modifies this
      ensures items == old(items) + [x]
    {
      items := items + [x];
    }

    /** `list[i] = x` */
    method SetAt(i: nat, x: T)
      requires i < |items|
      modifies this
      ensures items == old(items)[i := x]
    {
      items := items[i := x];
    }

    method RemoveAt(i: nat)
      requires i < |items|
      modifies this
      ensures items == old(items)[..i] + old(items)[i + 1..]
    {
      items := items[..i] + items[i + 1..];
    }

    method Clear()
      modifies this
      ensures items == []
    {
      items := [];
    }
  }

  /** `CollectionHolder<T>`: the dictionary is created on first use (`None`
      until then); `hooked` are the elements whose `Disposed` event carries
      this registry's `Key_Disposed`. */
  class CollectionHolder<T> {
    var collections: Option<map<Element, ItemList<T>>>
    var hooked: set<Element>

    /** Every registered element is hooked, and no two elements share a list. */
    ghost predicate Valid()
      reads this`collections, this`hooked
    {
      collections.Some? ==>
        && collections.value.Keys <= hooked
        && forall c, d | c in collections.value && d in collections.value && c != d ::
             collections.value[c] != collections.value[d]
    }

    constructor()
      ensures Valid() && collections == None && hooked == {}
    {
      collections := None;
      hooked := {};
    }

    /** The lists the registry holds (the frame of everything that reads them). */
    function Lists(): set<ItemList<T>>
      reads this`collections
    {
      if collections.None? then {} else collections.value.Values
    }

    /** `TryGetCollection<T>`: no dictionary yet, or no entry, is not found. */
    function TryGetCollection(c: Element): (r: Option<ItemList<T>>)
      reads this`collections
      ensures r.Some? <==> collections.Some? && c in collections.value
      ensures r.Some? ==> r.value in Lists()
    {
      if collections.Some? && c in collections.value then Some(collections.value[c]) else None
    }

    /** `GetOrCreate`: null throws `ArgumentNull`, a disposed element throws
        `ObjectDisposed`; otherwise the element's list, created empty (and the
        element hooked) on the first request and the same list on every later
        one. */
    method GetOrCreate(host: Host, control: Option<Element>) returns (r: Result<ItemList<T>>)
      requires Valid()
      modifies this
      ensures Valid()
      ensures control.None? ==> r == Err(ArgumentNull("control"))
      ensures control.Some? && control.value in host.disposed ==> r == Err(ObjectDisposed)
      ensures r.Err? ==> collections == old(collections) && hooked == old(hooked)
      ensures r.Ok? <==> control.Some? && control.value !in host.disposed
      ensures r.Ok? ==> TryGetCollection(control.value) == Some(r.value)
      ensures r.Ok? && old(TryGetCollection(control.value)).Some? ==>
        && r.value == old(TryGetCollection(control.value)).value
        && collections == old(collections) && hooked == old(hooked)
      ensures r.Ok? && old(TryGetCollection(control.value)).None? ==>
        && fresh(r.value) && r.value.items == []
        && collections == Some(old(collections).OrElse(map[])[control.value := r.value])
        && hooked == old(hooked) + {control.value}
    {
      if control.None? {
        return Err(ArgumentNull("control"));
      }
      var c := control.value;
      if c in host.disposed {
        return Err(ObjectDisposed);
      }
      if collections.None? {
        var list := new ItemList<T>();
        collections := Some(map[c := list]);
        hooked := hooked + {c};
        return Ok(list);
      } else if c !in collections.value {
        var list := new ItemList<T>();
        collections := Some(collections.value[c := list]);
        hooked := hooked + {c};
        return Ok(list);
      }
      return Ok(collections.value[c]);
    }

    /** `Key_Disposed`, run by the `Disposed` event of a hooked element. */
    method KeyDisposed(sender: Element)
      requires Valid()
      modifies this`collections
      ensures Valid()
      ensures collections == if old(collections).None? then None else Some(old(collections).value - {sender})
      ensures TryGetCollection(sender) == None
    {
      if collections.Some? {
        collections := Some(collections.value - {sender});
      }
    }
  }
}
