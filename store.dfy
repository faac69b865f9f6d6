/** The client's global key/value store: a state object, and per key a list
    of listeners called with the new value whenever that key is set. */
module Store {
  import opened Wrappers
  import opened Listeners

  /** The values the store holds: null, the booleans, lists, and any other
      object, known by its identity. */
  datatype Value = Null | Flag(b: bool) | Items(xs: seq<Value>) | Object(id: nat)

  /** The state a new store starts from. */
  const InitialState: map<string, Value> := map[
    "user" := Null,
    "isAuthenticated" := Flag(false),
    "currentProject" := Null,
    "projects" := Items([]),
    "ecosystems" := Items([]),
    "loading" := Flag(false)]

  /** `notify`: the calls made when `key` is set to `value`; none when nobody
      ever subscribed to the key. */
  function Notified(listeners: map<string, seq<Callback>>, key: string, value: Value): (r: seq<Call<Value>>)
    ensures key !in listeners ==> r == []
    ensures key in listeners ==> |r| == |listeners[key]|
    ensures key in listeners ==> forall i :: 0 <= i < |r| ==> r[i] == Call(listeners[key][i], value)
  {
    if key in listeners then Calls(listeners[key], value) else []
  }

  class Store {
    var state: map<string, Value>
    var listeners: map<string, seq<Callback>>

    constructor ()
      ensures state == InitialState && listeners == map[]
    {
      state := InitialState;
      listeners := map[];
    }

    /** `get(key)`: the value, or `None` for a key never set
        (`undefined`). */
    function Get(key: string): (r: Option<Value>)
      reads this
      ensures r.Some? <==> key in state
      ensures r.Some? ==> r.value == state[key]
    {
      if key in state then Some(state[key]) else None
    }

    /** `set(key, value)`: store the value, then call the key's listeners
        with it in subscription order. No other key and no listener list
        changes. */
    method Set(key: string, value: Value) returns (calls: seq<Call<Value>>)
      modifies this
      ensures state == old(state)[key := value]
      ensures Get(key) == Some(value)
      ensures forall k :: k != key ==> Get(k) == old(Get(k))
      ensures listeners == old(listeners)
      ensures calls == Notified(listeners, key, value)
    {
      state := state[key := value];
      calls := NotifyKey(key, value);
    }

    /** `notify(key, value)`. */
    method NotifyKey(key: string, value: Value) returns (calls: seq<Call<Value>>)
      ensures calls == Notified(listeners, key, value)
    {
      calls := [];
      if key in listeners {
        calls := Notify(listeners[key], value);
      }
    }

    /** `subscribe(key, callback)`: append the callback to the key's list,
        creating the list on first use. */
    method Subscribe(key: string, cb: Callback)
      modifies this
      ensures state == old(state)
      ensures listeners == old(listeners)[key := (if key in old(listeners) then old(listeners)[key] else []) + [cb]]
    {
      var ls := if key in listeners then listeners[key] else [];
      listeners := listeners[key := ls + [cb]];
    }

    /** The function `subscribe` returns: filter the callback out of that
        key's list. It exists only after `subscribe(key, ...)`, so the list
        is there. */
    method Unsubscribe(key: string, cb: Callback)
      requires key in listeners
      modifies this
      ensures state == old(state)
      ensures listeners == old(listeners)[key := Without(old(listeners)[key], cb)]
      ensures forall k :: k != key && k in old(listeners) ==> k in listeners && listeners[k] == old(listeners)[k]
    {
      listeners := listeners[key := Without(listeners[key], cb)];
    }
  }

  /** A new store holds no user, is not authenticated, has no current
      project, empty project and ecosystem lists and is not loading. */
  lemma InitialStore()
    ensures InitialState.Keys == {"user", "isAuthenticated", "currentProject", "projects", "ecosystems", "loading"}
    ensures InitialState["isAuthenticated"] == Flag(false) && InitialState["loading"] == Flag(false)
    ensures InitialState["user"] == Null && InitialState["currentProject"] == Null
    ensures InitialState["projects"] == Items([]) && InitialState["ecosystems"] == Items([])
  {
  }

  /** After subscribing a callback to a key and then unsubscribing it, a set
      of that key calls the listeners it called before, minus that
      callback. */
  lemma NotifiedAfterUnsubscribe(listeners: map<string, seq<Callback>>, key: string, cb: Callback, value: Value)
    requires key in listeners
    ensures Notified(listeners[key := Without(listeners[key] + [cb], cb)], key, value)
      == Calls(Without(listeners[key], cb), value)
    ensures cb !in listeners[key] ==>
      Notified(listeners[key := Without(listeners[key] + [cb], cb)], key, value) == Notified(listeners, key, value)
  {
    SubscribeThenUnsubscribe(listeners[key], cb);
  }
}
