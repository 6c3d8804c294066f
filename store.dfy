/**
 * The reactive store vendored in public/browser/todos-form-create.mjs: a
 * property map written through a guarded `set`, the list of properties
 * changed since the last notification, and the subscribed listeners.
 * The debounced `notify` is an explicit flush here; it returns the calls
 * it makes, in order, instead of making them.
 */
module ReactiveStore {
  import opened Wrappers
  import opened JsonValue
  import opened JsArray

  /** A listener function, compared by identity. */
  type FnId = nat

  /** `{ fn, props }`: the function and the properties it listens to (`[]` for all). */
  datatype Listener = Listener(fn: FnId, props: seq<string>)

  /** One call `fn(payload)` made by `notify`. */
  datatype Call = Call(fn: FnId, payload: map<string, Value>)

  /** The names under which the store's own functions live; `set` refuses them. */
  predicate IsReserved(prop: string) {
    prop == "initialize" || prop == "subscribe" || prop == "unsubscribe"
  }

  predicate IsPrimitive(v: Value) {
    v.Str? || v.Num? || v.Bool? || v.Null?
  }

  /**
   * `oldValue !== value`: a missing property (`undefined`) always differs;
   * primitives are compared by value; an object or array is a fresh
   * reference, so it always differs.
   */
  predicate Differs(old_: Option<Value>, value: Value) {
    old_.None? || !IsPrimitive(value) || old_.value != value
  }

  /** `dirtyProps.filter(key => props.includes(key))` */
  function Listed(dirty: seq<string>, props: seq<string>): (r: seq<string>)
    ensures forall k :: k in r <==> k in dirty && k in props
  {
    if dirty == [] then []
    else (if dirty[0] in props then [dirty[0]] else []) + Listed(dirty[1..], props)
  }

  /** `.reduce((obj, key) => ({ ...obj, [key]: _state[key] }), acc)` */
  function Collect(keys: seq<string>, state: map<string, Value>, acc: map<string, Value>): map<string, Value>
    requires forall k :: k in keys ==> k in state
  {
    if keys == [] then acc else Collect(keys[1..], state, acc[keys[0] := state[keys[0]]])
  }

  lemma {:induction false} CollectContents(keys: seq<string>, state: map<string, Value>, acc: map<string, Value>)
    requires forall k :: k in keys ==> k in state
    ensures Collect(keys, state, acc).Keys == acc.Keys + set k | k in keys
    ensures forall k :: k in Collect(keys, state, acc) ==> Collect(keys, state, acc)[k] == if k in keys then state[k] else acc[k]
    decreases |keys|
  {
    if keys != [] {
      CollectContents(keys[1..], state, acc[keys[0] := state[keys[0]]]);
      assert forall k :: k in keys <==> k == keys[0] || k in keys[1..];
    }
  }

  /**
   * The payload of one listener: with listed props, the dirty props among
   * them mapped to their current values; with none, a copy of the whole
   * state.
   */
  function Payload(props: seq<string>, dirty: seq<string>, state: map<string, Value>): map<string, Value>
    requires forall k :: k in dirty ==> k in state
  {
    if |props| > 0 then Collect(Listed(dirty, props), state, map[]) else state
  }

  /** What a listener receives, property by property. */
  lemma PayloadContents(props: seq<string>, dirty: seq<string>, state: map<string, Value>)
    requires forall k :: k in dirty ==> k in state
    ensures |props| > 0 ==> Payload(props, dirty, state).Keys == set k | k in dirty && k in props
    ensures forall k :: k in Payload(props, dirty, state) ==> Payload(props, dirty, state)[k] == state[k]
    ensures |props| == 0 ==> Payload(props, dirty, state) == state
  {
    if |props| > 0 {
      var empty: map<string, Value> := map[];
      CollectContents(Listed(dirty, props), state, empty);
    }
  }

  /** `listeners.findIndex(l => l.fn === fn)` */
  function ListenerIndex(listeners: seq<Listener>, fn: FnId): (r: int)
    ensures -1 <= r < |listeners|
    ensures r >= 0 ==> listeners[r].fn == fn && forall j :: 0 <= j < r ==> listeners[j].fn != fn
    ensures r == -1 <==> forall j :: 0 <= j < |listeners| ==> listeners[j].fn != fn
  {
    FindIndex(listeners, (l: Listener) => l.fn == fn)
  }

  /** `listeners.splice(listeners.findIndex(…), 1)`: the listeners left, and the ones removed. */
  function Unsubscribed(listeners: seq<Listener>, fn: FnId): Spliced<Listener> {
    Splice(listeners, ListenerIndex(listeners, fn), 1, [])
  }

  /** unsubscribe removes the first listener with that function. */
  lemma UnsubscribeFirstMatch(listeners: seq<Listener>, fn: FnId, i: nat)
    requires i < |listeners| && listeners[i].fn == fn
    requires forall j :: 0 <= j < i ==> listeners[j].fn != fn
    ensures Unsubscribed(listeners, fn) == Spliced(listeners[..i] + listeners[i + 1..], [listeners[i]])
  {
    assert ListenerIndex(listeners, fn) == i;
    SpliceAt(listeners, i, []);
  }

  /** With no listener of that function, the last listener is removed. */
  lemma UnsubscribeNoMatch(listeners: seq<Listener>, fn: FnId)
    requires |listeners| > 0
    requires forall j :: 0 <= j < |listeners| ==> listeners[j].fn != fn
    ensures Unsubscribed(listeners, fn) == Spliced(listeners[..|listeners| - 1], [listeners[|listeners| - 1]])
  {
    SpliceMinusOne(listeners, []);
  }

  /** Unsubscribing from no listeners removes nothing. */
  lemma UnsubscribeEmpty(fn: FnId)
    ensures Unsubscribed([], fn) == Spliced([], [])
  {
    SpliceEmpty<Listener>(ListenerIndex([], fn), []);
  }

  class Store {
    /** `_state`: the stored properties (the store's own functions are not values here). */
    var state: map<string, Value>
    /** The properties set since the last notification, in order, repeats included. */
    var dirtyProps: seq<string>
    var listeners: seq<Listener>

    /** Every dirty property is a stored property. */
    ghost predicate Valid()
      reads this
    {
      forall k :: k in dirtyProps ==> k in state
    }

    /** `Store()`: the empty store. */
    constructor()
      ensures state == map[] && dirtyProps == [] && listeners == []
      ensures Valid()
    {
      state := map[];
      dirtyProps := [];
      listeners := [];
    }

    /**
     * `handler.set`: a reserved name is refused; any other property is
     * stored and marked dirty when the value differs from the current one.
     */
    method Set(prop: string, value: Value) returns (ok: bool)
      requires Valid()
      modifies this
      ensures Valid()
      ensures ok <==> !IsReserved(prop)
      ensures listeners == old(listeners)
      ensures !ok ==> state == old(state) && dirtyProps == old(dirtyProps)
      ensures ok && Differs(Get(old(state), prop), value) ==>
        state == old(state)[prop := value] && dirtyProps == old(dirtyProps) + [prop]
      ensures ok && !Differs(Get(old(state), prop), value) ==>
        state == old(state) && dirtyProps == old(dirtyProps)
    {
      if IsReserved(prop) {
        return false;
      }
      var oldValue := Get(state, prop);
      if Differs(oldValue, value) {
        state := state[prop := value];
        dirtyProps := dirtyProps + [prop];
      }
      return true;
    }

    /** `merge(_state, n)`: every property of `n` is copied into the state; nothing is marked dirty. */
    method Merge(n: map<string, Value>)
      requires Valid()
      modifies this
      ensures Valid()
      ensures state == old(state) + n
      ensures dirtyProps == old(dirtyProps) && listeners == old(listeners)
    {
      var todo := n.Keys;
      ghost var done: set<string> := {};
      while todo != {}
        invariant todo + done == n.Keys && todo !! done
        invariant state == old(state) + map k | k in done :: n[k]
        invariant dirtyProps == old(dirtyProps) && listeners == old(listeners)
        invariant Valid()
        decreases todo
      {
        var prop :| prop in todo;
        state := state[prop := n[prop]];
        todo := todo - {prop};
        done := done + {prop};
      }
      assert (map k | k in done :: n[k]) == n;
    }

    /** `initialize(initialState)`: a truthy initial state is merged in. */
    method Initialize(initialState: Value)
      requires Valid()
      requires Truthy(initialState) ==> initialState.Obj?
      modifies this
      ensures Valid()
      ensures state == if Truthy(initialState) then old(state) + initialState.fields else old(state)
      ensures dirtyProps == old(dirtyProps) && listeners == old(listeners)
    {
      if Truthy(initialState) {
        Merge(initialState.fields);
      }
    }

    /** `subscribe(fn, props)`: appends the listener and returns the number of listeners. */
    method Subscribe(fn: FnId, props: seq<string>) returns (count: nat)
      requires Valid()
      modifies this
      ensures Valid()
      ensures listeners == old(listeners) + [Listener(fn, props)] && count == |listeners|
      ensures state == old(state) && dirtyProps == old(dirtyProps)
    {
      listeners := listeners + [Listener(fn, props)];
      count := |listeners|;
    }

    /** `unsubscribe(fn)`: splices out the listener `findIndex` finds and returns the removed ones. */
    method Unsubscribe(fn: FnId) returns (removed: seq<Listener>)
      requires Valid()
      modifies this
      ensures Valid()
      ensures listeners == Unsubscribed(old(listeners), fn).contents
      ensures removed == Unsubscribed(old(listeners), fn).removed
      ensures state == old(state) && dirtyProps == old(dirtyProps)
    {
      var r := Unsubscribed(listeners, fn);
      listeners := r.contents;
      removed := r.removed;
    }

    /**
     * `notify`: every listener is called once, in subscription order, with
     * its payload; afterwards no property is dirty.
     */
    method Notify() returns (calls: seq<Call>)
      requires Valid()
      modifies this
      ensures Valid()
      ensures |calls| == |old(listeners)|
      ensures forall i :: 0 <= i < |calls| ==>
        calls[i] == Call(old(listeners)[i].fn, Payload(old(listeners)[i].props, old(dirtyProps), old(state)))
      ensures dirtyProps == [] && state == old(state) && listeners == old(listeners)
    {
      calls := [];
      var i := 0;
      while i < |listeners|
        invariant 0 <= i <= |listeners|
        invariant |calls| == i
        invariant forall j :: 0 <= j < i ==>
          calls[j] == Call(listeners[j].fn, Payload(listeners[j].props, dirtyProps, state))
      {
        var l := listeners[i];
        calls := calls + [Call(l.fn, Payload(l.props, dirtyProps, state))];
        i := i + 1;
      }
      dirtyProps := [];
    }
  }
}
