/**
 * The templated engine of `libstate.hpp`: a state with default hooks, and a
 * scenario owning a name -> state registry, a transition table keyed by
 * (state, custom event) and a current-state pointer.
 *
 * A state is a value here: its name and its behaviour `K` (the derived class
 * it was constructed as). Pointers to states are modelled by state names.
 */
module LibState {
  import opened Wrappers
  import opened Lifecycle
  import Events

  /** A `State<C>` object: its name and which derived class it is. */
  datatype StateObj<K> = StateObj(name: string, kind: K)

  /** `State::init`, `update` and `exit` as the base class defines them. */
  function DefaultHook<K, C>(hook: Hook, s: StateObj<K>, params: Params): (e: Events.Base<C>)
    ensures e == Events.NoneEvent(Some(s.name), map[])
    ensures e.kind == Events.None && e.custom.None? && e.sender == Some(s.name) && e.data == map[]
  {
    Events.Untagged(Events.None, Some(s.name), map[])
  }

  /** The registry invariant: every state is filed under its own name. */
  ghost predicate Filed<K>(states: map<string, StateObj<K>>)
  {
    forall n :: n in states ==> states[n].name == n
  }

  /**
   * `addState` as intended: a state whose name is taken is refused (the map
   * is unchanged and the handle is null); otherwise it is filed under its name
   * and the handle points to it.
   */
  function Register<K>(states: map<string, StateObj<K>>, s: StateObj<K>)
    : (r: (map<string, StateObj<K>>, Option<StateObj<K>>))
    ensures r.1.Some? <==> s.name !in states
    ensures r.1.Some? ==> r.1.value == s
    ensures r.0.Keys == states.Keys + {s.name}
    ensures forall n :: n in states ==> r.0[n] == states[n]
    ensures s.name !in states ==> r.0[s.name] == s
  {
    if s.name in states then (states, None)
    else (states[s.name := s], Some(s))
  }

  /**
   * `addState` as written: `state.get()` is read after `std::move(state)`, so
   * the handle is null on success as well as on refusal.
   */
  function RegisterAsWritten<K>(states: map<string, StateObj<K>>, s: StateObj<K>)
    : (r: (map<string, StateObj<K>>, Option<StateObj<K>>))
    ensures r.0 == Register(states, s).0
    ensures r.1.None?
  {
    (if s.name in states then states else states[s.name := s], None)
  }

  /** A refused registration leaves the registry as it was. */
  lemma RegisterDuplicate<K>(states: map<string, StateObj<K>>, s: StateObj<K>)
    requires s.name in states
    ensures Register(states, s).0 == states
    ensures Register(states, s).1.None?
  {
  }

  /**
   * A fresh name adds exactly one entry, under that name, leaves every other
   * entry alone, keeps the registry filed, and the handle finds the new state.
   */
  lemma RegisterFresh<K>(states: map<string, StateObj<K>>, s: StateObj<K>)
    requires Filed(states) && s.name !in states
    ensures var (m, h) := Register(states, s);
      && m.Keys == states.Keys + {s.name}
      && |m| == |states| + 1
      && (forall n :: n in states ==> m[n] == states[n])
      && Filed(m)
      && h == Some(s) && m[h.value.name] == s
  {
    var m := Register(states, s).0;
    assert m.Keys == states.Keys + {s.name};
    assert s.name !in states.Keys;
  }

  /** The one input that shows the lost handle: a fresh state into an empty registry. */
  lemma RegisterAsWrittenLosesHandle<K>(s: StateObj<K>)
    ensures s.name in RegisterAsWritten(map[], s).0
    ensures RegisterAsWritten(map[], s).1 == None
    ensures Register(map[], s).1 == Some(s)
  {
  }

  /** The current state after `setStartState(name)`: the registered state if any, else unchanged. */
  function StartAfter<K>(states: map<string, StateObj<K>>, cur: Option<string>, name: string)
    : (r: Option<string>)
    ensures name in states ==> r == Some(name)
    ensures name !in states ==> r == cur
  {
    if name in states then Some(name) else cur
  }

  class Scenario<K, C(==)> {
    /** `m_states`: name -> owned state. */
    var states: map<string, StateObj<K>>
    /** `m_transfers`: (first state, custom event) -> second state. */
    var transfers: map<(string, C), string>
    /** `m_cur_state`, by name; None is `nullptr`. */
    var cur: Option<string>

    ghost predicate Valid()
      reads this
    {
      Filed(states) && (cur.Some? ==> cur.value in states)
    }

    constructor ()
      ensures Valid()
      ensures states == map[] && transfers == map[] && cur == None
    {
      states := map[];
      transfers := map[];
      cur := None;
    }

    /** `setStartState(const std::string&)`: never calls `init`. */
    method SetStartState(name: string)
      requires Valid()
      modifies this`cur
      ensures Valid()
      ensures cur == StartAfter(states, old(cur), name)
    {
      if name in states {
        cur := Some(states[name].name);
      }
    }

    /** `setStartState(State*)`: null is ignored, otherwise a lookup by the state's name. */
    method SetStartStateOf(state: Option<StateObj<K>>)
      requires Valid()
      modifies this`cur
      ensures Valid()
      ensures state.None? ==> cur == old(cur)
      ensures state.Some? ==> cur == StartAfter(states, old(cur), state.value.name)
    {
      if state.None? {
        return;
      }
      SetStartState(state.value.name);
    }

    /** `addState`, returning the handle the source evidently means to return. */
    method AddState(s: StateObj<K>) returns (handle: Option<StateObj<K>>)
      requires Valid()
      modifies this`states
      ensures Valid()
      ensures (states, handle) == Register(old(states), s)
    {
      if s.name in states {
        return None;
      }
      states := states[s.name := s];
      handle := Some(s);
    }

    /** `addTransfer`: an overwriting insert that always reports success. */
    method AddTransfer(first: StateObj<K>, second: StateObj<K>, event: C) returns (ok: bool)
      requires Valid()
      modifies this`transfers
      ensures Valid()
      ensures transfers == old(transfers)[(first.name, event) := second.name]
      ensures ok
    {
      transfers := transfers[(first.name, event) := second.name];
      ok := true;
    }

    /** `getState`: the registered state of that name, or null. */
    function GetState(name: string): (r: Option<StateObj<K>>)
      reads this
      requires Valid()
      ensures r.Some? <==> name in states
      ensures r.Some? ==> r.value.name == name && r == Some(states[name])
    {
      if name in states then Some(states[name]) else None
    }

    /** The base `Scenario::init`: a None event without a sender, nothing changed. */
    method Init(params: Params) returns (e: Events.Base<C>)
      ensures e.kind == Events.None && e.sender.None? && e.custom.None? && e.data == map[]
    {
      e := Events.Untagged(Events.None, None, map[]);
    }

    /** `Scenario::update`: its dispatch is commented out, so it only answers None. */
    method Update(params: Params) returns (e: Events.Base<C>)
      ensures e.kind == Events.None && e.sender.None? && e.custom.None? && e.data == map[]
    {
      e := Events.Untagged(Events.None, None, map[]);
    }
  }

  /** After `addTransfer(a, b, e)` the table sends (a, e) to b and no other key moved. */
  lemma AddTransferLookup<C>(table: map<(string, C), string>, a: string, b: string, e: C, key: (string, C))
    ensures key == (a, e) ==> table[(a, e) := b][key] == b
    ensures key != (a, e) ==> (key in table[(a, e) := b] <==> key in table)
    ensures key != (a, e) && key in table ==> table[(a, e) := b][key] == table[key]
  {
  }
}
