/**
 * The non-templated engine of `libstate.cpp`: the registry and lifecycle of
 * `src/main.cpp`, plus a requester callback next to the switcher, both
 * forwarded only when set.
 *
 * The header this file was written against defines the event type's
 * enumerators and the scenario's own switcher; the event kind is therefore a
 * type parameter `T`, and an invocation of a scenario's switcher or requester
 * sink is recorded in its `trace` together with the hooks it calls.
 */
module LibStateImpl {
  import opened Wrappers
  import opened Lifecycle

  /** `Event(type, state, data)`: the three fields stored as given. */
  datatype Event<T> = Event(kind: T, sender: State?<T>, data: Params)

  /** One call made by a scenario: a hook on a named state, its switcher, or its requester sink. */
  datatype Call<T> =
    | HookCall(hook: Hook, state: string, params: Params)
    | SwitcherCall(event: Event<T>)
    | RequesterCall(params: Params)

  class State<T> {
    const name: string
    /** `m_switcher`: the scenario whose switcher it calls, or null. */
    var switcher: Scenario?<T>
    /** `m_requester`: the scenario whose `request` it calls, or null. */
    var requester: Scenario?<T>

    constructor (name: string)
      ensures this.name == name && switcher == null && requester == null
    {
      this.name := name;
      switcher := null;
      requester := null;
    }

    method SetSwitcher(sc: Scenario?<T>)
      modifies this
      ensures switcher == sc && requester == old(requester)
    {
      switcher := sc;
    }

    method SetRequester(sc: Scenario?<T>)
      modifies this
      ensures requester == sc && switcher == old(switcher)
    {
      requester := sc;
    }

    /** `needToSwitch`: hands the event to the switcher when one is set, otherwise does nothing. */
    method NeedToSwitch(ev: Event<T>)
      requires switcher != null ==> switcher.Valid()
      modifies switcher
      ensures switcher != null ==> switcher.Valid()
      ensures switcher != null ==>
        && |switcher.trace| > |old(switcher.trace)|
        && switcher.trace[..|old(switcher.trace)|] == old(switcher.trace)
        && switcher.trace[|old(switcher.trace)|] == SwitcherCall(ev)
    {
      if switcher != null {
        switcher.Switcher(ev);
      }
    }

    /** `request`: hands the map to the requester when one is set, otherwise does nothing. */
    method Request(params: Params)
      modifies requester
      ensures requester != null ==>
        && requester.trace == old(requester.trace) + (if requester.requesterSet then [RequesterCall(params)] else [])
        && requester.states == old(requester.states)
        && requester.cur == old(requester.cur)
        && requester.requesterSet == old(requester.requesterSet)
    {
      if requester != null {
        requester.Request(params);
      }
    }
  }

  class Scenario<T> {
    /** `m_states`. */
    var states: seq<State<T>>
    /** `m_cur_state`, as a position in `states`. */
    var cur: Option<nat>
    /** Whether the scenario's own `m_requester` sink is set. */
    var requesterSet: bool
    /** Every call made so far, oldest first. */
    var trace: seq<Call<T>>

    function Names(): (ns: seq<string>)
      reads this
      ensures |ns| == |states| && forall i :: 0 <= i < |states| ==> ns[i] == states[i].name
    {
      var ss := states;
      seq(|ss|, i requires 0 <= i < |ss| => ss[i].name)
    }

    ghost predicate Valid()
      reads this
    {
      Distinct(Names()) && (cur.Some? ==> cur.value < |states|)
    }

    constructor ()
      ensures Valid()
      ensures states == [] && cur == None && !requesterSet && trace == []
    {
      states := [];
      cur := None;
      requesterSet := false;
      trace := [];
    }

    /** `findState`: the first state of that name. */
    method FindState(name: string) returns (r: Option<nat>)
      ensures r == FirstIndex(Names(), name)
    {
      var i := 0;
      while i < |states|
        invariant 0 <= i <= |states|
        invariant forall j :: 0 <= j < i ==> states[j].name != name
      {
        if states[i].name == name {
          return Some(i);
        }
        i := i + 1;
      }
      return None;
    }

    /** `setStartState`: a known name becomes current and its `init` is called; otherwise nothing changes. */
    method SetStartState(name: string)
      requires Valid()
      modifies this
      ensures Valid()
      ensures states == old(states) && requesterSet == old(requesterSet)
      ensures name !in Names() ==> cur == old(cur) && trace == old(trace)
      ensures name in Names() ==>
        && cur.Some? && states[cur.value].name == name
        && trace == old(trace) + [HookCall(OnInit, name, map[])]
    {
      var found := FindState(name);
      if found.Some? {
        cur := found;
        trace := trace + [HookCall(OnInit, states[found.value].name, map[])];
      }
    }

    /** `~Scenario`: `exit` on the current state, if there is one. */
    method Destroy()
      requires Valid()
      modifies this
      ensures states == old(states) && cur == old(cur) && requesterSet == old(requesterSet)
      ensures cur.None? ==> trace == old(trace)
      ensures cur.Some? ==> trace == old(trace) + [HookCall(OnExit, states[cur.value].name, map[])]
    {
      if cur.Some? {
        trace := trace + [HookCall(OnExit, states[cur.value].name, map[])];
      }
    }

    /** `Scenario::request`: forwards to the sink when it is set. */
    method Request(params: Params)
      modifies this
      ensures states == old(states) && cur == old(cur) && requesterSet == old(requesterSet)
      ensures trace == old(trace) + (if requesterSet then [RequesterCall(params)] else [])
    {
      if requesterSet {
        trace := trace + [RequesterCall(params)];
      }
    }

    /**
     * The switcher the subclass defines. Only its invocation is promised: the
     * call is recorded right after the old trace, and what the subclass then
     * does (switch state, request, ...) is left open, except that, like any
     * subclass switcher, it keeps the scenario valid.
     */
    method Switcher(ev: Event<T>)
      requires Valid()
      modifies this
      ensures Valid()
      ensures |trace| > |old(trace)|
      ensures trace[..|old(trace)|] == old(trace)
      ensures trace[|old(trace)|] == SwitcherCall(ev)
    {
      trace := trace + [SwitcherCall(ev)];
    }

    /**
     * `addState`: a name already listed is ignored; otherwise the state gets
     * this scenario as its switcher and requester and is appended.
     */
    method AddState(s: State<T>)
      requires Valid()
      modifies this, s
      ensures Valid()
      ensures cur == old(cur) && trace == old(trace) && requesterSet == old(requesterSet)
      ensures s.name in old(Names()) ==>
        states == old(states) && s.switcher == old(s.switcher) && s.requester == old(s.requester)
      ensures s.name !in old(Names()) ==>
        states == old(states) + [s] && s.switcher == this && s.requester == this
    {
      for i := 0 to |states|
        invariant forall j :: 0 <= j < i ==> states[j].name != s.name
      {
        if states[i].name == s.name {
          return;
        }
      }
      s.SetSwitcher(this);
      s.SetRequester(this);
      states := states + [s];
      AppendFreshKeepsDistinct(old(Names()), s.name);
      assert Names() == old(Names()) + [s.name];
    }

    /** `update`: nothing without a current state, otherwise that state's `update`. */
    method Update(params: Params)
      requires Valid()
      modifies this
      ensures Valid()
      ensures old(cur).None? ==>
        states == old(states) && cur == old(cur) && requesterSet == old(requesterSet) && trace == old(trace)
      ensures old(cur).Some? ==>
        && |trace| > |old(trace)|
        && trace[..|old(trace)|] == old(trace)
        && trace[|old(trace)|] == HookCall(OnUpdate, old(states[cur.value].name), params)
    {
      if cur.Some? {
        trace := trace + [HookCall(OnUpdate, states[cur.value].name, params)];
      }
    }
  }

  /**
   * A state registered in a scenario forwards `needToSwitch` to that
   * scenario's switcher and `request` to its sink, exactly once each.
   */
  method RegisteredStateForwards<T>(sc: Scenario<T>, s: State<T>, ev: Event<T>, params: Params)
    requires sc.Valid() && s.name !in sc.Names()
    modifies sc, s
    ensures sc.Valid()
    ensures s.switcher == sc && s.requester == sc
    ensures |sc.trace| > |old(sc.trace)|
    ensures sc.trace[..|old(sc.trace)|] == old(sc.trace)
    ensures sc.trace[|old(sc.trace)|] == SwitcherCall(ev)
    ensures sc.requesterSet ==> sc.trace[|sc.trace| - 1] == RequesterCall(params)
  {
    sc.AddState(s);
    s.NeedToSwitch(ev);
    s.Request(params);
  }
}
