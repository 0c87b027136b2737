/**
 * The early, non-templated engine of `src/main.cpp` together with its worked
 * example: a list of shared states, a current-state pointer, a switcher
 * callback installed on each registered state, and the example scenario
 * `Scen` whose switcher alternates between the states "NewLogin" and
 * "TryAgain".
 *
 * States are objects (their switcher callback is set in place); the scenario
 * refers to them by their position in its list. Every hook invocation is
 * recorded, in order, in the scenario's `trace`.
 */
module EarlyEngine {
  import opened Wrappers
  import opened Lifecycle

  /** `SM::Event::Type`. */
  datatype EventType = TryAgain | GotPassword

  /** Which class a state object was built as: the base `State` or one of the example states. */
  datatype Kind = PlainState | StateNewLogin | StateTryAgain

  /** One hook invocation: which hook, on the state of which name, with which map. */
  datatype Call = Call(hook: Hook, state: string, params: Params)

  /** A state as the scenario sees it. */
  datatype StateView = StateView(name: string, kind: Kind, switcherSet: bool)

  /** The scenario's observable state: its list, its current position and the hooks called so far. */
  datatype Snap = Snap(states: seq<StateView>, cur: Option<nat>, trace: seq<Call>)

  function NamesOf(vs: seq<StateView>): (ns: seq<string>)
    ensures |ns| == |vs| && forall i :: 0 <= i < |vs| ==> ns[i] == vs[i].name
  {
    seq(|vs|, i requires 0 <= i < |vs| => vs[i].name)
  }

  /** Names are unique in the list and the current position is inside it. */
  ghost predicate Wf(s: Snap)
  {
    Distinct(NamesOf(s.states)) && (s.cur.Some? ==> s.cur.value < |s.states|)
  }

  /** The event the example states pass to `needToSwitch` from `update`. */
  function Emitted(k: Kind): Option<EventType>
  {
    match k
    case PlainState => None
    case StateNewLogin => Some(TryAgain)
    case StateTryAgain => Some(GotPassword)
  }

  /** The name `Scen::switcher` looks up for each event type. */
  function Target(e: EventType): string
  {
    match e
    case TryAgain => "TryAgain"
    case GotPassword => "NewLogin"
  }

  /** `Scenario::addState`: a taken name is ignored, a fresh one is appended with its switcher set. */
  function AddStateSpec(s: Snap, name: string, kind: Kind): (r: Snap)
    requires Wf(s)
    ensures Wf(r)
    ensures name in NamesOf(s.states) ==> r == s
    ensures name !in NamesOf(s.states) ==>
      r.states == s.states + [StateView(name, kind, true)] && r.cur == s.cur && r.trace == s.trace
  {
    if name in NamesOf(s.states) then s
    else
      var r := s.(states := s.states + [StateView(name, kind, true)]);
      assert NamesOf(r.states) == NamesOf(s.states) + [name];
      AppendFreshKeepsDistinct(NamesOf(s.states), name);
      r
  }

  /** `Scenario::setStartState`: a known name becomes current and its `init` runs once. */
  function SetStartSpec(s: Snap, name: string): (r: Snap)
    requires Wf(s)
    ensures Wf(r) && r.states == s.states
    ensures name !in NamesOf(s.states) ==> r == s
    ensures name in NamesOf(s.states) ==>
      && r.cur.Some? && s.states[r.cur.value].name == name
      && r.trace == s.trace + [Call(OnInit, name, map[])]
  {
    match FirstIndex(NamesOf(s.states), name)
    case None => s
    case Some(i) => s.(cur := Some(i), trace := s.trace + [Call(OnInit, name, map[])])
  }

  /** `Scen::switcher`: `exit` on the sender, then the target by event type becomes current and is initialised. */
  function SwitcherSpec(s: Snap, sender: string, e: EventType): (r: Snap)
    requires Wf(s)
    ensures Wf(r) && r.states == s.states
  {
    var t := s.trace + [Call(OnExit, sender, map[])];
    match FirstIndex(NamesOf(s.states), Target(e))
    case None => s.(trace := t)
    case Some(j) => s.(cur := Some(j), trace := t + [Call(OnInit, Target(e), map[])])
  }

  /** `Scenario::update`: the current state's `update`, which in the example states asks to switch. */
  function UpdateSpec(s: Snap, params: Params): (r: Snap)
    requires Wf(s)
    ensures Wf(r) && r.states == s.states
    ensures s.cur.None? ==> r == s
  {
    match s.cur
    case None => s
    case Some(i) =>
      var v := s.states[i];
      var s1 := s.(trace := s.trace + [Call(OnUpdate, v.name, params)]);
      match Emitted(v.kind)
      case None => s1
      case Some(e) => if v.switcherSet then SwitcherSpec(s1, v.name, e) else s1
  }

  /** `~Scenario`: `exit` on the current state, if there is one. */
  function DestroySpec(s: Snap): (r: Snap)
    requires Wf(s)
    ensures r.states == s.states && r.cur == s.cur
    ensures s.cur.None? ==> r.trace == s.trace
    ensures s.cur.Some? ==> r.trace == s.trace + [Call(OnExit, s.states[s.cur.value].name, map[])]
  {
    match s.cur
    case None => s
    case Some(i) => s.(trace := s.trace + [Call(OnExit, s.states[i].name, map[])])
  }

  /**
   * The switcher calls `exit` on the sender before anything else, then at
   * most one `init`, on the state named after the event type; when no such
   * state is registered the current state is left alone.
   */
  lemma SwitcherExitsBeforeInit(s: Snap, sender: string, e: EventType)
    requires Wf(s)
    ensures var r := SwitcherSpec(s, sender, e);
      && |s.trace| < |r.trace| <= |s.trace| + 2
      && r.trace[..|s.trace|] == s.trace
      && r.trace[|s.trace|] == Call(OnExit, sender, map[])
      && (forall k :: |s.trace| < k < |r.trace| ==> r.trace[k] == Call(OnInit, Target(e), map[]))
      && (Target(e) in NamesOf(s.states) <==> |r.trace| == |s.trace| + 2)
      && (Target(e) in NamesOf(s.states) ==> r.cur.Some? && s.states[r.cur.value].name == Target(e))
      && (Target(e) !in NamesOf(s.states) ==> r.cur == s.cur)
  {
    var r := SwitcherSpec(s, sender, e);
    assert r.trace[..|s.trace|] == s.trace;
  }

  /**
   * `update` with no current state changes nothing; otherwise the first hook
   * it calls is `update` on the current state, with the caller's map.
   */
  lemma UpdateCallsCurrentState(s: Snap, params: Params)
    requires Wf(s) && s.cur.Some?
    ensures var r := UpdateSpec(s, params);
      && |r.trace| > |s.trace|
      && r.trace[..|s.trace|] == s.trace
      && r.trace[|s.trace|] == Call(OnUpdate, s.states[s.cur.value].name, params)
  {
    var r := UpdateSpec(s, params);
    var i := s.cur.value;
    var s1 := s.(trace := s.trace + [Call(OnUpdate, s.states[i].name, params)]);
    if Emitted(s.states[i].kind).Some? && s.states[i].switcherSet {
      SwitcherExitsBeforeInit(s1, s.states[i].name, Emitted(s.states[i].kind).value);
      assert r.trace[..|s1.trace|] == s1.trace;
      assert r.trace[..|s.trace|] == s1.trace[..|s.trace|];
    }
    assert r.trace[..|s.trace|] == s.trace;
  }

  /** The list the example scenario builds: "NewLogin" then "TryAgain", both with their switcher. */
  function ExampleStates(): seq<StateView>
  {
    [StateView("NewLogin", StateNewLogin, true), StateView("TryAgain", StateTryAgain, true)]
  }

  /** The example right after `Scen()`: "NewLogin" current and initialised once. */
  function ExampleStart(): Snap
  {
    Snap(ExampleStates(), Some(0), [Call(OnInit, "NewLogin", map[])])
  }

  /** The example's registry, by name. */
  lemma ExampleNames()
    ensures NamesOf(ExampleStates()) == ["NewLogin", "TryAgain"]
    ensures Distinct(NamesOf(ExampleStates()))
    ensures FirstIndex(NamesOf(ExampleStates()), "NewLogin") == Some(0)
    ensures FirstIndex(NamesOf(ExampleStates()), "TryAgain") == Some(1)
  {
    assert NamesOf(ExampleStates()) == ["NewLogin", "TryAgain"];
  }

  /**
   * One `update` in the example: `update` on the current state, `exit` on it,
   * `init` on the other one, which becomes current.
   */
  lemma ExampleUpdateFlips(s: Snap, params: Params)
    requires s.states == ExampleStates() && s.cur.Some? && s.cur.value < 2
    ensures Wf(s)
    ensures var r := UpdateSpec(s, params);
      var here, there := ExampleStates()[s.cur.value].name, ExampleStates()[1 - s.cur.value].name;
      && r.states == s.states
      && r.cur == Some(1 - s.cur.value)
      && r.trace == s.trace + [Call(OnUpdate, here, params), Call(OnExit, here, map[]), Call(OnInit, there, map[])]
  {
    ExampleNames();
  }

  /** `update` applied once for each map of `inputs`, in order. */
  function RunUpdates(s: Snap, inputs: seq<Params>): (r: Snap)
    requires Wf(s)
    ensures Wf(r)
    decreases |inputs|
  {
    if |inputs| == 0 then s else RunUpdates(UpdateSpec(s, inputs[0]), inputs[1..])
  }

  /**
   * Whatever the inputs, each `update` of the example flips the current state,
   * and each adds exactly three hook calls.
   */
  lemma {:induction false} ExampleAlternates(s: Snap, inputs: seq<Params>)
    requires s.states == ExampleStates() && s.cur.Some? && s.cur.value < 2
    ensures Wf(s)
    ensures var r := RunUpdates(s, inputs);
      && r.states == ExampleStates()
      && r.cur == Some(if |inputs| % 2 == 0 then s.cur.value else 1 - s.cur.value)
      && |r.trace| == |s.trace| + 3 * |inputs|
    decreases |inputs|
  {
    ExampleUpdateFlips(s, if |inputs| == 0 then map[] else inputs[0]);
    if |inputs| > 0 {
      var s1 := UpdateSpec(s, inputs[0]);
      ExampleAlternates(s1, inputs[1..]);
    }
  }

  /** From the example's start, the current state is "NewLogin" exactly after an even number of updates. */
  lemma ExampleNewLoginAfterEvenUpdates(inputs: seq<Params>)
    ensures Wf(ExampleStart())
    ensures var r := RunUpdates(ExampleStart(), inputs);
      r.cur.Some? && r.cur.value < 2
      && (r.states[r.cur.value].name == "NewLogin" <==> |inputs| % 2 == 0)
  {
    ExampleNames();
    assert Wf(ExampleStart());
    ExampleAlternates(ExampleStart(), inputs);
  }

  /** A state object. Only its switcher callback changes after construction. */
  class State {
    const name: string
    const kind: Kind
    /** Whether `m_switcher` holds a callback. */
    var switcherSet: bool

    constructor Plain(name: string)
      ensures this.name == name && kind == PlainState && !switcherSet
    {
      this.name := name;
      kind := PlainState;
      switcherSet := false;
    }

    /** `StateNewLogin()`. */
    constructor NewLogin()
      ensures name == "NewLogin" && kind == StateNewLogin && !switcherSet
    {
      name := "NewLogin";
      kind := StateNewLogin;
      switcherSet := false;
    }

    /** `StateTryAgain()`. */
    constructor TryAgain()
      ensures name == "TryAgain" && kind == StateTryAgain && !switcherSet
    {
      name := "TryAgain";
      kind := StateTryAgain;
      switcherSet := false;
    }

    /** `setSwitcher`: `installed` says whether the function given is non-empty. */
    method SetSwitcher(installed: bool)
      modifies this
      ensures switcherSet == installed
    {
      switcherSet := installed;
    }

    function View(): StateView
      reads this
    {
      StateView(name, kind, switcherSet)
    }
  }

  /** `SM::Event`: its type and the state that sent it. */
  datatype Event = Event(kind: EventType, sender: State)

  /**
   * `SM::Scenario` with the switcher of the example subclass `Scen`, the only
   * one the source defines.
   */
  class Scenario {
    /** `m_states`. */
    var states: seq<State>
    /** `m_cur_state`, as a position in `states`. */
    var cur: Option<nat>
    /** Every hook called so far, oldest first. */
    var trace: seq<Call>

    function Names(): (ns: seq<string>)
      reads this
      ensures |ns| == |states| && forall i :: 0 <= i < |states| ==> ns[i] == states[i].name
    {
      var ss := states;
      seq(|ss|, i requires 0 <= i < |ss| => ss[i].name)
    }

    ghost predicate Valid()
      reads this
    {
      Distinct(Names()) && (cur.Some? ==> cur.value < |states|)
    }

    ghost function View(): (v: Snap)
      reads this, states
      ensures NamesOf(v.states) == Names() && v.cur == cur && v.trace == trace
      ensures Valid() ==> Wf(v)
    {
      var ss := states;
      var v := Snap(seq(|ss|, i requires 0 <= i < |ss| reads ss => ss[i].View()), cur, trace);
      assert NamesOf(v.states) == Names();
      v
    }

    /** `Scenario()`: no states and no current state. */
    constructor ()
      ensures Valid() && View() == Snap([], None, [])
    {
      states := [];
      cur := None;
      trace := [];
    }

    /** `Scen()`: registers "NewLogin" and "TryAgain" and starts at "NewLogin". */
    constructor Example()
      ensures Valid() && View() == ExampleStart()
    {
      states := [];
      cur := None;
      trace := [];
      new;
      var login := new State.NewLogin();
      var again := new State.TryAgain();
      AddState(login);
      AddState(again);
      ExampleNames();
      SetStartState("NewLogin");
    }

    /** `findState`: the first state of that name. */
    method FindState(name: string) returns (r: Option<nat>)
      ensures r == FirstIndex(Names(), name)
    {
      var i := 0;
      while i < |states|
        invariant 0 <= i <= |states|
        invariant forall j :: 0 <= j < i ==> states[j].name != name
      {
        if states[i].name == name {
          return Some(i);
        }
        i := i + 1;
      }
      return None;
    }

    /** `addState`: scan for the name, then install the switcher and append. */
    method AddState(s: State)
      requires Valid()
      modifies this, s
      ensures Valid()
      ensures View() == AddStateSpec(old(View()), s.name, s.kind)
      ensures s.switcherSet == (old(s.switcherSet) || s.name !in old(Names()))
    {
      for i := 0 to |states|
        invariant forall j :: 0 <= j < i ==> states[j].name != s.name
      {
        if states[i].name == s.name {
          return;
        }
      }
      ghost var before := View();
      s.SetSwitcher(true);
      states := states + [s];
      assert s.name !in NamesOf(before.states);
      AppendFreshKeepsDistinct(Names()[..|states| - 1], s.name);
      assert Names() == old(Names()) + [s.name];
      assert View().states == before.states + [StateView(s.name, s.kind, true)];
    }

    /** `setStartState`: the state of that name becomes current and is initialised. */
    method SetStartState(name: string)
      requires Valid()
      modifies this
      ensures Valid()
      ensures View() == SetStartSpec(old(View()), name)
    {
      var found := FindState(name);
      if found.Some? {
        cur := found;
        trace := trace + [Call(OnInit, states[found.value].name, map[])];
      }
    }

    /** `update`: nothing without a current state, otherwise that state's `update`. */
    method Update(params: Params)
      requires Valid()
      modifies this
      ensures Valid()
      ensures View() == UpdateSpec(old(View()), params)
    {
      if cur.None? {
        return;
      }
      var st := states[cur.value];
      trace := trace + [Call(OnUpdate, st.name, params)];
      match st.kind
      case PlainState =>
      case StateNewLogin => NeedToSwitch(Event(TryAgain, st));
      case StateTryAgain => NeedToSwitch(Event(GotPassword, st));
    }

    /** `State::needToSwitch` on the sender, whose switcher (if set) is this scenario's. */
    method NeedToSwitch(ev: Event)
      requires Valid()
      modifies this
      ensures Valid()
      ensures View() == if ev.sender.switcherSet then SwitcherSpec(old(View()), ev.sender.name, ev.kind) else old(View())
    {
      if ev.sender.switcherSet {
        Switcher(ev);
      }
    }

    /** `Scen::switcher`. */
    method Switcher(ev: Event)
      requires Valid()
      modifies this
      ensures Valid()
      ensures View() == SwitcherSpec(old(View()), ev.sender.name, ev.kind)
    {
      trace := trace + [Call(OnExit, ev.sender.name, map[])];
      var found := FindState(Target(ev.kind));
      if found.Some? {
        cur := found;
        trace := trace + [Call(OnInit, states[found.value].name, map[])];
      }
    }

    /** `~Scenario`. */
    method Destroy()
      requires Valid()
      modifies this
      ensures View() == DestroySpec(old(View()))
    {
      if cur.Some? {
        trace := trace + [Call(OnExit, states[cur.value].name, map[])];
      }
    }
  }
}
