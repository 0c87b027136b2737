/** `namespace Settings` of the password example: its custom events. */
module Settings {

  datatype CustomEvents =
    | GotPassword
    | PasswordIsCorrect
    | PasswordIsIncorrect
    | PasswordIsEmpty
    | SavePassword
    | TryAgain
}

/**
 * The password-update scenario built on the templated engine: four states
 * whose `update` decides on the "password" entry of the input map, and the
 * scenario's `init`, which registers them, fills the transition table and
 * sets the start state.
 */
module UpdatePassword {
  import opened Wrappers
  import opened Lifecycle
  import Events
  import LibState
  import Settings

  /** The four state classes of `namespace States`. */
  datatype Kind = RequestOldPassword | CheckPassword | RequestNewPassword | SavePassword

  type Event = Events.Base<Settings.CustomEvents>

  /** The name each state class passes to the `State` constructor. */
  function Name(k: Kind): string
  {
    match k
    case RequestOldPassword => "RequestOldPassword"
    case CheckPassword => "CheckPassword"
    case RequestNewPassword => "RequestNewPassword"
    case SavePassword => "SavePassword"
  }

  /** A freshly constructed state of that class. */
  function Obj(k: Kind): LibState.StateObj<Kind>
  {
    LibState.StateObj(Name(k), k)
  }

  /** "password" is present and not empty. */
  predicate HasPassword(p: Params)
  {
    "password" in p && |p["password"]| > 0
  }

  /**
   * The rule `RequestOldPassword::update` and `RequestNewPassword::update`
   * share: switch with GotPassword, passing the map on, when a password was
   * given; otherwise request it, with no data.
   */
  function PasswordPrompt(k: Kind, p: Params): (e: Event)
    ensures e.sender == Some(Name(k))
    ensures e.kind == Events.Switch <==> ("password" in p && p["password"] != "")
    ensures e.kind == Events.Switch ==> e.custom == Some(Settings.GotPassword) && e.data == p
    ensures e.kind != Events.Switch ==>
      e.kind == Events.Request && e.custom == Some(Settings.PasswordIsEmpty) && e.data == map[]
  {
    if HasPassword(p) then Events.SwitchEventWith(Some(Name(k)), Settings.GotPassword, p)
    else Events.RequestEventWith(Some(Name(k)), Settings.PasswordIsEmpty, map[])
  }

  /** `RequestOldPassword::update`. */
  function RequestOldPasswordUpdate(p: Params): (e: Event)
    ensures e.sender == Some("RequestOldPassword")
    ensures e.kind == Events.Switch <==> ("password" in p && p["password"] != "")
    ensures e.kind == Events.Switch ==> e.custom == Some(Settings.GotPassword) && e.data == p
    ensures e.kind != Events.Switch ==>
      e.kind == Events.Request && e.custom == Some(Settings.PasswordIsEmpty) && e.data == map[]
  {
    PasswordPrompt(RequestOldPassword, p)
  }

  /** `CheckPassword::update`: the only correct password is "123"; a missing one is incorrect. */
  function CheckPasswordUpdate(p: Params): (e: Event)
    ensures e.sender == Some("CheckPassword") && e.kind == Events.Switch && e.data == map[]
    ensures e.custom == Some(Settings.PasswordIsCorrect) <==> ("password" in p && p["password"] == "123")
    ensures e.custom == Some(Settings.PasswordIsCorrect) || e.custom == Some(Settings.PasswordIsIncorrect)
  {
    if "password" in p && p["password"] == "123" then
      Events.SwitchEventWith(Some(Name(CheckPassword)), Settings.PasswordIsCorrect, map[])
    else
      Events.SwitchEventWith(Some(Name(CheckPassword)), Settings.PasswordIsIncorrect, map[])
  }

  /** `RequestNewPassword::update`. */
  function RequestNewPasswordUpdate(p: Params): (e: Event)
    ensures e.sender == Some("RequestNewPassword")
    ensures e.kind == Events.Switch <==> ("password" in p && p["password"] != "")
    ensures e.kind == Events.Switch ==> e.custom == Some(Settings.GotPassword) && e.data == p
    ensures e.kind != Events.Switch ==>
      e.kind == Events.Request && e.custom == Some(Settings.PasswordIsEmpty) && e.data == map[]
  {
    PasswordPrompt(RequestNewPassword, p)
  }

  /** `SavePassword::update`: always a request; it carries the map only when a password was given. */
  function SavePasswordUpdate(p: Params): (e: Event)
    ensures e.sender == Some("SavePassword") && e.kind == Events.Request
    ensures e.custom == Some(Settings.PasswordIsCorrect) <==> ("password" in p && p["password"] != "")
    ensures e.custom == Some(Settings.PasswordIsCorrect) ==> e.data == p
    ensures e.custom != Some(Settings.PasswordIsCorrect) ==>
      e.custom == Some(Settings.PasswordIsEmpty) && e.data == map[]
  {
    if HasPassword(p) then
      Events.RequestEventWith(Some(Name(SavePassword)), Settings.PasswordIsCorrect, p)
    else
      Events.RequestEventWith(Some(Name(SavePassword)), Settings.PasswordIsEmpty, map[])
  }

  /** The hooks of each state class: `update` is overridden, `init` and `exit` are the defaults. */
  function HookOf(h: Hook, k: Kind, p: Params): Event
  {
    match h
    case OnUpdate =>
      (match k
       case RequestOldPassword => RequestOldPasswordUpdate(p)
       case CheckPassword => CheckPasswordUpdate(p)
       case RequestNewPassword => RequestNewPasswordUpdate(p)
       case SavePassword => SavePasswordUpdate(p))
    case _ => LibState.DefaultHook(h, Obj(k), p)
  }

  /** The registry `init` builds. */
  function Registry(): map<string, LibState.StateObj<Kind>>
  {
    map[Name(CheckPassword) := Obj(CheckPassword),
        Name(RequestNewPassword) := Obj(RequestNewPassword),
        Name(RequestOldPassword) := Obj(RequestOldPassword),
        Name(SavePassword) := Obj(SavePassword)]
  }

  /** The transition table `init` builds. */
  function Table(): map<(string, Settings.CustomEvents), string>
  {
    map[(Name(RequestOldPassword), Settings.GotPassword) := Name(CheckPassword),
        (Name(RequestOldPassword), Settings.TryAgain) := Name(RequestOldPassword),
        (Name(CheckPassword), Settings.PasswordIsIncorrect) := Name(RequestOldPassword),
        (Name(CheckPassword), Settings.PasswordIsCorrect) := Name(RequestNewPassword),
        (Name(RequestNewPassword), Settings.TryAgain) := Name(RequestNewPassword),
        (Name(RequestNewPassword), Settings.GotPassword) := Name(SavePassword),
        (Name(SavePassword), Settings.PasswordIsEmpty) := Name(RequestNewPassword)]
  }

  /** Four states, every one filed under its own name. */
  lemma RegistryShape()
    ensures |Registry()| == 4 && LibState.Filed(Registry())
    ensures forall k: Kind :: Name(k) in Registry() && Registry()[Name(k)] == Obj(k)
  {
    assert Registry().Keys == {"CheckPassword", "RequestNewPassword", "RequestOldPassword", "SavePassword"};
  }

  /** The table's keys: five cross-state edges and the two TryAgain self-loops. */
  lemma TableKeys()
    ensures Table().Keys == {
      ("RequestOldPassword", Settings.GotPassword),
      ("RequestOldPassword", Settings.TryAgain),
      ("CheckPassword", Settings.PasswordIsIncorrect),
      ("CheckPassword", Settings.PasswordIsCorrect),
      ("RequestNewPassword", Settings.TryAgain),
      ("RequestNewPassword", Settings.GotPassword),
      ("SavePassword", Settings.PasswordIsEmpty)}
  {
  }

  /** Seven entries, none of the seven `addTransfer` calls overwrites another. */
  lemma TableSize()
    ensures |Table()| == 7
  {
    TableKeys();
    var k1 := {("RequestOldPassword", Settings.GotPassword), ("RequestOldPassword", Settings.TryAgain)};
    var k2 := {("CheckPassword", Settings.PasswordIsIncorrect), ("CheckPassword", Settings.PasswordIsCorrect)};
    var k3 := {("RequestNewPassword", Settings.TryAgain), ("RequestNewPassword", Settings.GotPassword)};
    var k4 := {("SavePassword", Settings.PasswordIsEmpty)};
    assert Table().Keys == k1 + k2 + k3 + k4;
    assert |k1 + k2| == 4;
    assert |k1 + k2 + k3| == 6;
  }

  /**
   * Every entry joins registered states; TryAgain entries are exactly the
   * self-loops, all others change the state.
   */
  lemma TableShape()
    ensures Table()[("RequestOldPassword", Settings.TryAgain)] == "RequestOldPassword"
    ensures Table()[("RequestNewPassword", Settings.TryAgain)] == "RequestNewPassword"
    ensures forall key :: key in Table() ==> key.0 in Registry() && Table()[key] in Registry()
    ensures forall key :: key in Table() ==> (key.1 == Settings.TryAgain <==> Table()[key] == key.0)
  {
    TableKeys();
    RegistryShape();
  }

  /**
   * Every switch a state's `update` can return names an entry of the table, so
   * none of them would fall through as "no transition".
   */
  lemma SwitchesAreRouted(k: Kind, p: Params)
    ensures var e := HookOf(OnUpdate, k, p);
      e.kind == Events.Switch ==> e.custom.Some? && (Name(k), e.custom.value) in Table()
  {
  }

  /**
   * `UpdatePassword::init` on a new scenario: registers the four states (none
   * is refused), adds the seven transfers, starts at RequestOldPassword and
   * answers a None event.
   */
  method Init(sc: LibState.Scenario<Kind, Settings.CustomEvents>, params: Params) returns (e: Event)
    requires sc.Valid() && sc.states == map[] && sc.transfers == map[]
    modifies sc
    ensures sc.Valid()
    ensures sc.states == Registry()
    ensures sc.transfers == Table()
    ensures sc.cur == Some(Name(RequestOldPassword))
    ensures e.kind == Events.None && e.sender.None? && e.custom.None? && e.data == map[]
  {
    var cp := sc.AddState(Obj(CheckPassword));
    var rnp := sc.AddState(Obj(RequestNewPassword));
    var rop := sc.AddState(Obj(RequestOldPassword));
    var sp := sc.AddState(Obj(SavePassword));
    var ok;
    ok := sc.AddTransfer(rop.value, cp.value, Settings.GotPassword);
    ok := sc.AddTransfer(rop.value, rop.value, Settings.TryAgain);
    ok := sc.AddTransfer(cp.value, rop.value, Settings.PasswordIsIncorrect);
    ok := sc.AddTransfer(cp.value, rnp.value, Settings.PasswordIsCorrect);
    ok := sc.AddTransfer(rnp.value, rnp.value, Settings.TryAgain);
    ok := sc.AddTransfer(rnp.value, sp.value, Settings.GotPassword);
    ok := sc.AddTransfer(sp.value, rnp.value, Settings.PasswordIsEmpty);
    sc.SetStartStateOf(rop);
    e := Events.Untagged(Events.None, None, map[]);
  }
}
