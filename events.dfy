/**
 * The event value of the templated library (namespace `SM::Events`): what a
 * state hands back from a hook. The type parameter `C` is the scenario's own
 * enumeration of custom events.
 *
 * The sender is a pointer to a state; it is modelled by the state's name,
 * `None` standing for `nullptr`.
 */
module Events {
  import Wrappers
  import opened Lifecycle

  /** `Events::Type`, the engine-level outcomes. */
  datatype Type = None | Request | Switch | TryAgain | Finish

  /** `Events::Base<C>`: kind, optional custom tag, sender and payload. */
  datatype Base<C> = Base(
    kind: Type,
    custom: Wrappers.Option<C>,
    sender: Wrappers.Option<string>,
    data: Params)

  /** The constructor without a custom tag. */
  function Untagged<C>(kind: Type, sender: Wrappers.Option<string>, data: Params): (e: Base<C>)
    ensures e.kind == kind && e.sender == sender && e.data == data
    ensures e.custom.None?
  {
    Base(kind, Wrappers.None, sender, data)
  }

  /** The constructor that sets the custom tag. */
  function Tagged<C>(kind: Type, sender: Wrappers.Option<string>, tag: C, data: Params): (e: Base<C>)
    ensures e.kind == kind && e.sender == sender && e.data == data
    ensures e.custom == Wrappers.Some(tag)
  {
    Base(kind, Wrappers.Some(tag), sender, data)
  }

  // The five wrapper structs, each with its two constructors; each pins the kind.

  function SwitchEvent<C>(sender: Wrappers.Option<string>, data: Params): Base<C>
  {
    Untagged(Switch, sender, data)
  }

  function SwitchEventWith<C>(sender: Wrappers.Option<string>, tag: C, data: Params): Base<C>
  {
    Tagged(Switch, sender, tag, data)
  }

  function RequestEvent<C>(sender: Wrappers.Option<string>, data: Params): Base<C>
  {
    Untagged(Request, sender, data)
  }

  function RequestEventWith<C>(sender: Wrappers.Option<string>, tag: C, data: Params): Base<C>
  {
    Tagged(Request, sender, tag, data)
  }

  function TryAgainEvent<C>(sender: Wrappers.Option<string>, data: Params): Base<C>
  {
    Untagged(TryAgain, sender, data)
  }

  function TryAgainEventWith<C>(sender: Wrappers.Option<string>, tag: C, data: Params): Base<C>
  {
    Tagged(TryAgain, sender, tag, data)
  }

  function FinishEvent<C>(sender: Wrappers.Option<string>, data: Params): Base<C>
  {
    Untagged(Finish, sender, data)
  }

  function FinishEventWith<C>(sender: Wrappers.Option<string>, tag: C, data: Params): Base<C>
  {
    Tagged(Finish, sender, tag, data)
  }

  function NoneEvent<C>(sender: Wrappers.Option<string>, data: Params): Base<C>
  {
    Untagged(None, sender, data)
  }

  function NoneEventWith<C>(sender: Wrappers.Option<string>, tag: C, data: Params): Base<C>
  {
    Tagged(None, sender, tag, data)
  }

  /** Each wrapper yields its own kind; the tag-less forms leave the tag empty. */
  lemma WrappersPinKind<C>(sender: Wrappers.Option<string>, tag: C, data: Params)
    ensures SwitchEvent<C>(sender, data) == Base(Switch, Wrappers.None, sender, data)
    ensures SwitchEventWith(sender, tag, data) == Base(Switch, Wrappers.Some(tag), sender, data)
    ensures RequestEvent<C>(sender, data) == Base(Request, Wrappers.None, sender, data)
    ensures RequestEventWith(sender, tag, data) == Base(Request, Wrappers.Some(tag), sender, data)
    ensures TryAgainEvent<C>(sender, data) == Base(TryAgain, Wrappers.None, sender, data)
    ensures TryAgainEventWith(sender, tag, data) == Base(TryAgain, Wrappers.Some(tag), sender, data)
    ensures FinishEvent<C>(sender, data) == Base(Finish, Wrappers.None, sender, data)
    ensures FinishEventWith(sender, tag, data) == Base(Finish, Wrappers.Some(tag), sender, data)
    ensures NoneEvent<C>(sender, data) == Base(None, Wrappers.None, sender, data)
    ensures NoneEventWith(sender, tag, data) == Base(None, Wrappers.Some(tag), sender, data)
  {
  }

  /**
   * `Base::operator==`: kind, tag and the senders' names. The source reads
   * `getName()` through both sender pointers, so neither may be null.
   */
  predicate Equal<C(==)>(a: Base<C>, b: Base<C>)
    requires a.sender.Some? && b.sender.Some?
    // equal exactly when the two differ in nothing but the payload
    ensures Equal(a, b) <==> a.(data := b.data) == b
  {
    a.kind == b.kind && a.custom == b.custom && a.sender.value == b.sender.value
  }

  /** Replacing the payload never changes the answer of `==`. */
  lemma EqualIgnoresPayload<C>(a: Base<C>, b: Base<C>, d: Params)
    requires a.sender.Some? && b.sender.Some?
    ensures Equal(a, b) <==> Equal(a.(data := d), b)
    ensures Equal(a, a.(data := d))
  {
  }

  /** `==` is an equivalence on events with a sender. */
  lemma EqualIsEquivalence<C>(a: Base<C>, b: Base<C>, c: Base<C>)
    requires a.sender.Some? && b.sender.Some? && c.sender.Some?
    ensures Equal(a, a)
    ensures Equal(a, b) ==> Equal(b, a)
    ensures Equal(a, b) && Equal(b, c) ==> Equal(a, c)
  {
  }
}
