/** The in-process poke registry: for each channel, the set of listeners of
    the open poke connections subscribed to it. */
module Poke {
  import opened OrderedSets

  /** A registered callback. `id` stands for the closure's identity, and
      `throws` says whether calling it throws. */
  datatype Listener = Listener(id: nat, throws: bool)

  /** What `addListener` hands back: calling it removes this listener from this channel. */
  datatype Subscription = Subscription(channel: string, listener: Listener)

  /** The listeners of a channel; a channel nobody subscribed to has none. */
  function Registered(listeners: map<string, seq<Listener>>, channel: string): seq<Listener> {
    if channel in listeners then listeners[channel] else []
  }

  /** The listeners among `s` whose call throws, in call order. */
  function Throwing(s: seq<Listener>): (r: seq<Listener>)
    ensures forall i | 0 <= i < |r| :: r[i].throws && r[i] in s
    ensures forall i | 0 <= i < |s| :: s[i].throws ==> s[i] in r
  {
    if s == [] then [] else (if s[0].throws then [s[0]] else []) + Throwing(s[1..])
  }

  /** The calls that poking each of `channels` in turn makes. */
  function Fanout(listeners: map<string, seq<Listener>>, channels: seq<string>): seq<Listener> {
    if channels == [] then [] else Registered(listeners, channels[0]) + Fanout(listeners, channels[1..])
  }

  class PokeBackend {
    var listeners: map<string, seq<Listener>>
    /** Every listener call, in call order: each is one "poke" frame on a connection. */
    var calls: seq<Listener>
    /** The calls that threw, as they were logged. */
    var errors: seq<Listener>

    ghost predicate Valid()
      reads this
    {
      forall c | c in listeners :: Distinct(listeners[c])
    }

    constructor ()
      ensures Valid() && listeners == map[] && calls == [] && errors == []
    {
      listeners, calls, errors := map[], [], [];
    }

    /** Registers `listener` on `channel`, creating the channel's set if it is absent. */
    method AddListener(channel: string, listener: Listener) returns (unsubscribe: Subscription)
      requires Valid()
      modifies this
      ensures Valid()
      ensures listeners == old(listeners)[channel := SetAdd(Registered(old(listeners), channel), listener)]
      ensures unsubscribe == Subscription(channel, listener)
      ensures calls == old(calls) && errors == old(errors)
    {
      var registered := if channel in listeners then listeners[channel] else [];
      if channel !in listeners {
        listeners := listeners[channel := registered];
      }
      listeners := listeners[channel := SetAdd(registered, listener)];
      unsubscribe := Subscription(channel, listener);
    }

    /** Calls every listener of `channel` once, in registration order; a
        listener that throws is logged and the remaining ones are still called. */
    method Poke(channel: string)
      modifies this`calls, this`errors
      ensures calls == old(calls) + Registered(listeners, channel)
      ensures errors == old(errors) + Throwing(Registered(listeners, channel))
    {
      if channel !in listeners {
        return;
      }
      var registered := listeners[channel];
      for i := 0 to |registered|
        invariant calls == old(calls) + registered[..i]
        invariant errors == old(errors) + Throwing(registered[..i])
      {
        ThrowingAppend(registered[..i], registered[i]);
        assert registered[..i + 1] == registered[..i] + [registered[i]];
        calls := calls + [registered[i]];
        if registered[i].throws {
          errors := errors + [registered[i]];
        }
      }
      assert registered[..|registered|] == registered;
    }

    method RemoveListener(channel: string, listener: Listener)
      requires Valid()
      modifies this
      ensures Valid()
      ensures listeners == if channel in old(listeners)
        then old(listeners)[channel := SetDelete(old(listeners)[channel], listener)]
        else old(listeners)
      ensures calls == old(calls) && errors == old(errors)
    {
      if channel !in listeners {
        return;
      }
      listeners := listeners[channel := SetDelete(listeners[channel], listener)];
    }

    /** Calls the function `addListener` returned, as closing a poke connection does. */
    method Unsubscribe(subscription: Subscription)
      requires Valid()
      modifies this
      ensures Valid()
      ensures listeners == if subscription.channel in old(listeners)
        then old(listeners)[subscription.channel := SetDelete(old(listeners)[subscription.channel], subscription.listener)]
        else old(listeners)
      ensures calls == old(calls) && errors == old(errors)
    {
      RemoveListener(subscription.channel, subscription.listener);
    }
  }

  /** The failing calls of two runs of calls, one after the other. */
  lemma {:induction false} ThrowingConcat(s: seq<Listener>, t: seq<Listener>)
    ensures Throwing(s + t) == Throwing(s) + Throwing(t)
  {
    if s != [] {
      assert (s + t)[1..] == s[1..] + t;
      ThrowingConcat(s[1..], t);
    } else {
      assert s + t == t;
    }
  }

  lemma ThrowingAppend(s: seq<Listener>, l: Listener)
    ensures Throwing(s + [l]) == Throwing(s) + (if l.throws then [l] else [])
  {
    if s != [] {
      assert (s + [l])[1..] == s[1..] + [l];
      ThrowingAppend(s[1..], l);
    }
  }
}
