/** The GDBus connection the signal layer calls into. GLib itself is not
    part of this model: the connection decides through the `grants` oracle
    whether a subscription is accepted (GLib refuses one whose names fail its
    argument checks, returning the id 0) and hands out fresh, positive ids
    from a counter for those it accepts; it decides whether an emission
    succeeds through the `accepts` oracle; and it records every call it
    receives in a ghost log so that callers' contracts can say exactly which
    bus calls they make. */
module Bus {
  import opened CStrings

  /** An opaque `GVariant *` payload; only its identity matters here. */
  datatype Variant = Variant(handle: nat)

  /** The match rule given to g_dbus_connection_signal_subscribe
      (sender, interface, member, object path); `None` is NULL. */
  datatype MatchRule = MatchRule(
    sender: Option<string>,
    iface: Option<string>,
    member: Option<string>,
    path: Option<string>)

  /** The signal given to g_dbus_connection_emit_signal. The member name is
      always a real pointer; the payload may be NULL. */
  datatype Frame = Frame(
    destination: Option<string>,
    path: Option<string>,
    iface: Option<string>,
    member: string,
    params: Option<Variant>)

  /** One call made on the connection, as the log records it. */
  datatype Call =
    | Subscribed(rule: MatchRule, id: nat)
    | Unsubscribed(id: nat)
    | Emitted(frame: Frame, delivered: bool)

  class Connection {
    /** Whether the bus accepts a match rule (stands in for GLib's checks of
        the names in it). */
    const grants: MatchRule -> bool
    /** Whether the bus accepts an emitted signal (stands in for GError). */
    const accepts: Frame -> bool
    /** The id the next subscription receives. */
    var nextId: nat
    /** Every call made on this connection, oldest first. */
    ghost var log: seq<Call>
    /** The subscription ids handed out and not yet released. */
    ghost var live: set<nat>

    ghost predicate Valid()
      reads this
    {
      0 < nextId && forall id :: id in live ==> 0 < id < nextId
    }

    constructor (grants: MatchRule -> bool, accepts: Frame -> bool)
      ensures Valid()
      ensures this.grants == grants && this.accepts == accepts && log == [] && live == {}
    {
      this.grants := grants;
      this.accepts := accepts;
      nextId := 1;
      log := [];
      live := {};
    }

    /** g_dbus_connection_signal_subscribe: a fresh, positive id for a rule
        the bus accepts, 0 (and no subscription) for one it refuses. */
    method Subscribe(rule: MatchRule) returns (id: nat)
      requires Valid()
      modifies this
      ensures Valid()
      ensures id == 0 <==> !grants(rule)
      ensures id > 0 ==> id !in old(live) && live == old(live) + {id}
      ensures id == 0 ==> live == old(live)
      ensures log == old(log) + [Subscribed(rule, id)]
    {
      if grants(rule) {
        id := nextId;
        nextId := nextId + 1;
        live := live + {id};
      } else {
        id := 0;
      }
      log := log + [Subscribed(rule, id)];
    }

    /** g_dbus_connection_signal_unsubscribe: any id may be passed; one not
        held is simply not found. */
    method Unsubscribe(id: nat)
      modifies this
      ensures nextId == old(nextId)
      ensures live == old(live) - {id}
      ensures log == old(log) + [Unsubscribed(id)]
    {
      live := live - {id};
      log := log + [Unsubscribed(id)];
    }

    /** g_dbus_connection_emit_signal: true when the signal was sent. */
    method Emit(frame: Frame) returns (ok: bool)
      modifies this
      ensures ok == accepts(frame)
      ensures log == old(log) + [Emitted(frame, ok)]
      ensures live == old(live) && nextId == old(nextId)
    {
      ok := accepts(frame);
      log := log + [Emitted(frame, ok)];
    }
  }
}
