# D-Bus signal subscription and emission (OpenVPN 3 Linux, `signals.hpp`)

This project models the layer of the OpenVPN 3 Linux client that subscribes
to D-Bus signals and emits them through GLib's GDBus API:

- `string2C_char` / `C_char2string`, the empty-string / NULL convention used
  whenever a `std::string` is handed to GLib as a `const char *`
  (`cstrings.dfy`);
- `DBusSignalSubscription`, an object holding a `std::map` from signal name
  to subscription id, with the three `Subscribe` overloads, `Unsubscribe`,
  `GetSignalId` and `Cleanup` (`subscription.dfy`);
- `DBusSignalProducer`, a fixed sender address (bus name, interface, object
  path) checked by `validate_params`, and the seven `Send` overloads that
  fill in whatever the caller leaves out from that address (`producer.dfy`).

The GDBus connection is not part of this model; `bus.dfy` stands in for it.
A `grants` oracle decides whether a subscription is accepted. It stands in
for GLib's checks of the names in the match rule: GLib returns the id 0 for
a rule it refuses. Accepted subscriptions get fresh, positive ids from a
counter. An `accepts` oracle decides whether an emission succeeds; it
replaces the `GError` outcome. Both oracles are fixed when the connection is
made. The connection keeps a ghost log
of every call it receives and a ghost set of the ids still subscribed. The
contracts state exactly which bus calls each operation makes, in which order
and with which arguments.

`string_order.dfy` models `operator<` on `std::string`. It also builds the
ascending key order in which a `std::map<std::string, guint>` is iterated,
which fixes the order of Cleanup's unsubscribe calls.

Notes on how the model reads the code:

- A C string is `Option<string>`: `None` is NULL. Every reader of a C string
  stops at the first NUL character, so a `std::string` holding a NUL does not
  come back whole from a round trip. `CCharRoundTrip` shows that it comes
  back exactly when it has no NUL.
- `subscriptions[name]` is `std::map::operator[]`. It inserts a 0 entry for
  a name not yet in the map, and the model keeps that. So `GetSignalId` and
  `Unsubscribe` on an unknown name grow the map.
- `Cleanup` sets entries to 0 but never erases them. A second `Subscribe`
  under the same name overwrites the stored id without releasing it (the old
  subscription stays live on the bus); `SubscribedAs` states this.
- The constructors never initialise `subscribed`, so reading it is
  undefined behaviour. The model starts it at `false`, as an explicit
  assumption. Had it read `true`, no bus behaviour would differ: a fresh
  map is empty, and without a `Subscribe` names only gain 0 entries, so
  `Cleanup` would make no call either way.
- `Subscribe` tests `signal_id < 0` on an unsigned `guint`, a test that is
  never true. So a refused subscription is not reported: its 0 is stored
  under the name and `subscribed` is set, as for an accepted one.
- The two `DBusSignalProducer` constructors, which take a `DBus` by value
  or a `GDBusConnection *`, both store the address and then call `validate_params`.
  Each is modelled by `Create`, which returns a failure instead of throwing.
  The producer's fields never change after construction, so they are
  `const`. Dafny has no overloading, so each `Send` overload has its own
  name.

## Model

| member | source | states |
|---|---|---|
| `CStrings.UpToNul` | src/dbus/signals.hpp:33-36 | what a C reader sees of a string: a NUL-free prefix of it, all of it when it holds no NUL, and otherwise stopping exactly at the first NUL |
| `CStrings.StringToCChar` | src/dbus/signals.hpp:27-30 | the result is NULL exactly for the empty string; otherwise it points at the characters a C reader sees |
| `CStrings.CCharToString` | src/dbus/signals.hpp:33-36 | NULL gives the empty string; a pointer gives its characters up to the terminating NUL |
| `CStrings.CCharRoundTrip` | src/dbus/signals.hpp:27-36 | `C_char2string(string2C_char(s)) == s` holds exactly when `s` contains no NUL, the empty string included |
| `CStrings.StringRoundTrip` | src/dbus/signals.hpp:27-36 | for a NUL-free C string, `string2C_char(C_char2string(p)) == p` holds exactly when `p` is not a non-NULL empty string, which comes back as NULL |
| `StringOrder.BelowIrreflexive` | src/dbus/signals.hpp:235 | no key of the map is ordered before itself under `std::string`'s `operator<` |
| `StringOrder.BelowTransitive` | src/dbus/signals.hpp:235 | the key order is transitive |
| `StringOrder.BelowTotal` | src/dbus/signals.hpp:235 | any two different keys are ordered one way or the other, so the map's order is a strict total order |
| `StringOrder.AscendingKeys` | src/dbus/signals.hpp:193 | the keys a `std::map` iteration visits are exactly the keys of the map |
| `StringOrder.AscendingDistinct` | src/dbus/signals.hpp:193 | the iteration visits no key twice |
| `StringOrder.AscendingSorted` | src/dbus/signals.hpp:193 | the iteration visits the keys in strictly increasing `std::string` order |
| `Bus.Connection.Subscribe` | src/dbus/signals.hpp:137-146 | g_dbus_connection_signal_subscribe returns 0 exactly when the bus refuses the rule, leaving the live set alone; otherwise it returns a positive id not live before and adds it to the live set; either way it logs the rule with the id |
| `Bus.Connection.Unsubscribe` | src/dbus/signals.hpp:175 | g_dbus_connection_signal_unsubscribe removes the id from the live set and logs the call |
| `Bus.Connection.Emit` | src/dbus/signals.hpp:285-291 | g_dbus_connection_emit_signal succeeds exactly when the bus accepts the frame, logs it with its outcome and leaves subscriptions alone |
| `Subscription.Index` | src/dbus/signals.hpp:181-184 | `operator[]` returns the stored id or 0, leaves the name in the map, keeps every other entry, and adds nothing but the name |
| `Subscription.SubscribeRule` | src/dbus/signals.hpp:137-141 | each of sender, interface, member and path is NULL exactly when its string is empty, and reads back as that string when none holds a NUL |
| `Subscription.TrackedAfterSubscribe` | src/dbus/signals.hpp:154 | storing what the bus returned, a fresh id or a refusal's 0, keeps every stored id live and unique, even when it overwrites an earlier id |
| `Subscription.TrackedAfterRelease` | src/dbus/signals.hpp:173-177 | zeroing an entry and releasing its id keeps every other stored id live and unique |
| `Subscription.DBusSignalSubscription.constructor` | src/dbus/signals.hpp:54-63 | stores the connection, bus name, interface and object path; no subscriptions, not subscribed |
| `Subscription.DBusSignalSubscription.ForInterface` | src/dbus/signals.hpp:46-51 | stores the connection and the interface with an empty bus name and object path; no subscriptions |
| `Subscription.DBusSignalSubscription.Subscribing` | src/dbus/signals.hpp:86-111 | stores the address, then subscribes once to the signal: one subscribe call, whose result (a fresh id, or 0 when refused) is the only entry; subscribed either way |
| `Subscription.DBusSignalSubscription.Subscribe` | src/dbus/signals.hpp:135-156 | one subscribe call with the stored interface and the given bus name, path and signal; its result, a fresh id or 0 when the bus refuses, is stored under the name, overwriting without releasing; the flag is set and no error is raised in either case |
| `Subscription.DBusSignalSubscription.SubscribePath` | src/dbus/signals.hpp:159-162 | as Subscribe, with the stored bus name |
| `Subscription.DBusSignalSubscription.SubscribeSignal` | src/dbus/signals.hpp:165-168 | as Subscribe, with the stored bus name and object path |
| `Subscription.DBusSignalSubscription.Unsubscribe` | src/dbus/signals.hpp:171-178 | a positive stored id, which is live, is released with one unsubscribe call and its entry set to 0; otherwise there is no bus call and the map only gains a 0 entry for an unknown name |
| `Subscription.DBusSignalSubscription.GetSignalId` | src/dbus/signals.hpp:181-184 | returns the stored id, or 0 for an unknown name, which is inserted with 0; no bus call |
| `Subscription.DBusSignalSubscription.Visit` | src/dbus/signals.hpp:195-199 | one round of Cleanup's loop: unsubscribes a positive id, no call for 0, and the entry becomes 0 |
| `Subscription.DBusSignalSubscription.Cleanup` | src/dbus/signals.hpp:187-202 | when subscribed, unsubscribes the positive ids in ascending order of signal name, zeroes every entry keeping the keys, removes exactly those ids from the live set and clears the flag; when not subscribed, changes nothing |
| `Subscription.ReleasesSound` | src/dbus/signals.hpp:193-198 | every unsubscribe call of the loop releases the positive id of a visited name |
| `Subscription.ReleasesComplete` | src/dbus/signals.hpp:193-198 | the loop releases the id of every visited name whose id is positive |
| `Subscription.ReleasesDistinct` | src/dbus/signals.hpp:193-198 | over distinct names with no id stored twice, the loop releases no id twice |
| `Subscription.CleanupReleasesEachIdOnce` | src/dbus/signals.hpp:187-202 | Cleanup releases every stored positive id exactly once, each still live on the bus, and nothing else |
| `Subscription.ZeroedUpToIs` | src/dbus/signals.hpp:199 | part-way through the loop, a visited name holds 0 and every other name its original id |
| `Subscription.RemainingIs` | src/dbus/signals.hpp:197 | the loop removes from the live set exactly the positive ids of the visited names |
| `Producer.ValidateParams` | src/dbus/signals.hpp:345-354 | passes exactly when interface and object path are both non-empty; an empty interface is reported first, then an empty object path |
| `Producer.EmitFrame` | src/dbus/signals.hpp:285-290 | destination, interface and path are NULL exactly when empty; the member name is never NULL; the payload is passed through; all read back as given when free of NUL |
| `Producer.StoredAddressIsComplete` | src/dbus/signals.hpp:345-354 | a validated address always emits a non-NULL interface and object path, equal to the stored ones when they hold no NUL |
| `Producer.DBusSignalProducer.constructor` | src/dbus/signals.hpp:244-254 | stores an address that passes validate_params, so every producer is valid |
| `Producer.DBusSignalProducer.Create` | src/dbus/signals.hpp:244-267 | fails, with validate_params' error, exactly when validation fails; otherwise a fresh, valid producer holding the given address |
| `Producer.DBusSignalProducer.Send` | src/dbus/signals.hpp:270-302 | one emit call with the frame built from the arguments; fails, naming the signal, exactly when the bus refuses it |
| `Producer.DBusSignalProducer.SendToBus` | src/dbus/signals.hpp:305-311 | as Send, with the stored object path |
| `Producer.DBusSignalProducer.SendToBusNoParams` | src/dbus/signals.hpp:314-317 | as Send, with the stored object path and no payload |
| `Producer.DBusSignalProducer.SendOnInterface` | src/dbus/signals.hpp:320-323 | as Send, with the stored bus name and object path |
| `Producer.DBusSignalProducer.SendOnInterfaceNoParams` | src/dbus/signals.hpp:326-329 | as Send, with the stored bus name and object path and no payload |
| `Producer.DBusSignalProducer.SendSignal` | src/dbus/signals.hpp:332-335 | as Send, with the whole stored address |
| `Producer.DBusSignalProducer.SendSignalNoParams` | src/dbus/signals.hpp:338-341 | as Send, with the whole stored address and no payload |

## Left out

- The constructors taking a `GDBusConnection *` (lines 66-83, 100-111) are modelled by the same members as those taking a `DBus &`; only the connection's origin differs.
- The destructor (lines 114-122) only calls `Cleanup`; Dafny has no destructors.
- `callback_signal_handler` and the static trampoline `dbusobject_callback_signal_handler` (lines 124-132, 212-227): signal delivery runs from GLib's main loop into a pure virtual method of a subclass, which is outside this model.
- `GetConnection` (lines 206-209) is a plain accessor; the model exposes `conn` as a field.
- The text of the DBusException messages (lines 149-152, 293-300, 348, 352): the model carries which error occurred and the signal name, not the formatted message or the `GError` message.
- `CStrings.StringToCChar`: the source returns `c_str()` of its by-value parameter, a pointer that dangles once the function returns; the model gives the intended mapping.
- `Bus.Connection.Subscribe`: subscription ids are unbounded naturals; the 32-bit width of `guint` and GLib's own id allocation are not modelled.
- The `signal_name` field of `DBusSignalProducer` (line 362) is never used and has no counterpart.
- `Bus.Connection.Subscribe`: whether a rule is refused depends on the rule alone, through a fixed oracle; GLib's actual name-validity checks are not spelled out.
- `Bus.Connection.Emit`: whether an emission succeeds is a fixed function of the frame, so a refused frame is refused on every attempt. GLib does not promise this, but no contract here relies on it.
- `std::string` is modelled as Dafny's `string`, a sequence of Unicode characters. `std::string` compares unsigned bytes, and that order agrees with the code-point order of `StringOrder.Below` only for valid UTF-8.
- `Subscription.DBusSignalSubscription.Valid`: the invariant is stated for one registry per connection. Two registries sharing one `Connection` cannot be proved valid together after one of them unsubscribes, because the model does not record which registry owns which id; GLib's ids are unique across the process, so in the source they never clash.
- The `DBus` object copied into the `DBusSignalProducer` constructor (line 244) is used only for its connection; the copy's lifetime is not modelled.
- Concurrency: GLib may call back from other threads; every operation here runs to completion alone.
