/** DBusSignalSubscription: the registry of D-Bus signal subscriptions one
    object holds, keyed by signal name, and its teardown. */
module Subscription {
  import opened CStrings
  import opened StringOrder
  import opened Bus

  /** Signal name to subscription id (a guint); 0 means "no subscription". */
  type IdMap = map<string, nat>

  /** `m[name]` on a std::map: the stored id, or 0 for a name not yet in
      the map, which `operator[]` then inserts with the value 0. */
  function Index(m: IdMap, name: string): (r: (nat, IdMap))
    ensures name in r.1 && r.0 == r.1[name]
    ensures r.1.Keys == m.Keys + {name}
    ensures forall k :: k in m ==> r.1[k] == m[k]
    ensures name !in m ==> r.0 == 0
  {
    if name in m then (m[name], m) else (0, m[name := 0])
  }

  /** The match rule Subscribe registers: each of the four strings is
      passed through string2C_char, so an empty one becomes NULL. */
  function SubscribeRule(busname: string, iface: string, objpath: string, signalName: string): (r: MatchRule)
    ensures r.sender == None <==> busname == ""
    ensures r.iface == None <==> iface == ""
    ensures r.member == None <==> signalName == ""
    ensures r.path == None <==> objpath == ""
    ensures '\0' !in busname + iface + objpath + signalName ==>
              && CCharToString(r.sender) == busname
              && CCharToString(r.iface) == iface
              && CCharToString(r.member) == signalName
              && CCharToString(r.path) == objpath
  {
    MatchRule(StringToCChar(busname), StringToCChar(iface), StringToCChar(signalName), StringToCChar(objpath))
  }

  /** Names `k` and `j` of `m` do not share a positive id. */
  ghost predicate DistinctIds(m: IdMap, k: string, j: string)
  {
    k in m && j in m && k != j && m[k] > 0 ==> m[k] != m[j]
  }

  /** The ids in `m` are ones the bus still holds, and no two names share one. */
  ghost predicate Tracked(m: IdMap, live: set<nat>)
  {
    && (forall k :: k in m && m[k] > 0 ==> m[k] in live)
    && (forall k, j :: DistinctIds(m, k, j))
  }

  /** Storing what the bus has just returned, a fresh positive id or the 0
      of a refused subscription, keeps the map tracked by the new live set,
      even over an earlier id under the same name. */
  lemma TrackedAfterSubscribe(m: IdMap, live: set<nat>, name: string, id: nat)
    requires Tracked(m, live) && id !in live
    ensures Tracked(m[name := id], if id > 0 then live + {id} else live)
  {
    var m' := m[name := id];
    forall k, j
      ensures DistinctIds(m', k, j)
    {
      assert DistinctIds(m, k, j);
    }
  }

  /** Setting the entry of `name` to 0 and releasing the id it held keeps the
      map tracked. */
  lemma TrackedAfterRelease(m: IdMap, live: set<nat>, name: string)
    requires Tracked(m, live)
    ensures Tracked(m[name := 0], live - (if name in m && m[name] > 0 then {m[name]} else {}))
  {
    var m' := m[name := 0];
    forall k | k in m' && m'[k] > 0
      ensures m'[k] != (if name in m && m[name] > 0 then m[name] else 0)
    {
      assert DistinctIds(m, k, name);
    }
    forall k, j
      ensures DistinctIds(m', k, j)
    {
      assert DistinctIds(m, k, j);
    }
  }

  /** The positive ids stored in `m`. */
  ghost function PositiveIds(m: IdMap): set<nat>
  {
    set k | k in m && m[k] > 0 :: m[k]
  }

  /** The unsubscribe calls Cleanup makes while visiting the names `ks` in
      turn: one per positive id, none for a 0 entry. */
  function Releases(ks: seq<string>, m: IdMap): seq<Call>
    decreases |ks|
  {
    if ks == [] then []
    else
      var last := ks[|ks| - 1];
      Releases(ks[..|ks| - 1], m) + (if last in m && m[last] > 0 then [Unsubscribed(m[last])] else [])
  }

  /** Every call in Releases(ks, m) releases the positive id of a name in `ks`. */
  lemma {:induction false} ReleasesSound(ks: seq<string>, m: IdMap)
    ensures forall c :: c in Releases(ks, m) ==>
      c.Unsubscribed? && c.id > 0 && exists k :: k in ks && k in m && m[k] == c.id
    decreases |ks|
  {
    if ks != [] {
      ReleasesSound(ks[..|ks| - 1], m);
    }
  }

  /** Releases(ks, m) releases the id of every name in `ks` whose id is positive. */
  lemma {:induction false} ReleasesComplete(ks: seq<string>, m: IdMap)
    ensures forall k :: k in ks && k in m && m[k] > 0 ==> Unsubscribed(m[k]) in Releases(ks, m)
    decreases |ks|
  {
    if ks != [] {
      var init := ks[..|ks| - 1];
      ReleasesComplete(init, m);
      forall k | k in ks && k in m && m[k] > 0
        ensures Unsubscribed(m[k]) in Releases(ks, m)
      {
        if k != ks[|ks| - 1] {
          assert k in init by {
            var i :| 0 <= i < |ks| && ks[i] == k;
            assert init[i] == k;
          }
        }
      }
    }
  }

  /** Visiting names that are pairwise distinct, with no id stored twice,
      releases no id twice. */
  lemma {:induction false} ReleasesDistinct(ks: seq<string>, m: IdMap)
    requires forall i, j :: 0 <= i < j < |ks| ==> ks[i] != ks[j]
    requires forall k, j :: DistinctIds(m, k, j)
    ensures forall i, j :: 0 <= i < j < |Releases(ks, m)| ==> Releases(ks, m)[i] != Releases(ks, m)[j]
    decreases |ks|
  {
    if ks != [] {
      var init, last := ks[..|ks| - 1], ks[|ks| - 1];
      ReleasesDistinct(init, m);
      ReleasesSound(init, m);
      var before := Releases(init, m);
      if last in m && m[last] > 0 {
        forall i | 0 <= i < |before|
          ensures before[i] != Unsubscribed(m[last])
        {
          assert before[i] in before;
          var k :| k in init && k in m && m[k] == before[i].id;
          assert k != last by {
            var a :| 0 <= a < |init| && init[a] == k;
            assert ks[a] == k;
          }
          assert DistinctIds(m, k, last);
        }
      }
    }
  }

  /** The unsubscribe calls of a Cleanup over a tracked map release every
      stored positive id exactly once, each of them still held by the bus,
      and release nothing else. */
  lemma CleanupReleasesEachIdOnce(m: IdMap, live: set<nat>)
    requires Tracked(m, live)
    ensures var r := Releases(Ascending(m.Keys), m);
      && (forall i, j :: 0 <= i < j < |r| ==> r[i] != r[j])
      && (forall c :: c in r ==> c.Unsubscribed? && c.id in live && c.id in PositiveIds(m))
      && (forall id :: id in PositiveIds(m) ==> Unsubscribed(id) in r)
  {
    var ks := Ascending(m.Keys);
    AscendingKeys(m.Keys);
    AscendingDistinct(m.Keys);
    ReleasesDistinct(ks, m);
    ReleasesSound(ks, m);
    ReleasesComplete(ks, m);
    var r := Releases(ks, m);
    forall c | c in r
      ensures c.id in live && c.id in PositiveIds(m)
    {
      var k :| k in ks && k in m && m[k] == c.id;
    }
  }

  /** What remains of the bus's `live` ids once the names `ks` have been
      visited, releasing each positive id in turn. */
  ghost function Remaining(live: set<nat>, ks: seq<string>, m: IdMap): set<nat>
    decreases |ks|
  {
    if ks == [] then live
    else
      var last := ks[|ks| - 1];
      Remaining(live, ks[..|ks| - 1], m) - (if last in m && m[last] > 0 then {m[last]} else {})
  }

  /** Visiting `ks` removes exactly the positive ids of the names in `ks`. */
  lemma {:induction false} RemainingIs(live: set<nat>, ks: seq<string>, m: IdMap)
    ensures Remaining(live, ks, m) == live - set k | k in ks && k in m && m[k] > 0 :: m[k]
    decreases |ks|
  {
    if ks != [] {
      var init, last := ks[..|ks| - 1], ks[|ks| - 1];
      RemainingIs(live, init, m);
      assert ks == init + [last];
    }
  }

  /** `m` with the entries of the names `ks` set to 0, one name after the
      other: the map part-way through Cleanup's loop, once it has visited `ks`. */
  function ZeroedUpTo(m: IdMap, ks: seq<string>): (r: IdMap)
    ensures r.Keys == m.Keys
    decreases |ks|
  {
    if ks == [] then m
    else
      var last := ks[|ks| - 1];
      var r := ZeroedUpTo(m, ks[..|ks| - 1]);
      if last in r then r[last := 0] else r
  }

  /** After visiting `ks`, a visited name of `m` holds 0 and any other its
      original id. */
  lemma {:induction false} ZeroedUpToIs(m: IdMap, ks: seq<string>)
    ensures forall k :: k in m ==> ZeroedUpTo(m, ks)[k] == if k in ks then 0 else m[k]
    decreases |ks|
  {
    if ks != [] {
      var init, last := ks[..|ks| - 1], ks[|ks| - 1];
      ZeroedUpToIs(m, init);
      assert ks == init + [last];
    }
  }

  /** Visiting one more name `k` of `m` zeroes its entry and adds its call
      and its id to the releases. */
  lemma VisitStep(m: IdMap, ks: seq<string>, k: string, live: set<nat>)
    requires k in m
    ensures ZeroedUpTo(m, ks + [k]) == ZeroedUpTo(m, ks)[k := 0]
    ensures Releases(ks + [k], m) == Releases(ks, m) + (if m[k] > 0 then [Unsubscribed(m[k])] else [])
    ensures Remaining(live, ks + [k], m) == Remaining(live, ks, m) - (if m[k] > 0 then {m[k]} else {})
  {
    assert (ks + [k])[..|ks|] == ks;
  }

  /** A name not yet visited still holds its original id. */
  lemma {:induction false} Unvisited(m: IdMap, ks: seq<string>, k: string)
    requires k in m && k !in ks
    ensures ZeroedUpTo(m, ks)[k] == m[k]
    decreases |ks|
  {
    if ks != [] {
      var init := ks[..|ks| - 1];
      assert ks == init + [ks[|ks| - 1]];
      Unvisited(m, init, k);
    }
  }

  /** The names of `m` in ascending order, as the Cleanup loop visits them:
      the `i`th is in `m` and still holds its original id when it is reached. */
  lemma CleanupStep(m: IdMap, i: nat)
    requires i < |Ascending(m.Keys)|
    ensures var keys := Ascending(m.Keys);
      && keys[i] in m
      && ZeroedUpTo(m, keys[..i])[keys[i]] == m[keys[i]]
      && keys[..i + 1] == keys[..i] + [keys[i]]
  {
    var keys := Ascending(m.Keys);
    AscendingKeys(m.Keys);
    assert keys[i] in keys;
    AscendingFresh(m.Keys, i);
    Unvisited(m, keys[..i], keys[i]);
    assert keys[..i + 1] == keys[..i] + [keys[i]];
  }

  /** No name comes up twice in the ascending order. */
  lemma AscendingFresh(s: set<string>, i: nat)
    requires i < |Ascending(s)|
    ensures Ascending(s)[i] !in Ascending(s)[..i]
  {
    AscendingDistinct(s);
  }

  /** Once the loop has visited every name of `m`, every entry is 0 and the
      released ids are exactly the positive ones. */
  lemma CleanupEnd(m: IdMap, live: set<nat>)
    ensures var keys := Ascending(m.Keys);
      && keys[..|keys|] == keys
      && ZeroedUpTo(m, keys) == Zeroed(m)
      && Remaining(live, keys, m) == live - PositiveIds(m)
  {
    var keys := Ascending(m.Keys);
    assert keys[..|keys|] == keys;
    AllVisited(m, keys);
    RemainingIs(live, keys, m);
    AllReleased(m, keys);
  }

  /** Visiting every name of `m` zeroes every entry. */
  lemma AllVisited(m: IdMap, keys: seq<string>)
    requires keys == Ascending(m.Keys)
    ensures ZeroedUpTo(m, keys) == Zeroed(m)
  {
    AscendingKeys(m.Keys);
    ZeroedUpToIs(m, keys);
  }

  /** Visiting every name of `m` releases exactly its positive ids. */
  lemma AllReleased(m: IdMap, keys: seq<string>)
    requires keys == Ascending(m.Keys)
    ensures (set k | k in keys && k in m && m[k] > 0 :: m[k]) == PositiveIds(m)
  {
    AscendingKeys(m.Keys);
  }

  /** Every entry of `m` set to 0, no key added or removed. */
  function Zeroed(m: IdMap): (r: IdMap)
    ensures r.Keys == m.Keys
    ensures forall k :: k in r ==> r[k] == 0
  {
    map k | k in m :: 0
  }

  class DBusSignalSubscription {
    const conn: Connection
    const busName: string
    const iface: string
    const objectPath: string
    var subscriptions: IdMap
    var subscribed: bool

    /** Every stored id is one the bus still holds, under one name only; and
        while `subscribed` is false every entry is 0, so the guard in
        Cleanup never skips a live subscription. */
    ghost predicate Valid()
      reads this, conn
    {
      && conn.Valid()
      && Tracked(subscriptions, conn.live)
      && (!subscribed ==> forall k :: k in subscriptions ==> subscriptions[k] == 0)
    }

    /** The constructors taking (busname, interf, objpath). The source never
        initialises `subscribed`; this model starts it at false. */
    constructor (conn: Connection, busname: string, interf: string, objpath: string)
      requires conn.Valid()
      ensures Valid()
      ensures this.conn == conn && busName == busname && iface == interf && objectPath == objpath
      ensures subscriptions == map[] && !subscribed
    {
      this.conn := conn;
      busName := busname;
      iface := interf;
      objectPath := objpath;
      subscriptions := map[];
      subscribed := false;
    }

    /** The constructors taking only the interface: the bus name and the
        object path stay empty. */
    constructor ForInterface(conn: Connection, interf: string)
      requires conn.Valid()
      ensures Valid()
      ensures this.conn == conn && busName == "" && iface == interf && objectPath == ""
      ensures subscriptions == map[] && !subscribed
    {
      this.conn := conn;
      busName := "";
      iface := interf;
      objectPath := "";
      subscriptions := map[];
      subscribed := false;
    }

    /** The constructors that also take a signal name and subscribe to it
        straight away, with the stored bus name and object path. */
    constructor Subscribing(conn: Connection, busname: string, interf: string, objpath: string, signame: string)
      requires conn.Valid()
      modifies conn
      ensures Valid()
      ensures this.conn == conn && busName == busname && iface == interf && objectPath == objpath
      ensures subscribed && signame in subscriptions
      ensures subscriptions == map[signame := subscriptions[signame]]
      ensures var rule, id := SubscribeRule(busname, interf, objpath, signame), subscriptions[signame];
        && (id == 0 <==> !conn.grants(rule))
        && (id > 0 ==> id !in old(conn.live) && conn.live == old(conn.live) + {id})
        && (id == 0 ==> conn.live == old(conn.live))
        && conn.log == old(conn.log) + [Subscribed(rule, id)]
    {
      this.conn := conn;
      busName := busname;
      iface := interf;
      objectPath := objpath;
      subscriptions := map[];
      subscribed := false;
      new;
      SubscribeSignal(signame);
    }

    /** The effect of Subscribe(busname, objpath, signalName): one subscribe
        call with the stored interface; whatever the bus returns, a fresh id
        or the 0 of a refusal, is stored under the name (overwriting, without
        releasing, an earlier id) and the flag is set, with no error either
        way. */
    twostate predicate SubscribedAs(busname: string, objpath: string, signalName: string)
      reads this, conn
    {
      && signalName in subscriptions
      && var rule, id := SubscribeRule(busname, iface, objpath, signalName), subscriptions[signalName];
      && (id == 0 <==> !conn.grants(rule))
      && (id > 0 ==> id !in old(conn.live) && conn.live == old(conn.live) + {id})
      && (id == 0 ==> conn.live == old(conn.live))
      && conn.log == old(conn.log) + [Subscribed(rule, id)]
      && subscriptions == old(subscriptions)[signalName := id]
      && subscribed
    }

    method Subscribe(busname: string, objpath: string, signalName: string)
      requires Valid()
      modifies this, conn
      ensures Valid()
      ensures SubscribedAs(busname, objpath, signalName)
    {
      var id := conn.Subscribe(SubscribeRule(busname, iface, objpath, signalName));
      // The source checks `signal_id < 0` here, which an unsigned guint
      // never satisfies: a refused subscription's 0 is stored like any id.
      TrackedAfterSubscribe(subscriptions, old(conn.live), signalName, id);
      subscriptions := subscriptions[signalName := id];
      subscribed := true;
    }

    /** Subscribe(objpath, signal_name): the stored bus name. */
    method SubscribePath(objpath: string, signalName: string)
      requires Valid()
      modifies this, conn
      ensures Valid()
      ensures SubscribedAs(busName, objpath, signalName)
    {
      Subscribe(busName, objpath, signalName);
    }

    /** Subscribe(signal_name): the stored bus name and object path. */
    method SubscribeSignal(signalName: string)
      requires Valid()
      modifies this, conn
      ensures Valid()
      ensures SubscribedAs(busName, objectPath, signalName)
    {
      SubscribePath(objectPath, signalName);
    }

    /** Releases the id stored under `signalName` if it is positive and sets
        it to 0; otherwise no bus call. Either way `operator[]` leaves the
        name in the map. */
    method Unsubscribe(signalName: string)
      requires Valid()
      modifies this`subscriptions, conn
      ensures Valid()
      ensures conn.nextId == old(conn.nextId)
      ensures var (id, m) := Index(old(subscriptions), signalName);
        && (id > 0 ==>
              && id in old(conn.live)
              && conn.log == old(conn.log) + [Unsubscribed(id)]
              && conn.live == old(conn.live) - {id}
              && subscriptions == m[signalName := 0])
        && (id == 0 ==>
              && conn.log == old(conn.log)
              && conn.live == old(conn.live)
              && subscriptions == m)
    {
      TrackedAfterRelease(subscriptions, conn.live, signalName);
      var (id, m) := Index(subscriptions, signalName);
      subscriptions := m;
      if id > 0 {
        conn.Unsubscribe(id);
        subscriptions := subscriptions[signalName := 0];
      }
    }

    /** The stored id, 0 for a name never subscribed; no bus call, and the
        only change to the map is `operator[]` inserting that 0. */
    method GetSignalId(signalName: string) returns (id: nat)
      requires Valid()
      modifies this`subscriptions
      ensures Valid()
      ensures id == (if signalName in old(subscriptions) then old(subscriptions)[signalName] else 0)
      ensures subscriptions == old(subscriptions)[signalName := id]
    {
      TrackedAfterRelease(subscriptions, conn.live, signalName);
      var r := Index(subscriptions, signalName);
      id, subscriptions := r.0, r.1;
    }

    /** One round of Cleanup's loop: releases the id stored under `k` if it
        is positive, and sets the entry to 0. */
    method Visit(m: IdMap, k: string) returns (m': IdMap)
      requires k in m
      modifies conn
      ensures conn.nextId == old(conn.nextId)
      ensures m' == m[k := 0]
      ensures conn.log == old(conn.log) + (if m[k] > 0 then [Unsubscribed(m[k])] else [])
      ensures conn.live == old(conn.live) - (if m[k] > 0 then {m[k]} else {})
    {
      if m[k] > 0 {
        conn.Unsubscribe(m[k]);
      }
      m' := m[k := 0];
    }

    /** When subscribed: releases every positive id in ascending order of
        signal name, sets every entry to 0 keeping the keys, and clears the
        flag. When not subscribed: does nothing, so a second Cleanup in a
        row makes no bus call. */
    method Cleanup()
      requires Valid()
      modifies this`subscriptions, this`subscribed, conn
      ensures Valid() && !subscribed
      ensures conn.nextId == old(conn.nextId)
      ensures !old(subscribed) ==>
        && subscriptions == old(subscriptions)
        && conn.log == old(conn.log)
        && conn.live == old(conn.live)
      ensures old(subscribed) ==>
        && subscriptions == Zeroed(old(subscriptions))
        && conn.log == old(conn.log) + Releases(Ascending(old(subscriptions).Keys), old(subscriptions))
        && conn.live == old(conn.live) - PositiveIds(old(subscriptions))
    {
      if !subscribed {
        return;
      }
      ghost var m0 := subscriptions;
      var keys := Ascending(subscriptions.Keys);
      var m := subscriptions;
      for i := 0 to |keys|
        invariant conn.nextId == old(conn.nextId)
        invariant m == ZeroedUpTo(m0, keys[..i])
        invariant conn.log == old(conn.log) + Releases(keys[..i], m0)
        invariant conn.live == Remaining(old(conn.live), keys[..i], m0)
      {
        var k := keys[i];
        CleanupStep(m0, i);
        VisitStep(m0, keys[..i], k, old(conn.live));
        m := Visit(m, k);
      }
      CleanupEnd(m0, old(conn.live));
      subscriptions := m;
      subscribed := false;
    }
  }
}
