/** The data-refresh registry: for each kind of data the pages show, the time
    it was last invalidated. The registry exists so that a page can re-fetch
    when its kind's timestamp moves; the pages that would read it are not
    modelled.
    Timestamps are the milliseconds `Date.now()` returns; every reading of the
    clock is a parameter here. */
module DataRefresh {

  type Timestamps = map<string, int>

  /** The eight kinds of data, in the order the initial map lists them. */
  const DataTypes: seq<string> :=
    ["purchaseOrders", "procurement", "payments", "logistics",
     "inventory", "invoices", "dashboard", "reports"]

  const DataTypeSet: set<string> := set t | t in DataTypes

  /** The map the provider starts with; `readings[i]` is the i-th of its eight
      `Date.now()` calls. */
  function InitialTimestamps(readings: seq<int>): (m: Timestamps)
    requires |readings| == |DataTypes|
    ensures m.Keys == DataTypeSet
    ensures forall i :: 0 <= i < |DataTypes| ==> m[DataTypes[i]] == readings[i]
  {
    map["purchaseOrders" := readings[0], "procurement" := readings[1],
        "payments" := readings[2], "logistics" := readings[3],
        "inventory" := readings[4], "invoices" := readings[5],
        "dashboard" := readings[6], "reports" := readings[7]]
  }

  /** One step of the `forEach`: a name that is already a key gets `now`;
      any other name is ignored. */
  function StampOne(m: Timestamps, t: string, now: int): (r: Timestamps)
    ensures r.Keys == m.Keys
    ensures forall k :: k in m ==> r[k] == if k == t then now else m[k]
  {
    if t in m then m[t := now] else m
  }

  /** The map `triggerRefresh(types)` leaves: the steps applied in list order. */
  function Stamp(m: Timestamps, types: seq<string>, now: int): (r: Timestamps)
    ensures r.Keys == m.Keys
    decreases |types|
  {
    if types == [] then m else Stamp(StampOne(m, types[0], now), types[1..], now)
  }

  /** Stamping never adds or drops a key; a key holds `now` exactly when it is
      named, and otherwise keeps its previous value. */
  lemma {:induction false} StampFrame(m: Timestamps, types: seq<string>, now: int)
    ensures Stamp(m, types, now).Keys == m.Keys
    ensures forall k :: k in m ==> Stamp(m, types, now)[k] == if k in types then now else m[k]
    decreases |types|
  {
    if types != [] {
      var m1 := StampOne(m, types[0], now);
      StampFrame(m1, types[1..], now);
      forall k | k in m
        ensures Stamp(m, types, now)[k] == if k in types then now else m[k]
      {
        assert k in types <==> k == types[0] || k in types[1..];
      }
    }
  }

  /** Refreshing in two calls is refreshing once with both lists. */
  lemma {:induction false} StampAppend(m: Timestamps, a: seq<string>, b: seq<string>, now: int)
    ensures Stamp(m, a + b, now) == Stamp(Stamp(m, a, now), b, now)
    decreases |a|
  {
    if a == [] {
      assert a + b == b;
    } else {
      assert (a + b)[1..] == a[1..] + b;
      StampAppend(StampOne(m, a[0], now), a[1..], b, now);
    }
  }

  /** Only which names are listed matters: order and repetition do not. */
  lemma StampSameNames(m: Timestamps, t1: seq<string>, t2: seq<string>, now: int)
    requires forall x :: x in t1 <==> x in t2
    ensures Stamp(m, t1, now) == Stamp(m, t2, now)
  {
    StampFrame(m, t1, now);
    StampFrame(m, t2, now);
  }

  /** A name listed twice has no extra effect. */
  lemma StampDuplicates(m: Timestamps, types: seq<string>, now: int)
    ensures Stamp(m, types + types, now) == Stamp(m, types, now)
  {
    StampSameNames(m, types + types, types, now);
  }

  /** Refreshing the same names at the same instant twice is refreshing once. */
  lemma StampIdempotent(m: Timestamps, types: seq<string>, now: int)
    ensures Stamp(Stamp(m, types, now), types, now) == Stamp(m, types, now)
  {
    StampAppend(m, types, types, now);
    StampDuplicates(m, types, now);
  }

  /** `triggerGlobalRefresh`: a fresh map with every kind stamped `now`. */
  function GlobalRefresh(now: int): (m: Timestamps)
    ensures m.Keys == DataTypeSet
    ensures forall k :: k in m ==> m[k] == now
  {
    map["purchaseOrders" := now, "procurement" := now, "payments" := now,
        "logistics" := now, "inventory" := now, "invoices" := now,
        "dashboard" := now, "reports" := now]
  }

  /** The lists the six `refreshAfter*` helpers pass to `triggerRefresh`. */
  function AfterPOChange(): (types: seq<string>)
    ensures forall t :: t in types <==> t in DataTypeSet
  {
    ["purchaseOrders", "procurement", "payments", "logistics", "inventory", "invoices", "dashboard", "reports"]
  }

  function AfterProcurementChange(): (types: seq<string>)
    ensures "procurement" in types && "inventory" in types
    ensures "dashboard" in types && "reports" in types
    ensures forall t :: t in types ==> t in DataTypeSet
  {
    ["procurement", "inventory", "dashboard", "reports"]
  }

  function AfterPaymentChange(): (types: seq<string>)
    ensures "payments" in types && "dashboard" in types && "reports" in types
    ensures forall t :: t in types ==> t in DataTypeSet
  {
    ["payments", "dashboard", "reports"]
  }

  function AfterLogisticsChange(): (types: seq<string>)
    ensures "logistics" in types && "dashboard" in types && "reports" in types
    ensures forall t :: t in types ==> t in DataTypeSet
  {
    ["logistics", "dashboard", "reports"]
  }

  function AfterInventoryChange(): (types: seq<string>)
    ensures "inventory" in types && "dashboard" in types && "reports" in types
    ensures forall t :: t in types ==> t in DataTypeSet
  {
    ["inventory", "dashboard", "reports"]
  }

  function AfterInvoiceChange(): (types: seq<string>)
    ensures "invoices" in types && "dashboard" in types && "reports" in types
    ensures forall t :: t in types ==> t in DataTypeSet
  {
    ["invoices", "dashboard", "reports"]
  }

  /** On the registry's own map, a list naming every kind is a global refresh. */
  lemma StampAllIsGlobal(m: Timestamps, types: seq<string>, now: int)
    requires m.Keys == DataTypeSet
    requires forall t :: t in DataTypeSet ==> t in types
    ensures Stamp(m, types, now) == GlobalRefresh(now)
  {
    var s := Stamp(m, types, now);
    var g := GlobalRefresh(now);
    StampFrame(m, types, now);
    assert s.Keys == g.Keys;
    forall k | k in s ensures s[k] == g[k] {
      assert k in types;
    }
  }

  /** Refreshing after a purchase-order change is a global refresh. */
  lemma POChangeIsGlobal(m: Timestamps, now: int)
    requires m.Keys == DataTypeSet
    ensures Stamp(m, AfterPOChange(), now) == GlobalRefresh(now)
  {
    StampAllIsGlobal(m, AfterPOChange(), now);
  }

  /** The state updater `triggerRefresh` hands to the setter: copy `prev`, then
      overwrite each listed name that is already a key. */
  method Refreshed(prev: Timestamps, types: seq<string>, now: int) returns (updated: Timestamps)
    ensures updated == Stamp(prev, types, now)
    ensures updated.Keys == prev.Keys
    ensures forall k :: k in prev ==> updated[k] == if k in types then now else prev[k]
  {
    updated := prev;
    var i := 0;
    while i < |types|
      invariant 0 <= i <= |types|
      invariant Stamp(updated, types[i..], now) == Stamp(prev, types, now)
    {
      assert types[i..][1..] == types[i + 1..];
      if types[i] in updated {
        updated := updated[types[i] := now];
      }
      i := i + 1;
    }
    assert types[i..] == [];
    StampFrame(prev, types, now);
  }

  /** The provider's state. Its key set is always the eight kinds. */
  class RefreshRegistry {
    var timestamps: Timestamps

    ghost predicate Valid()
      reads this
    {
      timestamps.Keys == DataTypeSet
    }

    constructor (readings: seq<int>)
      requires |readings| == |DataTypes|
      ensures Valid() && timestamps == InitialTimestamps(readings)
    {
      timestamps := InitialTimestamps(readings);
    }

    method TriggerRefresh(types: seq<string>, now: int)
      requires Valid()
      modifies this
      ensures Valid() && timestamps == Stamp(old(timestamps), types, now)
    {
      timestamps := Refreshed(timestamps, types, now);
    }

    method TriggerGlobalRefresh(now: int)
      modifies this
      ensures Valid() && timestamps == GlobalRefresh(now)
    {
      timestamps := GlobalRefresh(now);
    }

    method RefreshAfterPOChange(now: int)
      requires Valid()
      modifies this
      ensures Valid() && timestamps == GlobalRefresh(now)
    {
      POChangeIsGlobal(timestamps, now);
      TriggerRefresh(AfterPOChange(), now);
    }

    method RefreshAfterProcurementChange(now: int)
      requires Valid()
      modifies this
      ensures Valid() && timestamps == Stamp(old(timestamps), AfterProcurementChange(), now)
      ensures timestamps["dashboard"] == now && timestamps["reports"] == now
    {
      StampFrame(timestamps, AfterProcurementChange(), now);
      TriggerRefresh(AfterProcurementChange(), now);
    }

    method RefreshAfterPaymentChange(now: int)
      requires Valid()
      modifies this
      ensures Valid() && timestamps == Stamp(old(timestamps), AfterPaymentChange(), now)
      ensures timestamps["dashboard"] == now && timestamps["reports"] == now
    {
      StampFrame(timestamps, AfterPaymentChange(), now);
      TriggerRefresh(AfterPaymentChange(), now);
    }

    method RefreshAfterLogisticsChange(now: int)
      requires Valid()
      modifies this
      ensures Valid() && timestamps == Stamp(old(timestamps), AfterLogisticsChange(), now)
      ensures timestamps["dashboard"] == now && timestamps["reports"] == now
    {
      StampFrame(timestamps, AfterLogisticsChange(), now);
      TriggerRefresh(AfterLogisticsChange(), now);
    }

    method RefreshAfterInventoryChange(now: int)
      requires Valid()
      modifies this
      ensures Valid() && timestamps == Stamp(old(timestamps), AfterInventoryChange(), now)
      ensures timestamps["dashboard"] == now && timestamps["reports"] == now
    {
      StampFrame(timestamps, AfterInventoryChange(), now);
      TriggerRefresh(AfterInventoryChange(), now);
    }

    method RefreshAfterInvoiceChange(now: int)
      requires Valid()
      modifies this
      ensures Valid() && timestamps == Stamp(old(timestamps), AfterInvoiceChange(), now)
      ensures timestamps["dashboard"] == now && timestamps["reports"] == now
    {
      StampFrame(timestamps, AfterInvoiceChange(), now);
      TriggerRefresh(AfterInvoiceChange(), now);
    }
  }

  // The membership test as written is JavaScript's `in`, which also answers
  // true for the names every plain object inherits from Object.prototype.

  /** Names `in` finds on any plain object although they are not own keys. */
  const ObjectPrototypeNames: set<string> :=
    {"constructor", "hasOwnProperty", "isPrototypeOf", "propertyIsEnumerable",
     "toLocaleString", "toString", "valueOf", "__defineGetter__", "__defineSetter__",
     "__lookupGetter__", "__lookupSetter__", "__proto__"}

  /** One step of the `forEach` as written: an inherited name passes the test and
      the assignment then creates an own key with that name, except `__proto__`,
      whose inherited setter ignores a number. */
  function StampOneAsWritten(m: Timestamps, t: string, now: int): (r: Timestamps)
    ensures r.Keys == if t in m || (t in ObjectPrototypeNames && t != "__proto__") then m.Keys + {t} else m.Keys
    ensures forall k :: k in m && k != t ==> r[k] == m[k]
  {
    if t in m then m[t := now]
    else if t in ObjectPrototypeNames && t != "__proto__" then m[t := now]
    else m
  }

  function StampAsWritten(m: Timestamps, types: seq<string>, now: int): (r: Timestamps)
    ensures m.Keys <= r.Keys
    decreases |types|
  {
    if types == [] then m else StampAsWritten(StampOneAsWritten(m, types[0], now), types[1..], now)
  }

  /** As written, naming an inherited name that is not yet a key adds it as a key. */
  lemma StampAsWrittenAddsInherited(m: Timestamps, t: string, now: int)
    requires t !in m && t in ObjectPrototypeNames && t != "__proto__"
    ensures StampAsWritten(m, [t], now).Keys == m.Keys + {t}
    ensures StampAsWritten(m, [t], now)[t] == now
  {
    assert StampAsWritten(m, [t], now) == m[t := now];
  }

  /** As written, `triggerRefresh(['toString'])` adds a ninth key. */
  lemma StampAsWrittenGrowsKeys(readings: seq<int>, now: int)
    requires |readings| == |DataTypes|
    ensures "toString" !in InitialTimestamps(readings)
    ensures StampAsWritten(InitialTimestamps(readings), ["toString"], now).Keys
            == DataTypeSet + {"toString"}
  {
    assert "toString" !in DataTypeSet by {
      assert forall i :: 0 <= i < |DataTypes| ==> DataTypes[i][0] != 't';
    }
    StampAsWrittenAddsInherited(InitialTimestamps(readings), "toString", now);
  }

  /** As written and as intended agree on every list without an inherited name. */
  lemma {:induction false} StampAsWrittenAgrees(m: Timestamps, types: seq<string>, now: int)
    requires forall t :: t in types ==> t !in ObjectPrototypeNames
    ensures StampAsWritten(m, types, now) == Stamp(m, types, now)
    decreases |types|
  {
    if types != [] {
      assert types[0] in types;
      StampAsWrittenAgrees(StampOne(m, types[0], now), types[1..], now);
    }
  }
}
