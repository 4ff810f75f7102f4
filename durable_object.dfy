/** The worker's durable object (worker/durableObject.ts): the settings
    aggregate with its default, a counter, and a list of demo items, all kept
    in one key-value storage. The storage is a map field; the mock items the
    list is seeded with are fixed when the object is created. */
module DurableObject {
  import opened Types

  /** A stored value, by the key that holds it. */
  datatype Stored = SettingsRecord(data: UserSettingsAndAlerts) | Counter(n: int) | Items(items: seq<DemoItem>)

  const SETTINGS_KEY: string := "user_settings_alerts"
  const COUNTER_KEY: string := "counter_value"
  const ITEMS_KEY: string := "demo_items"

  /** The aggregate served before any settings have been saved. */
  const DEFAULT_SETTINGS_AND_ALERTS := UserSettingsAndAlerts(
    UserSettings(500000.0, 1.5, Some("")),
    [ PriceAlert("alert-106k", 106000.0, true),
      PriceAlert("alert-100k", 100000.0, false),
      PriceAlert("alert-90k", 90000.0, false) ])

  /** Each key holds the kind of value the object writes under it. */
  ghost predicate WellTyped(storage: map<string, Stored>)
  {
    && (SETTINGS_KEY in storage ==> storage[SETTINGS_KEY].SettingsRecord?)
    && (COUNTER_KEY in storage ==> storage[COUNTER_KEY].Counter?)
    && (ITEMS_KEY in storage ==> storage[ITEMS_KEY].Items?)
  }

  /** The settings a read returns: the stored aggregate, else the default. */
  function SettingsIn(storage: map<string, Stored>): UserSettingsAndAlerts
    requires WellTyped(storage)
  {
    if SETTINGS_KEY in storage then storage[SETTINGS_KEY].data else DEFAULT_SETTINGS_AND_ALERTS
  }

  /** The counter a read sees: the stored number, a missing one read as 0. */
  function CounterIn(storage: map<string, Stored>): int
    requires WellTyped(storage)
  {
    if COUNTER_KEY in storage then storage[COUNTER_KEY].n else 0
  }

  /** The default has the three alerts at 106k (on), 100k and 90k (off). */
  lemma DefaultAlerts()
    ensures |DEFAULT_SETTINGS_AND_ALERTS.alerts| == 3
    ensures DEFAULT_SETTINGS_AND_ALERTS.alerts[0] == PriceAlert("alert-106k", 106000.0, true)
    ensures DEFAULT_SETTINGS_AND_ALERTS.alerts[1] == PriceAlert("alert-100k", 100000.0, false)
    ensures DEFAULT_SETTINGS_AND_ALERTS.alerts[2] == PriceAlert("alert-90k", 90000.0, false)
  {
  }

  /** A read after a write returns what was written; before any write it
      returns the default. */
  lemma SettingsReadAfterWrite(storage: map<string, Stored>, data: UserSettingsAndAlerts)
    requires WellTyped(storage)
    ensures WellTyped(storage[SETTINGS_KEY := SettingsRecord(data)])
    ensures SettingsIn(storage[SETTINGS_KEY := SettingsRecord(data)]) == data
    ensures SETTINGS_KEY !in storage ==> SettingsIn(storage) == DEFAULT_SETTINGS_AND_ALERTS
  {
  }

  /** Incrementing by `a` and then decrementing by `a` restores the counter. */
  lemma IncrementThenDecrement(storage: map<string, Stored>, a: int)
    requires WellTyped(storage)
    ensures var up := storage[COUNTER_KEY := Counter(CounterIn(storage) + a)];
      WellTyped(up) && CounterIn(up[COUNTER_KEY := Counter(CounterIn(up) - a)]) == CounterIn(storage)
  {
  }

  // ---------------------------------------------------------------------------
  // Demo-list transforms

  /** `{ ...item, ...updates }` with the id left out of the updates. */
  datatype DemoPatch = DemoPatch(name: Option<string>, value: Option<real>)

  function Patched(item: DemoItem, updates: DemoPatch): (r: DemoItem)
    ensures r.id == item.id
  {
    DemoItem(item.id, updates.name.GetOr(item.name), updates.value.GetOr(item.value))
  }

  /** `items.map(item => item.id === id ? { ...item, ...updates } : item)`. */
  function UpdateItems(items: seq<DemoItem>, id: string, updates: DemoPatch): (r: seq<DemoItem>)
    ensures |r| == |items|
  {
    if items == [] then []
    else [if items[0].id == id then Patched(items[0], updates) else items[0]] + UpdateItems(items[1..], id, updates)
  }

  /** An update keeps every id in place, merges into matching items only, and
      leaves the others as they were. */
  lemma {:induction false} UpdateItemsAt(items: seq<DemoItem>, id: string, updates: DemoPatch, i: int)
    requires 0 <= i < |items|
    ensures var r := UpdateItems(items, id, updates);
      && r[i].id == items[i].id
      && (items[i].id == id ==> r[i] == Patched(items[i], updates))
      && (items[i].id != id ==> r[i] == items[i])
    decreases |items|
  {
    if i > 0 {
      UpdateItemsAt(items[1..], id, updates, i - 1);
    }
  }

  /** `items.filter(item => item.id !== id)`. */
  function DeleteItems(items: seq<DemoItem>, id: string): (r: seq<DemoItem>)
    ensures |r| <= |items|
  {
    if items == [] then []
    else if items[0].id == id then DeleteItems(items[1..], id)
    else [items[0]] + DeleteItems(items[1..], id)
  }

  /** A delete removes every item with the id and keeps every other item. */
  lemma {:induction false} DeleteItemsContents(items: seq<DemoItem>, id: string)
    ensures forall x | x in DeleteItems(items, id) :: x in items && x.id != id
    ensures forall x | x in items && x.id != id :: x in DeleteItems(items, id)
    decreases |items|
  {
    if items != [] {
      DeleteItemsContents(items[1..], id);
    }
  }

  /** A delete keeps the order: deleting from a concatenation is
      concatenating what is left of each part. */
  lemma {:induction false} DeleteItemsKeepsOrder(xs: seq<DemoItem>, ys: seq<DemoItem>, id: string)
    ensures DeleteItems(xs + ys, id) == DeleteItems(xs, id) + DeleteItems(ys, id)
    decreases |xs|
  {
    if xs != [] {
      assert (xs + ys)[1..] == xs[1..] + ys;
      DeleteItemsKeepsOrder(xs[1..], ys, id);
    } else {
      assert xs + ys == ys;
    }
  }

  /** When no item has the id, a delete changes nothing. */
  lemma {:induction false} DeleteMissingIsIdentity(items: seq<DemoItem>, id: string)
    requires forall i :: 0 <= i < |items| ==> items[i].id != id
    ensures DeleteItems(items, id) == items
    decreases |items|
  {
    if items != [] {
      DeleteMissingIsIdentity(items[1..], id);
    }
  }

  // ---------------------------------------------------------------------------
  // The object

  class GlobalDurableObject {
    var storage: map<string, Stored>
    const mockItems: seq<DemoItem>

    ghost predicate Valid()
      reads this
    {
      WellTyped(storage)
    }

    /** The object over the storage it finds. */
    constructor (existing: map<string, Stored>, mock: seq<DemoItem>)
      requires WellTyped(existing)
      ensures Valid() && storage == existing && mockItems == mock
    {
      storage := existing;
      mockItems := mock;
    }

    method GetUserSettingsAndAlerts() returns (data: UserSettingsAndAlerts)
      requires Valid()
      ensures data == SettingsIn(storage)
      ensures SETTINGS_KEY in storage ==> data == storage[SETTINGS_KEY].data
      ensures SETTINGS_KEY !in storage ==> data == DEFAULT_SETTINGS_AND_ALERTS
    {
      if SETTINGS_KEY in storage {
        data := storage[SETTINGS_KEY].data;
      } else {
        data := DEFAULT_SETTINGS_AND_ALERTS;
      }
    }

    /** Stores the aggregate wholesale and returns it unchanged. */
    method UpdateUserSettingsAndAlerts(data: UserSettingsAndAlerts) returns (saved: UserSettingsAndAlerts)
      requires Valid()
      modifies this
      ensures Valid()
      ensures storage == old(storage)[SETTINGS_KEY := SettingsRecord(data)] && saved == data
      ensures SettingsIn(storage) == data
    {
      storage := storage[SETTINGS_KEY := SettingsRecord(data)];
      saved := data;
    }

    method GetCounterValue() returns (value: int)
      requires Valid()
      ensures value == CounterIn(storage)
      ensures COUNTER_KEY !in storage ==> value == 0
    {
      value := if COUNTER_KEY in storage then storage[COUNTER_KEY].n else 0;
    }

    /** Adds `amount` (by default 1) to the counter and stores the sum. */
    method Increment(amount: int := 1) returns (value: int)
      requires Valid()
      modifies this
      ensures Valid()
      ensures value == old(CounterIn(storage)) + amount
      ensures storage == old(storage)[COUNTER_KEY := Counter(value)]
    {
      value := if COUNTER_KEY in storage then storage[COUNTER_KEY].n else 0;
      value := value + amount;
      storage := storage[COUNTER_KEY := Counter(value)];
    }

    /** Subtracts `amount` (by default 1) from the counter and stores it. */
    method Decrement(amount: int := 1) returns (value: int)
      requires Valid()
      modifies this
      ensures Valid()
      ensures value == old(CounterIn(storage)) - amount
      ensures storage == old(storage)[COUNTER_KEY := Counter(value)]
    {
      value := if COUNTER_KEY in storage then storage[COUNTER_KEY].n else 0;
      value := value - amount;
      storage := storage[COUNTER_KEY := Counter(value)];
    }

    /** The stored list; on first use the mock items are stored and returned. */
    method GetDemoItems() returns (items: seq<DemoItem>)
      requires Valid()
      modifies this
      ensures Valid()
      ensures ITEMS_KEY in old(storage) ==> items == old(storage)[ITEMS_KEY].items && storage == old(storage)
      ensures ITEMS_KEY !in old(storage) ==> items == mockItems && storage == old(storage)[ITEMS_KEY := Items(mockItems)]
    {
      if ITEMS_KEY in storage {
        items := storage[ITEMS_KEY].items;
        return;
      }
      storage := storage[ITEMS_KEY := Items(mockItems)];
      items := mockItems;
    }

    /** The list a read would return, seeding included. */
    function CurrentItems(): seq<DemoItem>
      reads this
      requires Valid()
    {
      if ITEMS_KEY in storage then storage[ITEMS_KEY].items else mockItems
    }

    /** Appends the item at the end. */
    method AddDemoItem(item: DemoItem) returns (updated: seq<DemoItem>)
      requires Valid()
      modifies this
      ensures Valid()
      ensures updated == old(CurrentItems()) + [item]
      ensures storage == old(storage)[ITEMS_KEY := Items(updated)]
    {
      var items := GetDemoItems();
      updated := items + [item];
      storage := storage[ITEMS_KEY := Items(updated)];
    }

    /** Merges the updates into the items with the id. */
    method UpdateDemoItem(id: string, updates: DemoPatch) returns (updated: seq<DemoItem>)
      requires Valid()
      modifies this
      ensures Valid()
      ensures updated == UpdateItems(old(CurrentItems()), id, updates)
      ensures storage == old(storage)[ITEMS_KEY := Items(updated)]
    {
      var items := GetDemoItems();
      updated := UpdateItems(items, id, updates);
      storage := storage[ITEMS_KEY := Items(updated)];
    }

    /** Removes every item with the id. */
    method DeleteDemoItem(id: string) returns (updated: seq<DemoItem>)
      requires Valid()
      modifies this
      ensures Valid()
      ensures updated == DeleteItems(old(CurrentItems()), id)
      ensures storage == old(storage)[ITEMS_KEY := Items(updated)]
    {
      var items := GetDemoItems();
      updated := DeleteItems(items, id);
      storage := storage[ITEMS_KEY := Items(updated)];
    }
  }
}
