/**
 * `LayoutCollection` (`src/shelf_location_resolver.rs`): a list of entities
 * with two secondary indices, identifier to position and name to position,
 * built in one pass. A key that occurs more than once keeps the position of
 * its last occurrence, because each insert overwrites the previous entry.
 */
module Layout {
  import opened Wrappers

  datatype LayoutCollection<T> = LayoutCollection(
    items: seq<T>,
    idIndex: map<string, nat>,
    nameIndex: map<string, nat>)

  /** The map left behind by inserting `key(items[i]) := i` for `i = 0, 1, ...` in turn. */
  function IndexOf<T>(items: seq<T>, key: T -> string): map<string, nat>
  {
    if |items| == 0 then map[]
    else IndexOf(items[..|items| - 1], key)[key(items[|items| - 1]) := |items| - 1]
  }

  /** Some entity of the list has key `k`. */
  ghost predicate HasKey<T>(items: seq<T>, key: T -> string, k: string)
  {
    exists i :: 0 <= i < |items| && key(items[i]) == k
  }

  /** `i` is the largest position whose entity has key `k`. */
  ghost predicate IsLastPosition<T>(items: seq<T>, key: T -> string, k: string, i: int)
  {
    && 0 <= i < |items|
    && key(items[i]) == k
    && forall j :: i < j < |items| ==> key(items[j]) != k
  }

  /**
   * The "last write wins" lookup rule: `r` is present exactly when some entity
   * has key `k`, and then it is the entity at the last such position.
   */
  ghost predicate FindsLast<T>(items: seq<T>, key: T -> string, k: string, r: Option<T>)
  {
    && (r.Some? <==> HasKey(items, key, k))
    && (r.Some? ==> exists i :: IsLastPosition(items, key, k, i) && r.value == items[i])
  }

  /** Every position an index stores is a valid position of `items`. */
  predicate IndexInBounds<T>(items: seq<T>, index: map<string, nat>)
  {
    forall k :: k in index ==> index[k] < |items|
  }

  /** Both indices of the collection point into its list, so lookups never go out of bounds. */
  predicate Valid<T>(c: LayoutCollection<T>)
  {
    IndexInBounds(c.items, c.idIndex) && IndexInBounds(c.items, c.nameIndex)
  }

  /** An index built by `IndexOf` holds each key exactly when the list has it, at its last position. */
  lemma {:induction false} IndexOfIsLastPosition<T>(items: seq<T>, key: T -> string, k: string)
    ensures k in IndexOf(items, key) <==> HasKey(items, key, k)
    ensures k in IndexOf(items, key) ==> IsLastPosition(items, key, k, IndexOf(items, key)[k])
  {
    if |items| > 0 {
      var n := |items| - 1;
      var prefix := items[..n];
      IndexOfIsLastPosition(prefix, key, k);
      if key(items[n]) != k {
        if HasKey(items, key, k) {
          var i :| 0 <= i < |items| && key(items[i]) == k;
          assert prefix[i] == items[i];
        }
        if k in IndexOf(prefix, key) {
          var p := IndexOf(prefix, key)[k];
          assert prefix[p] == items[p];
          forall j | p < j < |items|
            ensures key(items[j]) != k
          {
            if j < n {
              assert prefix[j] == items[j];
            }
          }
        }
      }
    }
  }

  lemma IndexOfInBounds<T>(items: seq<T>, key: T -> string)
    ensures IndexInBounds(items, IndexOf(items, key))
  {
    forall k | k in IndexOf(items, key)
      ensures IndexOf(items, key)[k] < |items|
    {
      IndexOfIsLastPosition(items, key, k);
    }
  }

  /** The collection `LayoutCollection::new` produces: the list verbatim and both indices. */
  function Build<T>(items: seq<T>, getId: T -> string, getName: T -> string): (c: LayoutCollection<T>)
    ensures c.items == items
    ensures Valid(c)
  {
    IndexOfInBounds(items, getId);
    IndexOfInBounds(items, getName);
    LayoutCollection(items, IndexOf(items, getId), IndexOf(items, getName))
  }

  /** `LayoutCollection::new`: one pass over the list, inserting into both indices. */
  method New<T>(items: seq<T>, getId: T -> string, getName: T -> string) returns (c: LayoutCollection<T>)
    ensures c == Build(items, getId, getName)
  {
    var idIndex: map<string, nat> := map[];
    var nameIndex: map<string, nat> := map[];
    for idx := 0 to |items|
      invariant idIndex == IndexOf(items[..idx], getId)
      invariant nameIndex == IndexOf(items[..idx], getName)
    {
      assert items[..idx + 1][..idx] == items[..idx];
      idIndex := idIndex[getId(items[idx]) := idx];
      nameIndex := nameIndex[getName(items[idx]) := idx];
    }
    assert items[..|items|] == items;
    c := LayoutCollection(items, idIndex, nameIndex);
  }

  /** `get_by_id`: the entity stored at the identifier's position, if the identifier is indexed. */
  function GetById<T>(c: LayoutCollection<T>, id: string): (r: Option<T>)
    requires Valid(c)
    ensures r.Some? <==> id in c.idIndex
    ensures r.Some? ==> r.value in c.items
  {
    if id in c.idIndex then Some(c.items[c.idIndex[id]]) else None
  }

  /** `get_by_name`: the entity stored at the name's position, if the name is indexed. */
  function GetByName<T>(c: LayoutCollection<T>, name: string): (r: Option<T>)
    requires Valid(c)
    ensures r.Some? <==> name in c.nameIndex
    ensures r.Some? ==> r.value in c.items
  {
    if name in c.nameIndex then Some(c.items[c.nameIndex[name]]) else None
  }

  /** Looking up an identifier finds the last entity with that identifier, and nothing if none has it. */
  lemma GetByIdFindsLast<T>(items: seq<T>, getId: T -> string, getName: T -> string, id: string)
    ensures FindsLast(items, getId, id, GetById(Build(items, getId, getName), id))
  {
    IndexOfIsLastPosition(items, getId, id);
  }

  /** Looking up a name finds the last entity with that name, and nothing if none has it. */
  lemma GetByNameFindsLast<T>(items: seq<T>, getId: T -> string, getName: T -> string, name: string)
    ensures FindsLast(items, getName, name, GetByName(Build(items, getId, getName), name))
  {
    IndexOfIsLastPosition(items, getName, name);
  }

  /** When identifiers are unique, looking up an entity's identifier finds that very entity. */
  lemma UniqueIdFindsItsEntity<T>(items: seq<T>, getId: T -> string, getName: T -> string, i: int)
    requires 0 <= i < |items|
    requires forall j :: 0 <= j < |items| && j != i ==> getId(items[j]) != getId(items[i])
    ensures GetById(Build(items, getId, getName), getId(items[i])) == Some(items[i])
  {
    GetByIdFindsLast(items, getId, getName, getId(items[i]));
  }

  /**
   * A collection built from a list finds no key that list lacks: an identifier
   * no entity has is not found by identifier, and a name no entity has is not
   * found by name, each independently of the other index.
   */
  lemma RebuildForgetsAbsentKeys<T>(items: seq<T>, getId: T -> string, getName: T -> string, k: string)
    ensures !HasKey(items, getId, k) ==> GetById(Build(items, getId, getName), k) == None
    ensures !HasKey(items, getName, k) ==> GetByName(Build(items, getId, getName), k) == None
  {
    GetByIdFindsLast(items, getId, getName, k);
    GetByNameFindsLast(items, getId, getName, k);
  }

  /** An empty collection finds nothing. */
  lemma EmptyCollectionFindsNothing<T>(getId: T -> string, getName: T -> string, k: string)
    ensures GetById(Build([], getId, getName), k) == None
    ensures GetByName(Build([], getId, getName), k) == None
  {
  }
}

/**
 * `ShelfLocationResolver`: a cache of the robot's locations and shelves, each
 * held as a `LayoutCollection`. Every item on the locations stream rebuilds
 * the locations collection and leaves the shelves alone, and the other way
 * round; queries read the current collections.
 */
module Resolver {
  import opened Wrappers
  import opened KachakaApi
  import opened Layout
  import Types

  function LocationId(location: Location): string { location.id }
  function LocationName(location: Location): string { location.name }
  function ShelfId(shelf: Shelf): string { shelf.id }
  function ShelfName(shelf: Shelf): string { shelf.name }

  /** One item taken from one of the two watch streams by the update loop's `select!`. */
  datatype Update =
    | LocationsUpdate(locations: Result<seq<Location>, Types.KachakaApiError>)
    | ShelvesUpdate(shelves: Result<seq<Shelf>, Types.KachakaApiError>)

  /** The update loop unwraps every item, so an error item would panic. */
  predicate IsOk(u: Update)
  {
    match u
    case LocationsUpdate(r) => r.Ok?
    case ShelvesUpdate(r) => r.Ok?
  }

  /** The locations list in force after the updates, starting from `current`. */
  function LatestLocations(updates: seq<Update>, current: seq<Location>): seq<Location>
    requires forall i :: 0 <= i < |updates| ==> IsOk(updates[i])
  {
    if |updates| == 0 then current
    else
      var last := updates[|updates| - 1];
      assert IsOk(last);
      if last.LocationsUpdate? then last.locations.value
      else LatestLocations(updates[..|updates| - 1], current)
  }

  /** The shelves list in force after the updates, starting from `current`. */
  function LatestShelves(updates: seq<Update>, current: seq<Shelf>): seq<Shelf>
    requires forall i :: 0 <= i < |updates| ==> IsOk(updates[i])
  {
    if |updates| == 0 then current
    else
      var last := updates[|updates| - 1];
      assert IsOk(last);
      if last.ShelvesUpdate? then last.shelves.value
      else LatestShelves(updates[..|updates| - 1], current)
  }

  /**
   * The locations in force are those of the last locations update, and the
   * starting list only when there was none: shelf updates never touch them.
   */
  lemma {:induction false} LatestLocationsIsLastUpdate(updates: seq<Update>, current: seq<Location>)
    requires forall i :: 0 <= i < |updates| ==> IsOk(updates[i])
    ensures (forall i :: 0 <= i < |updates| ==> !updates[i].LocationsUpdate?) ==>
              LatestLocations(updates, current) == current
    ensures forall i :: 0 <= i < |updates| && updates[i].LocationsUpdate? &&
                        (forall j :: i < j < |updates| ==> !updates[j].LocationsUpdate?) ==>
              LatestLocations(updates, current) == updates[i].locations.value
  {
    if |updates| > 0 {
      var n := |updates| - 1;
      var prefix := updates[..n];
      LatestLocationsIsLastUpdate(prefix, current);
      if !updates[n].LocationsUpdate? {
        forall i | 0 <= i < n ensures prefix[i] == updates[i] { }
      }
    }
  }

  /** The shelves in force are those of the last shelves update, and the starting list only when there was none. */
  lemma {:induction false} LatestShelvesIsLastUpdate(updates: seq<Update>, current: seq<Shelf>)
    requires forall i :: 0 <= i < |updates| ==> IsOk(updates[i])
    ensures (forall i :: 0 <= i < |updates| ==> !updates[i].ShelvesUpdate?) ==>
              LatestShelves(updates, current) == current
    ensures forall i :: 0 <= i < |updates| && updates[i].ShelvesUpdate? &&
                        (forall j :: i < j < |updates| ==> !updates[j].ShelvesUpdate?) ==>
              LatestShelves(updates, current) == updates[i].shelves.value
  {
    if |updates| > 0 {
      var n := |updates| - 1;
      var prefix := updates[..n];
      LatestShelvesIsLastUpdate(prefix, current);
      if !updates[n].ShelvesUpdate? {
        forall i | 0 <= i < n ensures prefix[i] == updates[i] { }
      }
    }
  }

  class ShelfLocationResolver {
    var locationsCollection: LayoutCollection<Location>
    var shelvesCollection: LayoutCollection<Shelf>

    /** Each collection is the one `LayoutCollection::new` builds from its own list. */
    ghost predicate Valid()
      reads this
    {
      && locationsCollection == Build(locationsCollection.items, LocationId, LocationName)
      && shelvesCollection == Build(shelvesCollection.items, ShelfId, ShelfName)
    }

    /** `ShelfLocationResolver::new`: both collections start empty. */
    constructor ()
      ensures Valid()
      ensures locationsCollection.items == [] && shelvesCollection.items == []
    {
      var locations := New([], LocationId, LocationName);
      var shelves := New([], ShelfId, ShelfName);
      locationsCollection := locations;
      shelvesCollection := shelves;
    }

    /** The locations arm of the update loop: replace the whole collection, keep the shelves. */
    method UpdateLocations(locations: Result<seq<Location>, Types.KachakaApiError>)
      requires Valid()
      requires locations.Ok?
      modifies this
      ensures Valid()
      ensures locationsCollection == Build(locations.value, LocationId, LocationName)
      ensures shelvesCollection == old(shelvesCollection)
      ensures forall k :: !HasKey(locations.value, LocationId, k) ==> GetById(locationsCollection, k) == None
      ensures forall k :: !HasKey(locations.value, LocationName, k) ==> GetByName(locationsCollection, k) == None
    {
      var collection := New(locations.value, LocationId, LocationName);
      locationsCollection := collection;
      forall k
        ensures !HasKey(locations.value, LocationId, k) ==> GetById(locationsCollection, k) == None
        ensures !HasKey(locations.value, LocationName, k) ==> GetByName(locationsCollection, k) == None
      {
        RebuildForgetsAbsentKeys(locations.value, LocationId, LocationName, k);
      }
    }

    /** The shelves arm of the update loop: replace the whole collection, keep the locations. */
    method UpdateShelves(shelves: Result<seq<Shelf>, Types.KachakaApiError>)
      requires Valid()
      requires shelves.Ok?
      modifies this
      ensures Valid()
      ensures shelvesCollection == Build(shelves.value, ShelfId, ShelfName)
      ensures locationsCollection == old(locationsCollection)
      ensures forall k :: !HasKey(shelves.value, ShelfId, k) ==> GetById(shelvesCollection, k) == None
      ensures forall k :: !HasKey(shelves.value, ShelfName, k) ==> GetByName(shelvesCollection, k) == None
    {
      var collection := New(shelves.value, ShelfId, ShelfName);
      shelvesCollection := collection;
      forall k
        ensures !HasKey(shelves.value, ShelfId, k) ==> GetById(shelvesCollection, k) == None
        ensures !HasKey(shelves.value, ShelfName, k) ==> GetByName(shelvesCollection, k) == None
      {
        RebuildForgetsAbsentKeys(shelves.value, ShelfId, ShelfName, k);
      }
    }

    /** One turn of the update loop: apply the item to the collection its stream feeds. */
    method Apply(u: Update)
      requires Valid()
      requires IsOk(u)
      modifies this
      ensures Valid()
      ensures u.LocationsUpdate? ==> locationsCollection.items == u.locations.value
      ensures u.LocationsUpdate? ==> shelvesCollection == old(shelvesCollection)
      ensures u.ShelvesUpdate? ==> shelvesCollection.items == u.shelves.value
      ensures u.ShelvesUpdate? ==> locationsCollection == old(locationsCollection)
    {
      match u
      case LocationsUpdate(locations) => UpdateLocations(locations);
      case ShelvesUpdate(shelves) => UpdateShelves(shelves);
    }

    /**
     * `run_update_loop`, for the items the two streams have delivered so far,
     * in the order the loop took them.
     */
    method RunUpdateLoop(updates: seq<Update>)
      requires Valid()
      requires forall i :: 0 <= i < |updates| ==> IsOk(updates[i])
      modifies this
      ensures Valid()
      ensures locationsCollection.items == LatestLocations(updates, old(locationsCollection.items))
      ensures shelvesCollection.items == LatestShelves(updates, old(shelvesCollection.items))
    {
      var i := 0;
      while i < |updates|
        invariant 0 <= i <= |updates|
        invariant Valid()
        invariant locationsCollection.items == LatestLocations(updates[..i], old(locationsCollection.items))
        invariant shelvesCollection.items == LatestShelves(updates[..i], old(shelvesCollection.items))
      {
        assert updates[..i + 1][..i] == updates[..i];
        Apply(updates[i]);
        i := i + 1;
      }
      assert updates[..|updates|] == updates;
    }

    /** `get_location_by_id`. */
    method GetLocationById(id: string) returns (r: Option<Location>)
      requires Valid()
      ensures FindsLast(locationsCollection.items, LocationId, id, r)
      ensures r.Some? ==> r.value.id == id
    {
      r := GetById(locationsCollection, id);
      GetByIdFindsLast(locationsCollection.items, LocationId, LocationName, id);
    }

    /** `get_location_by_name`. */
    method GetLocationByName(name: string) returns (r: Option<Location>)
      requires Valid()
      ensures FindsLast(locationsCollection.items, LocationName, name, r)
      ensures r.Some? ==> r.value.name == name
    {
      r := GetByName(locationsCollection, name);
      GetByNameFindsLast(locationsCollection.items, LocationId, LocationName, name);
    }

    /** `get_all_locations`: the list of the last locations update, in its order. */
    method GetAllLocations() returns (r: seq<Location>)
      ensures r == locationsCollection.items
    {
      r := locationsCollection.items;
    }

    /** `get_shelf_by_id`. */
    method GetShelfById(id: string) returns (r: Option<Shelf>)
      requires Valid()
      ensures FindsLast(shelvesCollection.items, ShelfId, id, r)
      ensures r.Some? ==> r.value.id == id
    {
      r := GetById(shelvesCollection, id);
      GetByIdFindsLast(shelvesCollection.items, ShelfId, ShelfName, id);
    }

    /** `get_shelf_by_name`. */
    method GetShelfByName(name: string) returns (r: Option<Shelf>)
      requires Valid()
      ensures FindsLast(shelvesCollection.items, ShelfName, name, r)
      ensures r.Some? ==> r.value.name == name
    {
      r := GetByName(shelvesCollection, name);
      GetByNameFindsLast(shelvesCollection.items, ShelfId, ShelfName, name);
    }

    /** `get_all_shelves`: the list of the last shelves update, in its order. */
    method GetAllShelves() returns (r: seq<Shelf>)
      ensures r == shelvesCollection.items
    {
      r := shelvesCollection.items;
    }
  }

  /**
   * Locations updates in a row, as a client sees them: the second list
   * replaces the first, so an identifier only the second list has is found,
   * and a name both lists share resolves into the second list; a third list
   * without `L1` makes `L1` unknown again.
   */
  method TwoLocationUpdates()
  {
    var dock := Location("L1", "Dock", []);
    var area := Location("L2", "Shelf Area", []);
    var resolver := new ShelfLocationResolver();
    var none := resolver.GetLocationById("L2");
    assert none == None;

    resolver.UpdateLocations(Ok([dock]));
    resolver.UpdateLocations(Ok([dock, area]));

    var byId := resolver.GetLocationById("L2");
    assert LocationId([dock, area][1]) == "L2";
    assert byId == Some(area);
    var byName := resolver.GetLocationByName("Dock");
    assert LocationName([dock, area][0]) == "Dock";
    assert byName == Some(dock);
    var all := resolver.GetAllLocations();
    assert all == [dock, area];
    var shelves := resolver.GetAllShelves();
    assert shelves == [];

    resolver.UpdateLocations(Ok([area]));
    var gone := resolver.GetLocationById("L1");
    assert LocationId([area][0]) != "L1";
    assert gone == None;
  }
}
