/**
 * The catalog's item store as the migrations use it: `load_items`, a
 * transaction that stages `update_item` writes, and `commit`, which applies
 * them all at once. The real backend (a SQL database) is not part of this
 * model; an update is taken to overwrite the item with that id, if there is
 * one.
 */
module CatalogStorage {

  newtype Byte = x: int | 0 <= x < 256

  /** A serialized item definition, as stored. */
  type Bytes = seq<Byte>

  /** A catalog item's id (`GlobalId`). */
  type ItemId = nat

  /** The full name of an item; an update may rename only its last part. */
  datatype FullName = FullName(database: string, schema: string, item: string)

  /** A stored catalog item: its name and its serialized definition. */
  datatype Item = Item(name: FullName, def: Bytes)

  /** One staged `update_item`: the item's new last name part and definition. */
  datatype Write = Write(itemName: string, def: Bytes)

  /** The store after `writes` are applied to `items`: an item that has a write takes it, the rest are kept. */
  function Applied(items: map<ItemId, Item>, writes: map<ItemId, Write>): (r: map<ItemId, Item>)
    ensures r.Keys == items.Keys
    ensures forall id :: id in items && id !in writes ==> r[id] == items[id]
    ensures forall id :: id in items && id in writes ==>
              r[id].def == writes[id].def && r[id].name == items[id].name.(item := writes[id].itemName)
  {
    map id | id in items ::
      if id in writes then Item(items[id].name.(item := writes[id].itemName), writes[id].def)
      else items[id]
  }

  /** The persistent item store (`catalog.storage()`). */
  class Storage {
    var items: map<ItemId, Item>

    constructor (items: map<ItemId, Item>)
      ensures this.items == items
    {
      this.items := items;
    }

    /**
     * `load_items`: every stored item exactly once, with its id, in an order
     * the backend chooses.
     */
    method LoadItems() returns (loaded: seq<(ItemId, Item)>)
      ensures forall k :: 0 <= k < |loaded| ==> loaded[k].0 in items && loaded[k].1 == items[loaded[k].0]
      ensures forall id :: id in items ==> exists k :: 0 <= k < |loaded| && loaded[k].0 == id
      ensures forall k, l :: 0 <= k < l < |loaded| ==> loaded[k].0 != loaded[l].0
    {
      loaded := [];
      var rest := items.Keys;
      while rest != {}
        invariant rest <= items.Keys
        invariant forall k :: 0 <= k < |loaded| ==> loaded[k].0 in items && loaded[k].1 == items[loaded[k].0]
        invariant forall k :: 0 <= k < |loaded| ==> loaded[k].0 !in rest
        invariant forall id :: id in items && id !in rest ==> exists k :: 0 <= k < |loaded| && loaded[k].0 == id
        invariant forall k, l :: 0 <= k < l < |loaded| ==> loaded[k].0 != loaded[l].0
        decreases rest
      {
        var id :| id in rest;
        ghost var before := loaded;
        loaded := loaded + [(id, items[id])];
        rest := rest - {id};
        forall other | other in items && other !in rest
          ensures exists k :: 0 <= k < |loaded| && loaded[k].0 == other
        {
          if other == id {
            assert loaded[|before|].0 == other;
          } else {
            var k :| 0 <= k < |before| && before[k].0 == other;
            assert loaded[k].0 == other;
          }
        }
      }
    }
  }

  /** `storage.transaction()`: writes are staged here and reach the store only on `Commit`. */
  class Transaction {
    const storage: Storage
    var writes: map<ItemId, Write>

    constructor (storage: Storage)
      ensures this.storage == storage && writes == map[]
    {
      this.storage := storage;
      writes := map[];
    }

    /** `update_item`: stage a new name and definition for `id`; the store is not touched. */
    method UpdateItem(id: ItemId, itemName: string, def: Bytes)
      modifies this
      ensures writes == old(writes)[id := Write(itemName, def)]
    {
      writes := writes[id := Write(itemName, def)];
    }

    /** `commit`: apply every staged write to the store at once. */
    method Commit()
      modifies storage
      ensures storage.items == Applied(old(storage.items), writes)
    {
      storage.items := Applied(storage.items, writes);
    }
  }
}
