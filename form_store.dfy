/** The per-engagement form store: `localStorage` seen as a map from keys to stored
    records, the key for an engagement id, and `loadFromStorage` / `persistToStorage`. */
module FormStore {
  import opened Wrappers
  import opened Json
  import opened Form

  const KEY_PREFIX := "zcc-engagement:"

  /** `storageKey(id)`: the id under the `zcc-engagement:` prefix. */
  function StorageKey(id: string): (key: string)
    ensures |key| == |KEY_PREFIX| + |id|
    ensures key[..|KEY_PREFIX|] == KEY_PREFIX && key[|KEY_PREFIX|..] == id
  {
    KEY_PREFIX + id
  }

  /** Distinct ids never share a key. */
  lemma StorageKeyInjective(a: string, b: string)
    requires StorageKey(a) == StorageKey(b)
    ensures a == b
  {
    assert a == StorageKey(a)[|KEY_PREFIX|..];
  }

  /** `localStorage.getItem(key)`: `None` stands for the `null` of a missing item. */
  function GetItem(items: map<string, Raw>, key: string): (r: Option<Raw>)
    ensures r.Some? <==> key in items
    ensures r.Some? ==> r.value == items[key]
  {
    if key in items then Some(items[key]) else None
  }

  /** `loadFromStorage(id)`: the default form for the empty id, otherwise the record
      rebuilt from what is stored under the id's key. */
  function LoadFromStorage(items: map<string, Raw>, id: string): (f: FormData)
    ensures WellFormed(f)
    ensures id == "" ==> f == DEFAULT_FORM
    ensures StorageKey(id) !in items ==> f == DEFAULT_FORM
  {
    if id == "" then DEFAULT_FORM else LoadRecord(GetItem(items, StorageKey(id)))
  }

  /** The store after `persistToStorage(id, patch)`: nothing changes for the empty id;
      otherwise the current record, as loaded, overlaid with the patch, is written back. */
  function Persist(items: map<string, Raw>, id: string, patch: Patch): (r: map<string, Raw>)
    ensures id == "" ==> r == items
    ensures id != "" ==> r.Keys == items.Keys + {StorageKey(id)}
    ensures forall key :: key in items && (id == "" || key != StorageKey(id)) ==> key in r && r[key] == items[key]
  {
    if id == "" then items
    else items[StorageKey(id) := Parsed(Serialize(Overlay(LoadFromStorage(items, id), patch)))]
  }

  /** The store after `localStorage.removeItem(storageKey(id))`. */
  function Erase(items: map<string, Raw>, id: string): (r: map<string, Raw>)
    ensures r.Keys == items.Keys - {StorageKey(id)}
    ensures forall key :: key in r ==> r[key] == items[key]
  {
    items - {StorageKey(id)}
  }

  /** Persisting under one id never changes what is stored, or loaded, for another. */
  lemma PersistIsolation(items: map<string, Raw>, a: string, b: string, patch: Patch)
    requires a != b
    ensures GetItem(Persist(items, a, patch), StorageKey(b)) == GetItem(items, StorageKey(b))
    ensures LoadFromStorage(Persist(items, a, patch), b) == LoadFromStorage(items, b)
  {
    if StorageKey(a) == StorageKey(b) {
      StorageKeyInjective(a, b);
    }
  }

  /** Erasing one id never changes what is stored, or loaded, for another. */
  lemma EraseIsolation(items: map<string, Raw>, a: string, b: string)
    requires a != b
    ensures GetItem(Erase(items, a), StorageKey(b)) == GetItem(items, StorageKey(b))
    ensures LoadFromStorage(Erase(items, a), b) == LoadFromStorage(items, b)
  {
    if StorageKey(a) == StorageKey(b) {
      StorageKeyInjective(a, b);
    }
  }

  /** After an erase the id loads the default form. */
  lemma EraseLoadsDefault(items: map<string, Raw>, id: string)
    ensures LoadFromStorage(Erase(items, id), id) == DEFAULT_FORM
  {
  }

  /** Persist then load: the loaded form is the previously loaded one overlaid with the
      patch, so every patched field reads back as the patch's value and every other field
      keeps its earlier value. */
  lemma PersistRoundTrip(items: map<string, Raw>, id: string, patch: Patch)
    requires id != "" && WellFormedPatch(patch)
    ensures LoadFromStorage(Persist(items, id, patch), id) == Overlay(LoadFromStorage(items, id), patch)
    ensures forall k: FieldName :: PatchGet(patch, k).Some? ==>
              Get(LoadFromStorage(Persist(items, id, patch), id), k) == PatchGet(patch, k).value
  {
    var next := Overlay(LoadFromStorage(items, id), patch);
    OverlayWellFormed(LoadFromStorage(items, id), patch);
    LoadSerializeRoundTrip(next);
  }

  /** `window.localStorage`: the key-value text store, holding one record per key. */
  class Store {
    var items: map<string, Raw>

    constructor (initial: map<string, Raw>)
      ensures items == initial
    {
      items := initial;
    }

    /** `persistToStorage(id, patch)` */
    method PersistToStorage(id: string, patch: Patch)
      modifies this
      ensures items == Persist(old(items), id, patch)
    {
      if id == "" {
        return;
      }
      var current := LoadFromStorage(items, id);
      var next := Overlay(current, patch);
      items := items[StorageKey(id) := Parsed(Serialize(next))];
    }

    /** `localStorage.removeItem(key)`: a missing key is not an error. */
    method RemoveItem(key: string)
      modifies this
      ensures items == old(items) - {key}
    {
      items := items - {key};
    }
  }
}
