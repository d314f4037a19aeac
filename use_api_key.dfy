/**
 * The API key holder: loaded from the build-time default or from local
 * storage, trimmed on every change, persisted under `mistral_api_key`.
 */
module ApiKey {
  import opened Wrappers
  import opened Strings
  import opened Constants
  import opened Storage

  /** The key after the load effect: a non-empty build-time default wins, then
      a non-empty saved key; otherwise the key is left as it was. */
  function LoadedApiKey(envDefault: string, saved: Option<string>, current: string): (key: string)
    ensures envDefault != [] ==> key == envDefault
    ensures envDefault == [] && saved.Some? && saved.value != [] ==> key == saved.value
    ensures envDefault == [] && (saved.None? || saved.value == []) ==> key == current
  {
    if envDefault != [] then envDefault
    else if saved.Some? && saved.value != [] then saved.value
    else current
  }

  /** The store after `setApiKey(key)`: the trimmed key, or no entry at all. */
  function StoreAfterSet(items: map<string, string>, key: string): (after: map<string, string>)
    ensures Trim(key) != [] ==> after == items[STORAGE_API_KEY := Trim(key)]
    ensures Trim(key) == [] ==> after == items - {STORAGE_API_KEY}
  {
    var trimmed := Trim(key);
    if trimmed != [] then items[STORAGE_API_KEY := trimmed] else items - {STORAGE_API_KEY}
  }

  /** A key set and then reloaded (without a build-time default) comes back
      trimmed; a blank key comes back empty, so no key is present. */
  lemma SetThenReload(items: map<string, string>, key: string)
    ensures LoadedApiKey([], Lookup(StoreAfterSet(items, key), STORAGE_API_KEY), []) == Trim(key)
    ensures IsBlank(Trim(key)) <==> IsBlank(key)
  {
    TrimIdempotent(key);
  }

  /** The round trip with a concrete key: "abc123" is kept as is. */
  lemma SetThenReloadExample(items: map<string, string>)
    ensures LoadedApiKey([], Lookup(StoreAfterSet(items, "abc123"), STORAGE_API_KEY), []) == "abc123"
  {
    var key := "abc123";
    assert !IsWhitespace(key[0]) && !IsWhitespace(key[|key| - 1]);
    assert Trim(key) == key;
    SetThenReload(items, key);
  }

  class ApiKeyState {
    var apiKey: string
    const store: LocalStorage

    /** `Boolean(apiKey.trim())`. */
    predicate HasApiKey()
      reads this
    {
      !IsBlank(apiKey)
    }

    /** The key starts empty. */
    constructor (store: LocalStorage)
      ensures this.store == store && apiKey == []
      ensures !HasApiKey()
    {
      this.store := store;
      apiKey := [];
    }

    /** The mount effect: reads the build-time default and the store, and
        never writes the store. */
    method Load(envDefault: string)
      modifies this
      ensures apiKey == LoadedApiKey(envDefault, store.GetItem(STORAGE_API_KEY), old(apiKey))
    {
      var saved := store.GetItem(STORAGE_API_KEY);
      if envDefault != [] {
        apiKey := envDefault;
      } else if saved.Some? && saved.value != [] {
        apiKey := saved.value;
      }
    }

    /** Keeps the trimmed key and stores it, or removes the stored key when it is blank. */
    method SetApiKey(key: string)
      modifies this, store
      ensures apiKey == Trim(key)
      ensures store.items == StoreAfterSet(old(store.items), key)
      ensures HasApiKey() <==> !IsBlank(key)
    {
      var trimmed := Trim(key);
      apiKey := trimmed;
      TrimIdempotent(key);
      if trimmed != [] {
        store.SetItem(STORAGE_API_KEY, trimmed);
      } else {
        store.RemoveItem(STORAGE_API_KEY);
      }
    }

    /** Forgets the key and removes it from the store. */
    method ClearApiKey()
      modifies this, store
      ensures apiKey == [] && !HasApiKey()
      ensures store.items == old(store.items) - {STORAGE_API_KEY}
    {
      apiKey := [];
      store.RemoveItem(STORAGE_API_KEY);
    }
  }
}
