/**
 * `saveConfigToStorage` and `loadConfigFromStorage` over the browser's
 * local storage. The storage is a map from keys to texts; it may be
 * unavailable altogether (reads and writes throw) or full (writes throw).
 * Both operations catch what is thrown: saving then leaves the items as
 * they were and loading gives no configuration; the console warning each
 * logs on the way is not modelled.
 */
module Storage {
  import opened Wrappers
  import opened Config
  import opened Codec

  const ConfigKey := "scrollbar-config"

  /** What `loadConfigFromStorage` returns for a given storage content. */
  function Loaded(items: map<string, string>, disabled: bool): (r: Option<ScrollbarConfig>)
    ensures r.Some? ==> !disabled && ConfigKey in items && items[ConfigKey] != ""
    ensures disabled || ConfigKey !in items || items[ConfigKey] == "" ==> r.None?
    ensures !disabled && ConfigKey in items && items[ConfigKey] != "" ==> r == Decode(items[ConfigKey])
  {
    if disabled || ConfigKey !in items then None
    else
      var stored := items[ConfigKey];
      if stored == "" then None else Decode(stored)
  }

  /** Loading after the configuration's text was stored gives the configuration back. */
  lemma LoadedStored(items: map<string, string>, c: ScrollbarConfig)
    ensures Loaded(items[ConfigKey := Encode(c)], false) == Some(c)
  {
    DecodeEncode(c);
  }

  /** A stored text that does not parse loads as nothing, just as a missing one does. */
  lemma LoadedUnparsable(items: map<string, string>, text: string)
    requires Decode(text).None?
    ensures Loaded(items[ConfigKey := text], false).None?
  {
  }

  class BrowserStorage {
    var items: map<string, string>
    /** Storage is unavailable: `getItem` and `setItem` throw. */
    var disabled: bool
    /** The quota is used up: `setItem` throws. */
    var quotaExceeded: bool

    constructor (items: map<string, string>, disabled: bool, quotaExceeded: bool)
      ensures this.items == items && this.disabled == disabled && this.quotaExceeded == quotaExceeded
    {
      this.items := items;
      this.disabled := disabled;
      this.quotaExceeded := quotaExceeded;
    }

    predicate Writable()
      reads this
    {
      !disabled && !quotaExceeded
    }

    /** `localStorage.setItem(key, value)`; false stands for the exception it throws. */
    method SetItem(key: string, value: string) returns (ok: bool)
      modifies this`items
      ensures ok == Writable()
      ensures items == if ok then old(items)[key := value] else old(items)
    {
      if disabled || quotaExceeded {
        return false;
      }
      items := items[key := value];
      return true;
    }

    /** `localStorage.getItem(key)`: None for a missing key; `ok` false stands for the exception. */
    method GetItem(key: string) returns (stored: Option<string>, ok: bool)
      ensures ok == !disabled
      ensures ok ==> (stored.Some? <==> key in items) && (stored.Some? ==> stored.value == items[key])
    {
      if disabled {
        return None, false;
      }
      if key in items {
        return Some(items[key]), true;
      }
      return None, true;
    }

    /** `saveConfigToStorage(c)`: the error of a failed write is swallowed. */
    method SaveConfig(c: ScrollbarConfig)
      modifies this`items
      ensures items == if Writable() then old(items)[ConfigKey := Encode(c)] else old(items)
      ensures Writable() ==> Loaded(items, disabled) == Some(c)
    {
      var _ := SetItem(ConfigKey, Encode(c));
      if Writable() {
        LoadedStored(old(items), c);
      }
    }

    /** `loadConfigFromStorage()`. */
    method LoadConfig() returns (r: Option<ScrollbarConfig>)
      ensures r == Loaded(items, disabled)
    {
      var stored, ok := GetItem(ConfigKey);
      if !ok || stored.None? || stored.value == "" {
        return None;
      }
      return Decode(stored.value);
    }
  }
}
