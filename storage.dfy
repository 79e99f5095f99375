/** The browser's `localStorage` as the pages use it: a map from keys to
    strings, and JavaScript truthiness of what `getItem` returns. */
module LocalStorage {

  type Store = map<string, string>

  const AccessKey: string := "accessToken"
  const RefreshKey: string := "refreshToken"

  /** `if (localStorage.getItem(key))`: stored and not the empty string. */
  predicate HasToken(st: Store, key: string) {
    key in st && st[key] != ""
  }

  function SetItem(st: Store, key: string, value: string): (r: Store)
    ensures key in r && r[key] == value
    ensures forall k :: k in st && k != key ==> k in r && r[k] == st[k]
    ensures r.Keys == st.Keys + {key}
  {
    st[key := value]
  }

  function RemoveItem(st: Store, key: string): (r: Store)
    ensures key !in r
    ensures forall k :: k in st && k != key ==> k in r && r[k] == st[k]
    ensures r.Keys == st.Keys - {key}
  {
    st - {key}
  }
}
