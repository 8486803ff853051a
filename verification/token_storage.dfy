/**
 * The device key-value store (AsyncStorage) and `tokenStorage`
 * (`app/services/tokenStorage.ts`), which keeps the session token under one key.
 * A storage failure is an input flag of each call.
 */
module TokenStorage {
  import opened Common

  /** The value stored under `key`, or `null` (None). */
  function Lookup(items: map<string, string>, key: string): (r: Option<string>)
    ensures r.Some? <==> key in items
    ensures r.Some? ==> r.value == items[key]
  {
    if key in items then Some(items[key]) else None
  }

  /** AsyncStorage: string values under string keys, changed in place. */
  class KeyValueStore {
    var items: map<string, string>

    constructor ()
      ensures items == map[]
    {
      items := map[];
    }

    function GetItem(key: string): Option<string>
      reads this
    {
      Lookup(items, key)
    }

    method SetItem(key: string, value: string)
      modifies this
      ensures items == old(items)[key := value]
    {
      items := items[key := value];
    }

    method RemoveItem(key: string)
      modifies this
      ensures items == old(items) - {key}
    {
      items := items - {key};
    }
  }

  const TokenKey := "auth_token"
  const SaveError := "Impossible de sauvegarder le token"
  const RemoveError := "Impossible de supprimer le token"

  /** How a write ends: normally, or with an error thrown to the caller. */
  datatype Outcome = Done | Thrown(message: string)

  /** `saveToken`: writes the token under its key; a failed write throws the save message. */
  method SaveToken(store: KeyValueStore, token: string, fails: bool) returns (r: Outcome)
    modifies store
    ensures fails ==> r == Thrown(SaveError) && store.items == old(store.items)
    ensures !fails ==> r == Done && store.items == old(store.items)[TokenKey := token]
  {
    if fails {
      r := Thrown(SaveError);
    } else {
      store.SetItem(TokenKey, token);
      r := Done;
    }
  }

  /** `getToken`: the stored token, or `null` when nothing is stored or the read fails. */
  method GetToken(store: KeyValueStore, fails: bool) returns (t: Option<string>)
    ensures fails ==> t.None?
    ensures !fails ==> (t.Some? <==> TokenKey in store.items)
    ensures t.Some? ==> TokenKey in store.items && t.value == store.items[TokenKey]
  {
    if fails {
      t := None;
    } else {
      t := store.GetItem(TokenKey);
    }
  }

  /** `removeToken`: deletes the key; a failed delete throws the remove message. */
  method RemoveToken(store: KeyValueStore, fails: bool) returns (r: Outcome)
    modifies store
    ensures fails ==> r == Thrown(RemoveError) && store.items == old(store.items)
    ensures !fails ==> r == Done && store.items == old(store.items) - {TokenKey}
  {
    if fails {
      r := Thrown(RemoveError);
    } else {
      store.RemoveItem(TokenKey);
      r := Done;
    }
  }

  /** `hasToken`: whether a value is stored under the key; false when the read fails. */
  method HasToken(store: KeyValueStore, fails: bool) returns (b: bool)
    ensures b <==> !fails && TokenKey in store.items
  {
    if fails {
      b := false;
    } else {
      var t := store.GetItem(TokenKey);
      b := t.Some?;
    }
  }

  /** A saved token is read back; after a removal nothing is read; other keys are untouched. */
  method SaveGetRemove(store: KeyValueStore, token: string, other: string) returns (afterSave: Option<string>, afterRemove: Option<string>, present: bool)
    requires other != TokenKey
    modifies store
    ensures afterSave == Some(token)
    ensures afterRemove.None? && !present
    ensures Lookup(store.items, other) == Lookup(old(store.items), other)
  {
    var _ := SaveToken(store, token, false);
    afterSave := GetToken(store, false);
    var _ := RemoveToken(store, false);
    afterRemove := GetToken(store, false);
    present := HasToken(store, false);
  }
}
