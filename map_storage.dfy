/**
 * The in-memory storage backend: a map from alias to URL with
 * create-if-absent save, lookup and delete. The three functions `Save`, `Get`
 * and `Delete` are the storage contract on a map value; the `MapStorage`
 * class updates its `store` field exactly as they say.
 */
module MapStore {
  import opened Errors

  type Store = map<string, string>

  /** What every operation keeps: the empty alias is never a key and no stored URL is empty. */
  predicate Wellformed(m: Store) {
    "" !in m && forall a :: a in m ==> m[a] != ""
  }

  /** Looking an alias up: its URL, `ErrStorageNotFound` when absent, `ErrAliasIsEmpty` for "". */
  function Get(m: Store, alias: string): (r: (string, Option<Error>))
    ensures r.1 == None <==> alias != "" && alias in m
    ensures r.1 == None ==> r.0 == m[alias]
    ensures r.1 != None ==> r.0 == ""
    ensures r.1 == Some(ErrAliasIsEmpty) <==> alias == ""
    ensures r.1 == Some(ErrStorageNotFound) <==> alias != "" && alias !in m
  {
    if alias == "" then ("", Some(ErrAliasIsEmpty))
    else if alias !in m then ("", Some(ErrStorageNotFound))
    else (m[alias], None)
  }

  /**
   * Create-if-absent: the alias check comes first, then the URL check, then
   * the existence check; only a fresh alias is added, and nothing else moves.
   */
  function Save(m: Store, alias: string, url: string): (r: (Store, Option<Error>))
    ensures r.1 == Some(ErrAliasIsEmpty) <==> alias == ""
    ensures r.1 == Some(ErrUrlIsEmpty) <==> alias != "" && url == ""
    ensures r.1 == Some(ErrExistAlias) <==> alias != "" && url != "" && alias in m
    ensures r.1 == None <==> alias != "" && url != "" && alias !in m
    ensures r.1 != None ==> r.0 == m
    ensures r.1 == None ==> r.0.Keys == m.Keys + {alias}
    ensures r.1 == None ==> forall a :: a in m ==> r.0[a] == m[a]
    ensures r.1 == None ==> Get(r.0, alias) == (url, None)
    ensures Wellformed(m) ==> Wellformed(r.0)
  {
    if alias == "" then (m, Some(ErrAliasIsEmpty))
    else if url == "" then (m, Some(ErrUrlIsEmpty))
    else if alias in m then (m, Some(ErrExistAlias))
    else (m[alias := url], None)
  }

  /** Removing an alias: exactly that key goes; an absent alias is `ErrStorageNotFound`. */
  function Delete(m: Store, alias: string): (r: (Store, Option<Error>))
    ensures r.1 == Some(ErrAliasIsEmpty) <==> alias == ""
    ensures r.1 == Some(ErrStorageNotFound) <==> alias != "" && alias !in m
    ensures r.1 == None <==> alias != "" && alias in m
    ensures r.1 != None ==> r.0 == m
    ensures r.1 == None ==> r.0.Keys == m.Keys - {alias}
    ensures r.1 == None ==> forall a :: a in r.0 ==> r.0[a] == m[a]
    ensures r.1 == None ==> Get(r.0, alias) == ("", Some(ErrStorageNotFound))
    ensures Wellformed(m) ==> Wellformed(r.0)
  {
    if alias == "" then (m, Some(ErrAliasIsEmpty))
    else if alias !in m then (m, Some(ErrStorageNotFound))
    else (m - {alias}, None)
  }

  /** Saving an alias that is taken is refused and the first URL stays. */
  lemma SaveExistingKeepsFirstUrl(m: Store, alias: string, first: string, second: string)
    requires Save(m, alias, first).1 == None
    requires second != ""
    ensures var m1 := Save(m, alias, first).0;
            Save(m1, alias, second) == (m1, Some(ErrExistAlias)) && Get(m1, alias) == (first, None)
  {
  }

  /** Save, then look up, then delete, then look up again. */
  lemma SaveGetDeleteGet(m: Store, alias: string, url: string)
    requires Save(m, alias, url).1 == None
    ensures var m1 := Save(m, alias, url).0;
            && Get(m1, alias) == (url, None)
            && Delete(m1, alias).1 == None
            && Get(Delete(m1, alias).0, alias) == ("", Some(ErrStorageNotFound))
            && Delete(m1, alias).0 == m
  {
    var m1 := Save(m, alias, url).0;
    assert Delete(m1, alias).0 == m;
  }

  /** The storage object of the in-memory backend. */
  class MapStorage {
    var store: Store

    ghost predicate Valid()
      reads this
    {
      Wellformed(store)
    }

    constructor ()
      ensures store == map[] && Valid()
    {
      store := map[];
    }

    method SaveURL(alias: string, urlSave: string) returns (err: Option<Error>)
      modifies this
      ensures (store, err) == Save(old(store), alias, urlSave)
      ensures old(Valid()) ==> Valid()
    {
      if alias == "" {
        return Some(ErrAliasIsEmpty);
      }
      if urlSave == "" {
        return Some(ErrUrlIsEmpty);
      }
      if alias in store {
        return Some(ErrExistAlias);
      }
      store := store[alias := urlSave];
      return None;
    }

    method GetUrl(alias: string) returns (url: string, err: Option<Error>)
      ensures (url, err) == Get(store, alias)
    {
      if alias == "" {
        return "", Some(ErrAliasIsEmpty);
      }
      if alias !in store {
        return "", Some(ErrStorageNotFound);
      }
      return store[alias], None;
    }

    method DeleteURL(alias: string) returns (err: Option<Error>)
      modifies this
      ensures (store, err) == Delete(old(store), alias)
      ensures old(Valid()) ==> Valid()
    {
      if alias == "" {
        return Some(ErrAliasIsEmpty);
      }
      if alias !in store {
        return Some(ErrStorageNotFound);
      }
      store := store - {alias};
      return None;
    }

    /** Nothing to release for a map: always succeeds and leaves the contents alone. */
    method Disconnect() returns (err: Option<Error>)
      ensures err == None
    {
      return None;
    }
  }
}
