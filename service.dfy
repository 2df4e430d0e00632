/**
 * The URL shortening service: validates a URL, then generates a candidate
 * alias and offers it to the storage, generating a new one each time the
 * storage answers that the alias exists. Lookup and delete pass through to the
 * storage and translate its "not found" into the service's own.
 *
 * The alias generator is injected: a `Provider` replays, in order, the answers
 * its `RandomString` gives. The retry loop has no cap, so it ends exactly when
 * some answer does not collide; `Halts` states that such an answer is among
 * those supplied.
 */
module Shortener {
  import opened Errors
  import MapStore
  import RandomLib

  type Store = MapStore.Store

  /** The length of every alias the service asks for. */
  const AliasLength: int := 10

  /** The parts of a parsed request URI the validation looks at. */
  datatype UrlParts = UrlParts(scheme: string, host: string)

  /** One answer of the generator: the `(string, error)` pair `RandomString` returns. */
  datatype Generated = Generated(alias: string, err: Option<Error>)

  /** The validation: the URI parses and has a non-empty scheme and a non-empty host. */
  predicate Accepts(parse: string -> Option<UrlParts>, url: string) {
    parse(url).Some? && parse(url).value.scheme != "" && parse(url).value.host != ""
  }

  /** An answer that sends the loop round again: a generated alias the storage reports as existing. */
  predicate Collides(m: Store, url: string, g: Generated) {
    g.err == None && MapStore.Save(m, g.alias, url).1.Some?
    && Is(MapStore.Save(m, g.alias, url).1.value, ErrExistAlias)
  }

  /** Some answer ends the loop. */
  predicate Halts(m: Store, url: string, answers: seq<Generated>) {
    exists k :: 0 <= k < |answers| && !Collides(m, url, answers[k])
  }

  /** The position of the answer that ends the loop: the first that does not collide. */
  function FirstStop(m: Store, url: string, answers: seq<Generated>): (k: nat)
    requires Halts(m, url, answers)
    ensures k < |answers| && !Collides(m, url, answers[k])
    ensures forall j :: 0 <= j < k ==> Collides(m, url, answers[j])
    decreases |answers|
  {
    if !Collides(m, url, answers[0]) then 0
    else
      var w :| 0 <= w < |answers| && !Collides(m, url, answers[w]);
      assert answers[1..][w - 1] == answers[w];
      1 + FirstStop(m, url, answers[1..])
  }

  /** What one call of `SaveUrl` produces: the alias, the error, the new storage and the answers it consumed. */
  datatype SaveRun = SaveRun(alias: string, err: Option<Error>, store: Store, used: nat)

  /**
   * `SaveUrl` on storage `m` with the generator answering `answers`.
   * A rejected URL consumes no answer and touches nothing; otherwise the
   * answers before the stopping one all collided, and the stopping one is
   * either stored (and then resolves to `url`) or its error is returned
   * wrapped, with the storage unchanged.
   */
  function SaveUrlSpec(parse: string -> Option<UrlParts>, m: Store, url: string, answers: seq<Generated>): (r: SaveRun)
    requires Accepts(parse, url) ==> Halts(m, url, answers)
    ensures !Accepts(parse, url) ==> r == SaveRun("", Some(ErrBadUrl), m, 0)
    ensures Accepts(parse, url) ==> 1 <= r.used <= |answers|
    ensures Accepts(parse, url) ==> forall j :: 0 <= j < r.used - 1 ==> Collides(m, url, answers[j])
    ensures Accepts(parse, url) ==> !Collides(m, url, answers[r.used - 1])
    ensures r.err == None ==> Accepts(parse, url) && r.alias == answers[r.used - 1].alias
    ensures r.err == None ==> r.alias != "" && r.alias !in m && r.store == m[r.alias := url]
    ensures r.err == None ==> MapStore.Get(r.store, r.alias) == (url, None)
    ensures r.err != None ==> r.alias == "" && r.store == m
    ensures Accepts(parse, url) && answers[r.used - 1].err != None ==>
              r == SaveRun("", Some(Wrapped(ServiceSaveUrl, answers[r.used - 1].err.value)), m, r.used)
    ensures r.err == None <==>
              && Accepts(parse, url) && answers[r.used - 1].err == None
              && MapStore.Save(m, answers[r.used - 1].alias, url).1 == None
    ensures r.err != None && Accepts(parse, url) && answers[r.used - 1].err == None ==>
              var refused := MapStore.Save(m, answers[r.used - 1].alias, url).1;
              refused != None && !Is(refused.value, ErrExistAlias)
              && r.err == Some(Wrapped(ServiceSaveUrl, refused.value))
    ensures MapStore.Wellformed(m) ==> MapStore.Wellformed(r.store)
  {
    if !Accepts(parse, url) then SaveRun("", Some(ErrBadUrl), m, 0)
    else
      var k := FirstStop(m, url, answers);
      var g := answers[k];
      if g.err != None then SaveRun("", Some(Wrapped(ServiceSaveUrl, g.err.value)), m, k + 1)
      else
        var saved := MapStore.Save(m, g.alias, url);
        if saved.1 == None then SaveRun(g.alias, None, saved.0, k + 1)
        else SaveRun("", Some(Wrapped(ServiceSaveUrl, saved.1.value)), m, k + 1)
  }

  /**
   * The translation `GetUrl` and `DeleteUrl` apply to a storage error: the
   * storage's "not found" becomes the service's, anything else is wrapped
   * with the operation's label. No storage sentinel leaves the service bare.
   */
  function Translate(op: Op, e: Error): (r: Error)
    ensures Is(e, ErrStorageNotFound) ==> r == ErrServiceNotFound
    ensures !Is(e, ErrStorageNotFound) ==> r == Wrapped(op, e) && Root(r) == Root(e)
    ensures r.Base? ==> r == ErrServiceNotFound
    ensures Is(r, ErrServiceNotFound) <==> Is(e, ErrStorageNotFound) || Is(e, ErrServiceNotFound)
  {
    if Is(e, ErrStorageNotFound) then ErrServiceNotFound else Wrapped(op, e)
  }

  /** `GetUrl`: the stored URL, the service's "not found", or the storage's empty-alias error wrapped. */
  function GetUrlSpec(m: Store, alias: string): (r: (string, Option<Error>))
    ensures alias != "" && alias in m ==> r == (m[alias], None)
    ensures alias != "" && alias !in m ==> r == ("", Some(ErrServiceNotFound))
    ensures alias == "" ==> r == ("", Some(Wrapped(ServiceGetUrl, ErrAliasIsEmpty)))
  {
    var found := MapStore.Get(m, alias);
    if found.1 == None then (found.0, None) else ("", Some(Translate(ServiceGetUrl, found.1.value)))
  }

  /** `DeleteUrl`: the alias removed, the service's "not found", or the empty-alias error wrapped. */
  function DeleteUrlSpec(m: Store, alias: string): (r: (Store, Option<Error>))
    ensures alias != "" && alias in m ==> r == (m - {alias}, None)
    ensures alias != "" && alias !in m ==> r == (m, Some(ErrServiceNotFound))
    ensures alias == "" ==> r == (m, Some(Wrapped(ServiceDeleteUrl, ErrAliasIsEmpty)))
  {
    var deleted := MapStore.Delete(m, alias);
    if deleted.1 == None then (deleted.0, None) else (m, Some(Translate(ServiceDeleteUrl, deleted.1.value)))
  }

  /** An answer of the library generator asked for `AliasLength`: no error, ten alphabet characters. */
  predicate WellFormedAnswer(g: Generated) {
    g.err == None && |g.alias| == AliasLength && forall c :: c in g.alias ==> RandomLib.IsAlphanumeric(c)
  }

  /**
   * With the library generator every saved alias has ten alphanumeric
   * characters, and a valid non-empty URL is never refused.
   */
  lemma SavedAliasShape(parse: string -> Option<UrlParts>, m: Store, url: string, answers: seq<Generated>)
    requires Accepts(parse, url) ==> Halts(m, url, answers)
    requires forall k :: 0 <= k < |answers| ==> WellFormedAnswer(answers[k])
    requires url != ""
    ensures var r := SaveUrlSpec(parse, m, url, answers);
            && (r.err == None ==> |r.alias| == AliasLength && forall c :: c in r.alias ==> RandomLib.IsAlphanumeric(c))
            && (r.err != None ==> r.err == Some(ErrBadUrl))
  {
  }

  /** The answers `RandomString(AliasLength)` of the library generator gives are well formed. */
  lemma LibraryAnswersAreWellFormed(source: nat -> RandomLib.Index, from: nat)
    ensures WellFormedAnswer(Generated(RandomLib.Spell(source, from, AliasLength), None))
  {
    RandomLib.SpellIsAlphanumeric(source, from, AliasLength);
  }

  /** Saving the same URL twice gives two different aliases, each resolving to it. */
  lemma SaveTwiceGivesDistinctAliases(parse: string -> Option<UrlParts>, m: Store, url: string,
                                      first: seq<Generated>, second: seq<Generated>)
    requires Accepts(parse, url) && Halts(m, url, first)
    requires Halts(SaveUrlSpec(parse, m, url, first).store, url, second)
    ensures var r1 := SaveUrlSpec(parse, m, url, first);
            var r2 := SaveUrlSpec(parse, r1.store, url, second);
            r1.err == None && r2.err == None ==>
              && r1.alias != r2.alias
              && GetUrlSpec(r2.store, r1.alias) == (url, None)
              && GetUrlSpec(r2.store, r2.alias) == (url, None)
  {
  }

  /** A collision then a free alias: the second alias is the one returned. */
  lemma RetriesAfterCollision(parse: string -> Option<UrlParts>, m: Store, url: string, taken: string, free: string)
    requires Accepts(parse, url) && url != ""
    requires taken != "" && taken in m && free != "" && free !in m
    ensures var answers := [Generated(taken, None), Generated(free, None)];
            && Halts(m, url, answers)
            && var r := SaveUrlSpec(parse, m, url, answers);
            r.err == None && r.alias == free && r.used == 2
  {
    var answers := [Generated(taken, None), Generated(free, None)];
    assert Collides(m, url, answers[0]);
    assert !Collides(m, url, answers[1]);
  }

  /**
   * A generator double: `answers` are the replies still to come, and
   * `asked` records the length of every request made.
   */
  class Provider {
    var answers: seq<Generated>
    var asked: seq<int>

    constructor (answers: seq<Generated>)
      ensures this.answers == answers && asked == []
    {
      this.answers := answers;
      asked := [];
    }

    method RandomString(length: int) returns (alias: string, err: Option<Error>)
      requires answers != []
      modifies this
      ensures Generated(alias, err) == old(answers[0])
      ensures answers == old(answers[1..]) && asked == old(asked) + [length]
    {
      alias, err := answers[0].alias, answers[0].err;
      answers := answers[1..];
      asked := asked + [length];
    }
  }

  class Service {
    const storage: MapStore.MapStorage
    const random: Provider
    /** `url.ParseRequestURI`, reduced to what the validation reads. */
    const parse: string -> Option<UrlParts>

    constructor (storage: MapStore.MapStorage, random: Provider, parse: string -> Option<UrlParts>)
      ensures this.storage == storage && this.random == random && this.parse == parse
    {
      this.storage := storage;
      this.random := random;
      this.parse := parse;
    }

    /**
     * Validate, then generate and insert until the storage accepts an alias;
     * every request to the generator is for `AliasLength` characters.
     */
    method SaveUrl(urlStr: string) returns (alias: string, err: Option<Error>)
      requires Accepts(parse, urlStr) ==> Halts(storage.store, urlStr, random.answers)
      modifies storage, random
      ensures var run := SaveUrlSpec(parse, old(storage.store), urlStr, old(random.answers));
              && alias == run.alias && err == run.err && storage.store == run.store
              && random.answers == old(random.answers)[run.used..]
              && random.asked == old(random.asked) + seq(run.used, _ => AliasLength)
    {
      if !Accepts(parse, urlStr) {
        assert random.answers == random.answers[0..];
        assert random.asked == random.asked + seq(0, _ => AliasLength);
        return "", Some(ErrBadUrl);
      }
      ghost var m0, a0, asked0 := storage.store, random.answers, random.asked;
      ghost var stop := FirstStop(m0, urlStr, a0);
      ghost var k := 0;
      while true
        invariant 0 <= k <= stop
        invariant storage.store == m0
        invariant random.answers == a0[k..]
        invariant random.asked == asked0 + seq(k, _ => AliasLength)
        decreases stop - k
      {
        var candidate, genErr := random.RandomString(AliasLength);
        assert random.asked == asked0 + seq(k + 1, _ => AliasLength);
        if genErr != None {
          return "", Some(Wrapped(ServiceSaveUrl, genErr.value));
        }
        var saveErr := storage.SaveURL(candidate, urlStr);
        if saveErr != None {
          if Is(saveErr.value, ErrExistAlias) {
            assert Collides(m0, urlStr, a0[k]);
            k := k + 1;
            assert random.answers == a0[k..];
            continue;
          }
          return "", Some(Wrapped(ServiceSaveUrl, saveErr.value));
        }
        return candidate, None;
      }
    }

    method GetUrl(alias: string) returns (url: string, err: Option<Error>)
      ensures (url, err) == GetUrlSpec(storage.store, alias)
    {
      var found, storageErr := storage.GetUrl(alias);
      if storageErr != None {
        return "", Some(Translate(ServiceGetUrl, storageErr.value));
      }
      return found, None;
    }

    method DeleteUrl(alias: string) returns (err: Option<Error>)
      modifies storage
      ensures (storage.store, err) == DeleteUrlSpec(old(storage.store), alias)
    {
      var storageErr := storage.DeleteURL(alias);
      if storageErr != None {
        return Some(Translate(ServiceDeleteUrl, storageErr.value));
      }
      return None;
    }
  }
}
