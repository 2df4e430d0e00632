/**
 * The gRPC boundary: each handler checks the one required request field,
 * calls the service, and maps the service's error to a status code. A handler
 * is modelled as a function of the request and of what the service returned
 * for it; when the request is rejected up front, the result does not depend
 * on the service's reply, because the service is never called.
 */
module GrpcApi {
  import Errors
  import MapStore
  import Shortener

  /**
   * The gRPC status codes the handlers use; in the gRPC status-code table
   * they are OK = 0, INVALID_ARGUMENT = 3, NOT_FOUND = 5 and INTERNAL = 13.
   */
  datatype Code = OK | InvalidArgument | NotFound | Internal

  /** The fixed texts a status may carry: the handler package's own sentinel errors. */
  datatype Message = ErrUrlEmpty | ErrBadUrl | ErrAliasEmpty | ErrNotFound | ErrInternal

  datatype Status = Status(code: Code, message: Message)

  /** A handler's result: a response, or a status error. */
  datatype Reply<T> = Ok(response: T) | Rejected(status: Status)

  datatype SaveUrlRequest = SaveUrlRequest(url: string)
  datatype SaveUrlResponse = SaveUrlResponse(alias: string)
  datatype GetUrlRequest = GetUrlRequest(alias: string)
  datatype GetUrlResponse = GetUrlResponse(url: string)
  datatype DeleteUrlRequest = DeleteUrlRequest(alias: string)
  datatype DeleteUrlResponse = DeleteUrlResponse(status: string)

  /**
   * `SaveUrl`: an empty URL is an invalid argument before the service is
   * called; the service's bad-URL error is an invalid argument; every other
   * error is internal, with the generic text only.
   */
  function SaveUrl(req: SaveUrlRequest, alias: string, err: Errors.Option<Errors.Error>): (r: Reply<SaveUrlResponse>)
    ensures req.url == "" ==> r == Rejected(Status(InvalidArgument, ErrUrlEmpty))
    ensures req.url != "" && err == Errors.None ==> r == Ok(SaveUrlResponse(alias))
    ensures req.url != "" && err != Errors.None ==>
              && r.Rejected?
              && (r.status.code == InvalidArgument <==> Errors.Is(err.value, Errors.ErrBadUrl))
    ensures req.url != "" && err != Errors.None && Errors.Is(err.value, Errors.ErrBadUrl) ==>
              r == Rejected(Status(InvalidArgument, ErrBadUrl))
    ensures r.Rejected? && r.status.code != InvalidArgument ==> r.status == Status(Internal, ErrInternal)
  {
    if req.url == "" then Rejected(Status(InvalidArgument, ErrUrlEmpty))
    else if err != Errors.None then
      if Errors.Is(err.value, Errors.ErrBadUrl) then Rejected(Status(InvalidArgument, ErrBadUrl))
      else Rejected(Status(Internal, ErrInternal))
    else Ok(SaveUrlResponse(alias))
  }

  /**
   * The mapping `GetUrl` and `DeleteUrl` share: the service's "not found" is
   * NOT_FOUND, anything else INTERNAL with the generic text.
   */
  function LookupStatus(e: Errors.Error): (s: Status)
    ensures s.code == NotFound <==> Errors.Is(e, Errors.ErrServiceNotFound)
    ensures s.code == NotFound ==> s.message == ErrNotFound
    ensures s.code != NotFound ==> s == Status(Internal, ErrInternal)
  {
    if Errors.Is(e, Errors.ErrServiceNotFound) then Status(NotFound, ErrNotFound)
    else Status(Internal, ErrInternal)
  }

  /** `GetUrl`: an empty alias is an invalid argument before the service is called. */
  function GetUrl(req: GetUrlRequest, url: string, err: Errors.Option<Errors.Error>): (r: Reply<GetUrlResponse>)
    ensures req.alias == "" ==> r == Rejected(Status(InvalidArgument, ErrAliasEmpty))
    ensures req.alias != "" && err == Errors.None ==> r == Ok(GetUrlResponse(url))
    ensures req.alias != "" && err != Errors.None ==> r == Rejected(LookupStatus(err.value))
    ensures r.Rejected? ==> r.status.code in {InvalidArgument, NotFound, Internal}
  {
    if req.alias == "" then Rejected(Status(InvalidArgument, ErrAliasEmpty))
    else if err != Errors.None then Rejected(LookupStatus(err.value))
    else Ok(GetUrlResponse(url))
  }

  /** `DeleteUrl`: like `GetUrl`, answering status "OK" on success. */
  function DeleteUrl(req: DeleteUrlRequest, err: Errors.Option<Errors.Error>): (r: Reply<DeleteUrlResponse>)
    ensures req.alias == "" ==> r == Rejected(Status(InvalidArgument, ErrAliasEmpty))
    ensures req.alias != "" && err == Errors.None ==> r == Ok(DeleteUrlResponse("OK"))
    ensures req.alias != "" && err != Errors.None ==> r == Rejected(LookupStatus(err.value))
    ensures r.Rejected? ==> r.status.code in {InvalidArgument, NotFound, Internal}
  {
    if req.alias == "" then Rejected(Status(InvalidArgument, ErrAliasEmpty))
    else if err != Errors.None then Rejected(LookupStatus(err.value))
    else Ok(DeleteUrlResponse("OK"))
  }

  /**
   * Through the whole stack: an alias the save handler returns resolves, via
   * the get handler, to the URL that was saved.
   */
  lemma ShortenThenResolve(parse: string -> Errors.Option<Shortener.UrlParts>, m: MapStore.Store,
                           url: string, answers: seq<Shortener.Generated>)
    requires Shortener.Accepts(parse, url) ==> Shortener.Halts(m, url, answers)
    ensures var run := Shortener.SaveUrlSpec(parse, m, url, answers);
            var saved := SaveUrl(SaveUrlRequest(url), run.alias, run.err);
            saved.Ok? ==>
              var found := Shortener.GetUrlSpec(run.store, saved.response.alias);
              GetUrl(GetUrlRequest(saved.response.alias), found.0, found.1) == Ok(GetUrlResponse(url))
  {
  }

  /** Through the whole stack: after a successful delete, the get handler answers NOT_FOUND. */
  lemma DeleteThenResolve(m: MapStore.Store, alias: string)
    ensures var deleted := Shortener.DeleteUrlSpec(m, alias);
            DeleteUrl(DeleteUrlRequest(alias), deleted.1).Ok? ==>
              var found := Shortener.GetUrlSpec(deleted.0, alias);
              GetUrl(GetUrlRequest(alias), found.0, found.1) == Rejected(Status(NotFound, ErrNotFound))
  {
  }

  /** Through the whole stack: a non-empty URL the validation refuses is INVALID_ARGUMENT with the bad-URL text. */
  lemma RefusedUrlIsInvalidArgument(parse: string -> Errors.Option<Shortener.UrlParts>, m: MapStore.Store,
                                    url: string, answers: seq<Shortener.Generated>)
    requires url != "" && !Shortener.Accepts(parse, url)
    ensures var run := Shortener.SaveUrlSpec(parse, m, url, answers);
            SaveUrl(SaveUrlRequest(url), run.alias, run.err) == Rejected(Status(InvalidArgument, ErrBadUrl))
            && run.store == m && run.used == 0
  {
  }
}
