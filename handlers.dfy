/**
 * The HTTP handlers: each validates its inputs in a fixed order, answers 400
 * on the first failure without touching the store, and otherwise makes one
 * store call and maps its outcome to a status and a body.
 */
module Handlers {
  import opened Options
  import opened Entity
  import opened Table
  import opened Db
  import opened Validation

  const StatusOK := 200
  const StatusCreated := 201
  const StatusTemporaryRedirect := 307
  const StatusBadRequest := 400
  const StatusNotFound := 404
  const StatusConflict := 409
  const StatusInternalServerError := 500

  const NotFoundMessage := "shortlink not found"
  const DuplicateMessage := "shortlink already exists"
  const NoRedirectPrefix := "no redirect for "

  /** The body of a response: `{"error": …}`, an entity, a list, a count, a flag, or a redirect target. */
  datatype Body =
    | NoBody
    | ErrorBody(error: string)
    | EntityBody(link: Shortlink)
    | ListBody(links: seq<Shortlink>)
    | DeletedBody(deleted: nat)
    | FreeBody(free: bool)
    | RedirectBody(location: string)

  datatype Response = Response(status: int, body: Body)

  /** The outcome of binding the JSON request body to a payload type. */
  datatype Bind<T> = Bound(value: T) | BindFailed(message: string)

  const BadShort := Response(StatusBadRequest, ErrorBody(InvalidShortMessage))
  const BadUrl := Response(StatusBadRequest, ErrorBody(InvalidUrlMessage))

  function ServerError(message: string): Response
  {
    Response(StatusInternalServerError, ErrorBody(message))
  }

  /** Every stored shortlink has a valid short and a valid long URL. */
  ghost predicate WellFormed(t: Table, parse: UrlParser)
  {
    forall x :: x in t ==> !InvalidShort(x.short) && !InvalidUrl(x.long, parse)
  }

  /** GET /shortlinks: 200 with every shortlink, 500 on a store error. */
  method HandleGetShortlinks(store: Collection, conn: Conn) returns (resp: Response)
    requires store.Valid()
    ensures !conn.Available? ==> resp == ServerError(conn.message)
    ensures conn.Available? ==> resp == Response(StatusOK, ListBody(store.docs))
  {
    var loaded := store.GetAllShortlinks(conn);
    if loaded.Err? {
      return ServerError(loaded.error.message);
    }
    resp := Response(StatusOK, ListBody(loaded.value));
  }

  /** GET /shortlinks/:short: 400 on a bad short, 404 when absent, 200 with the entity. */
  method HandleGetShortlink(store: Collection, short: string, conn: Conn) returns (resp: Response)
    requires store.Valid()
    ensures InvalidShort(short) ==> resp == BadShort
    ensures !InvalidShort(short) && !conn.Available? ==> resp == ServerError(conn.message)
    ensures !InvalidShort(short) && conn.Available? ==>
      match FindOne(store.docs, short)
      case None => resp == Response(StatusNotFound, ErrorBody(NotFoundMessage))
      case Some(d) => resp == Response(StatusOK, EntityBody(d))
  {
    if InvalidShort(short) {
      return BadShort;
    }
    var loaded := store.GetShortlinkByShort(short, conn);
    if loaded.Err? {
      if loaded.error.NotFound? {
        return Response(StatusNotFound, ErrorBody(NotFoundMessage));
      }
      return ServerError(loaded.error.message);
    }
    resp := Response(StatusOK, EntityBody(loaded.value));
  }

  /** A create request passes validation: the body binds, then the short, then the URL are valid. */
  predicate CreateAccepted(body: Bind<Shortlink>, parse: UrlParser)
  {
    body.Bound? && !InvalidShort(body.value.short) && !InvalidUrl(body.value.long, parse)
  }

  /**
   * POST /shortlinks: 400 on a body that does not bind, then on a bad short,
   * then on a bad URL (only one 400); 409 when the short is taken; 201 after
   * storing the stamped shortlink; 500 when the store call fails, in which
   * case the shortlink is stored if the failure came after the insert.
   */
  method HandleCreateShortlink(store: Collection, body: Bind<Shortlink>, parse: UrlParser,
                               newId: ObjectId, createdAt: Time, updatedAt: Time, conn: Conn)
    returns (resp: Response)
    requires store.Valid()
    modifies store
    ensures store.Valid()
    ensures !CreateAccepted(body, parse) ==> store.docs == old(store.docs)
    ensures body.BindFailed? ==> resp == Response(StatusBadRequest, ErrorBody(body.message))
    ensures body.Bound? && InvalidShort(body.value.short) ==> resp == BadShort
    ensures body.Bound? && !InvalidShort(body.value.short) && InvalidUrl(body.value.long, parse) ==> resp == BadUrl
    ensures CreateAccepted(body, parse) && !conn.Available? ==> resp == ServerError(conn.message)
    ensures CreateAccepted(body, parse) && conn.Failing? ==> store.docs == old(store.docs)
    ensures CreateAccepted(body, parse) && !conn.Failing? ==>
      var stamped := body.value.(id := newId, createdAt := createdAt, updatedAt := updatedAt);
      if Holds(old(store.docs), body.value.short)
      then (conn.Available? ==> resp == Response(StatusConflict, ErrorBody(DuplicateMessage)))
           && store.docs == old(store.docs)
      else (conn.Available? ==> resp == Response(StatusCreated, NoBody))
           && multiset(store.docs) == multiset(old(store.docs)) + multiset{stamped}
    ensures old(WellFormed(store.docs, parse)) ==> WellFormed(store.docs, parse)
  {
    if body.BindFailed? {
      return Response(StatusBadRequest, ErrorBody(body.message));
    }
    var shortlink := body.value;
    if InvalidShort(shortlink.short) {
      return BadShort;
    }
    if InvalidUrl(shortlink.long, parse) {
      return BadUrl;
    }
    ghost var stamped := shortlink.(id := newId, createdAt := createdAt, updatedAt := updatedAt);
    var created := store.Create(shortlink, newId, createdAt, updatedAt, conn);
    assert forall x :: x in store.docs ==> x in old(store.docs) || x == stamped by {
      forall x | x in store.docs ensures x in old(store.docs) || x == stamped {
        assert x in multiset(store.docs);
      }
    }
    if created.Err? {
      if created.error.Duplicate? {
        return Response(StatusConflict, ErrorBody(DuplicateMessage));
      }
      return ServerError(created.error.message);
    }
    resp := Response(StatusCreated, NoBody);
  }

  /** An update request passes validation: old short, then body, then new short, then URL. */
  predicate UpdateAccepted(short: string, body: Bind<ShortlinkUpdate>, parse: UrlParser)
  {
    !InvalidShort(short) && body.Bound? && !InvalidShort(body.value.short) && !InvalidUrl(body.value.long, parse)
  }

  /**
   * PUT /shortlinks/:short: 400 on the first failing check; 409 when the new
   * short belongs to another shortlink, 404 when the old one is absent; 200
   * with the entity as it is after the update; 500 when the store call fails,
   * in which case the update stands if the failure came after it.
   */
  method HandleUpdateShortlink(store: Collection, short: string, body: Bind<ShortlinkUpdate>,
                               parse: UrlParser, now: Time, conn: Conn)
    returns (resp: Response)
    requires store.Valid()
    modifies store
    ensures store.Valid()
    ensures !UpdateAccepted(short, body, parse) ==> store.docs == old(store.docs)
    ensures InvalidShort(short) ==> resp == BadShort
    ensures !InvalidShort(short) && body.BindFailed? ==> resp == Response(StatusBadRequest, ErrorBody(body.message))
    ensures !InvalidShort(short) && body.Bound? && InvalidShort(body.value.short) ==> resp == BadShort
    ensures !InvalidShort(short) && body.Bound? && !InvalidShort(body.value.short) && InvalidUrl(body.value.long, parse) ==>
      resp == BadUrl
    ensures UpdateAccepted(short, body, parse) && !conn.Available? ==> resp == ServerError(conn.message)
    ensures UpdateAccepted(short, body, parse) && conn.Failing? ==> store.docs == old(store.docs)
    ensures UpdateAccepted(short, body, parse) && !conn.Failing? ==>
      match FindOneAndSet(old(store.docs), short, body.value.(updatedAt := now))
      case Ok((t, d)) => (conn.Available? ==> resp == Response(StatusOK, EntityBody(d))) && store.docs == t
      case Err(e) =>
        store.docs == old(store.docs) &&
        (conn.Available? ==>
           resp == (if e.Duplicate? then Response(StatusConflict, ErrorBody(DuplicateMessage))
                    else Response(StatusNotFound, ErrorBody(NotFoundMessage))))
    ensures old(WellFormed(store.docs, parse)) ==> WellFormed(store.docs, parse)
  {
    if InvalidShort(short) {
      return BadShort;
    }
    if body.BindFailed? {
      return Response(StatusBadRequest, ErrorBody(body.message));
    }
    var shortlink := body.value;
    if InvalidShort(shortlink.short) {
      return BadShort;
    }
    if InvalidUrl(shortlink.long, parse) {
      return BadUrl;
    }
    ghost var before := store.docs;
    var saved := store.Update(short, shortlink, now, conn);
    assert WellFormed(before, parse) ==> WellFormed(store.docs, parse) by {
      if WellFormed(before, parse) && !conn.Failing? {
        match FindOneAndSet(before, short, shortlink.(updatedAt := now)) {
          case Ok((t, d)) =>
            forall x | x in store.docs ensures !InvalidShort(x.short) && !InvalidUrl(x.long, parse) {
              assert x in multiset(t);
              if x != d {
                assert x in multiset(before) - multiset{FindOne(before, short).value};
              }
            }
          case Err(_) =>
        }
      }
    }
    if saved.Err? {
      if saved.error.Duplicate? {
        return Response(StatusConflict, ErrorBody(DuplicateMessage));
      }
      if saved.error.NotFound? {
        return Response(StatusNotFound, ErrorBody(NotFoundMessage));
      }
      return ServerError(saved.error.message);
    }
    resp := Response(StatusOK, EntityBody(saved.value));
  }

  /**
   * DELETE /shortlinks/:short: 400 on a bad short, otherwise 200 with the
   * number removed, even 0; 500 when the store call fails, in which case the
   * deletion stands if the failure came after it.
   */
  method HandleDeleteShortlink(store: Collection, short: string, ghost parse: UrlParser, conn: Conn)
    returns (resp: Response)
    requires store.Valid()
    modifies store
    ensures store.Valid()
    ensures InvalidShort(short) ==> resp == BadShort && store.docs == old(store.docs)
    ensures !InvalidShort(short) && !conn.Available? ==> resp == ServerError(conn.message)
    ensures !InvalidShort(short) && conn.Failing? ==> store.docs == old(store.docs)
    ensures !InvalidShort(short) && !conn.Failing? ==> store.docs == DeleteMany(old(store.docs), short).0
    ensures !InvalidShort(short) && conn.Available? ==>
      resp == Response(StatusOK, DeletedBody(DeleteMany(old(store.docs), short).1))
    ensures old(WellFormed(store.docs, parse)) ==> WellFormed(store.docs, parse)
  {
    if InvalidShort(short) {
      return BadShort;
    }
    if WellFormed(store.docs, parse) {
      DeleteKeepsWellFormed(store.docs, short, parse);
    }
    var deleted := store.Delete(short, conn);
    if deleted.Err? {
      return ServerError(deleted.error.message);
    }
    resp := Response(StatusOK, DeletedBody(deleted.value));
  }

  /**
   * GET /go/:short: 400 on a bad short, 404 "no redirect for <short>" when
   * absent, else 307 to the long URL; 500 when the store call fails, in which
   * case the access is counted if the failure came after the increment.
   */
  method HandleRedirect(store: Collection, short: string, ghost parse: UrlParser, conn: Conn)
    returns (resp: Response)
    requires store.Valid()
    modifies store
    ensures store.Valid()
    ensures InvalidShort(short) ==> resp == BadShort && store.docs == old(store.docs)
    ensures !InvalidShort(short) && !conn.Available? ==> resp == ServerError(conn.message)
    ensures !InvalidShort(short) && conn.Failing? ==> store.docs == old(store.docs)
    ensures !InvalidShort(short) && !conn.Failing? ==>
      match FindOneAndIncrement(old(store.docs), short)
      case Ok((t, long)) =>
        (conn.Available? ==> resp == Response(StatusTemporaryRedirect, RedirectBody(long))) && store.docs == t
      case Err(_) =>
        (conn.Available? ==> resp == Response(StatusNotFound, ErrorBody(NoRedirectPrefix + short)))
        && store.docs == old(store.docs)
    ensures old(WellFormed(store.docs, parse)) ==> WellFormed(store.docs, parse)
  {
    if InvalidShort(short) {
      return BadShort;
    }
    if WellFormed(store.docs, parse) {
      RedirectKeepsWellFormed(store.docs, short, parse);
    }
    var link := store.GetRedirect(short, conn);
    if link.Err? {
      if link.error.NotFound? {
        return Response(StatusNotFound, ErrorBody(NoRedirectPrefix + short));
      }
      return ServerError(link.error.message);
    }
    resp := Response(StatusTemporaryRedirect, RedirectBody(link.value));
  }

  /** Deleting keeps every stored short and long URL valid. */
  lemma DeleteKeepsWellFormed(t: Table, short: string, parse: UrlParser)
    requires WellFormed(t, parse)
    ensures WellFormed(DeleteMany(t, short).0, parse)
  {
    forall x | x in DeleteMany(t, short).0 ensures !InvalidShort(x.short) && !InvalidUrl(x.long, parse) {
      assert x in t;
    }
  }

  /** Counting a redirect keeps every stored short and long URL valid. */
  lemma RedirectKeepsWellFormed(t: Table, short: string, parse: UrlParser)
    requires UniqueShorts(t) && WellFormed(t, parse)
    ensures FindOneAndIncrement(t, short).Ok? ==> WellFormed(FindOneAndIncrement(t, short).value.0, parse)
  {
    var r := FindOneAndIncrement(t, short);
    if r.Ok? {
      var d := FindOne(t, short).value;
      forall x | x in r.value.0 ensures !InvalidShort(x.short) && !InvalidUrl(x.long, parse) {
        assert x in multiset(r.value.0);
        if x != CountAccess(d) {
          assert x in multiset(t) - multiset{d};
        }
      }
    }
  }

  /** GET /check/:short: 400 on a bad short, otherwise 200 with whether the short is free. */
  method HandleCheck(store: Collection, short: string, conn: Conn) returns (resp: Response)
    requires store.Valid()
    ensures InvalidShort(short) ==> resp == BadShort
    ensures !InvalidShort(short) && !conn.Available? ==> resp == ServerError(conn.message)
    ensures !InvalidShort(short) && conn.Available? ==> resp == Response(StatusOK, FreeBody(!Holds(store.docs, short)))
  {
    if InvalidShort(short) {
      return BadShort;
    }
    var free := store.IsFree(short, conn);
    if free.Err? {
      return ServerError(free.error.message);
    }
    resp := Response(StatusOK, FreeBody(free.value));
  }
}
