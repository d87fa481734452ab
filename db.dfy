/**
 * The shortlink store: the shared collection and the store operations the
 * handlers call. Each operation is one driver call on the collection. A call
 * the connection fails (a timeout, a network error) returns Unexpected with
 * the driver's message; whether its write took effect depends on whether the
 * failure came before the server applied it or after.
 */
module Db {
  import opened Options
  import opened Entity
  import opened Table

  /**
   * How the database answers one call: normally; failing before the server
   * applies it (nothing is written); or lost after the server applied it (the
   * write stands, but the caller only sees the error).
   */
  datatype Conn = Available | Failing(message: string) | Lost(message: string)

  /** The shared collection of shortlinks. */
  class Collection {
    var docs: Table

    /** The unique index on `short`, created when the store connects. */
    ghost predicate Valid()
      reads this
    {
      UniqueShorts(docs)
    }

    constructor ()
      ensures Valid() && docs == []
    {
      docs := [];
    }

    /** Every stored shortlink, in natural order; an empty collection gives an empty list. */
    method GetAllShortlinks(conn: Conn) returns (r: Result<seq<Shortlink>>)
      requires Valid()
      ensures !conn.Available? ==> r == Err(Unexpected(conn.message))
      ensures conn.Available? ==> r == Ok(docs)
    {
      if !conn.Available? {
        return Err(Unexpected(conn.message));
      }
      r := Ok(docs);
    }

    /** The shortlink with this short, or NotFound. */
    method GetShortlinkByShort(short: string, conn: Conn) returns (r: Result<Shortlink>)
      requires Valid()
      ensures !conn.Available? ==> r == Err(Unexpected(conn.message))
      ensures conn.Available? ==> (r == Err(NotFound) <==> !Holds(docs, short))
      ensures conn.Available? && r.Ok? ==> r.value in docs && r.value.short == short
      ensures conn.Available? ==> r.Ok? || r == Err(NotFound)
    {
      if !conn.Available? {
        return Err(Unexpected(conn.message));
      }
      match FindOne(docs, short)
      case None => r := Err(NotFound);
      case Some(d) => r := Ok(d);
    }

    /**
     * Stamps the caller's shortlink with a fresh identifier and the two clock
     * readings and inserts it. The caller's short, long, descr and access_count
     * are kept; a taken short gives Duplicate and leaves the collection as it was.
     */
    method Create(shortlink: Shortlink, newId: ObjectId, createdAt: Time, updatedAt: Time, conn: Conn)
      returns (r: Result<Shortlink>)
      requires Valid()
      modifies this
      ensures Valid()
      ensures !conn.Available? ==> r == Err(Unexpected(conn.message))
      ensures conn.Failing? ==> docs == old(docs)
      ensures !conn.Failing? ==>
        var stamped := shortlink.(id := newId, createdAt := createdAt, updatedAt := updatedAt);
        match InsertOne(old(docs), stamped)
        case Ok(t) => (conn.Available? ==> r == Ok(stamped)) && docs == t
        case Err(e) => (conn.Available? ==> r == Err(e)) && docs == old(docs)
    {
      var stamped := shortlink.(id := newId, createdAt := createdAt, updatedAt := updatedAt);
      if conn.Failing? {
        return Err(Unexpected(conn.message));
      }
      match InsertOne(docs, stamped) {
        case Ok(t) =>
          docs := t;
          r := Ok(stamped);
        case Err(e) =>
          r := Err(e);
      }
      if conn.Lost? {
        r := Err(Unexpected(conn.message));
      }
    }

    /**
     * Sets the payload's short, long and descr, and updated_at to `now`, on the
     * document holding `short`, and returns it as it is after the write.
     */
    method Update(short: string, shortlink: ShortlinkUpdate, now: Time, conn: Conn)
      returns (r: Result<Shortlink>)
      requires Valid()
      modifies this
      ensures Valid()
      ensures !conn.Available? ==> r == Err(Unexpected(conn.message))
      ensures conn.Failing? ==> docs == old(docs)
      ensures !conn.Failing? ==>
        match FindOneAndSet(old(docs), short, shortlink.(updatedAt := now))
        case Ok((t, d)) => (conn.Available? ==> r == Ok(d)) && docs == t
        case Err(e) => (conn.Available? ==> r == Err(e)) && docs == old(docs)
    {
      var payload := shortlink.(updatedAt := now);
      if conn.Failing? {
        return Err(Unexpected(conn.message));
      }
      match FindOneAndSet(docs, short, payload) {
        case Ok((t, d)) =>
          docs := t;
          r := Ok(d);
        case Err(e) =>
          r := Err(e);
      }
      if conn.Lost? {
        r := Err(Unexpected(conn.message));
      }
    }

    /** Removes every document with this short and returns how many there were. */
    method Delete(short: string, conn: Conn) returns (r: Result<nat>)
      requires Valid()
      modifies this
      ensures Valid()
      ensures !conn.Available? ==> r == Err(Unexpected(conn.message))
      ensures conn.Failing? ==> docs == old(docs)
      ensures !conn.Failing? ==> docs == DeleteMany(old(docs), short).0
      ensures conn.Available? ==> r == Ok(DeleteMany(old(docs), short).1)
    {
      if conn.Failing? {
        return Err(Unexpected(conn.message));
      }
      DeleteManyUnique(docs, short);
      var (t, n) := DeleteMany(docs, short);
      docs := t;
      r := if conn.Lost? then Err(Unexpected(conn.message)) else Ok(n);
    }

    /** Counts one access to the shortlink and returns its long URL. */
    method GetRedirect(short: string, conn: Conn) returns (r: Result<string>)
      requires Valid()
      modifies this
      ensures Valid()
      ensures !conn.Available? ==> r == Err(Unexpected(conn.message))
      ensures conn.Failing? ==> docs == old(docs)
      ensures !conn.Failing? ==>
        match FindOneAndIncrement(old(docs), short)
        case Ok((t, long)) => (conn.Available? ==> r == Ok(long)) && docs == t
        case Err(e) => (conn.Available? ==> r == Err(e)) && docs == old(docs)
    {
      if conn.Failing? {
        return Err(Unexpected(conn.message));
      }
      match FindOneAndIncrement(docs, short) {
        case Ok((t, long)) =>
          docs := t;
          r := Ok(long);
        case Err(e) =>
          r := Err(e);
      }
      if conn.Lost? {
        r := Err(Unexpected(conn.message));
      }
    }

    /** True exactly when no document has the short; "not found" is the free case, not an error. */
    method IsFree(short: string, conn: Conn) returns (r: Result<bool>)
      requires Valid()
      ensures !conn.Available? ==> r == Err(Unexpected(conn.message))
      ensures conn.Available? ==> r == Ok(!Holds(docs, short))
    {
      if !conn.Available? {
        return Err(Unexpected(conn.message));
      }
      var found := FindOne(docs, short);
      r := Ok(found.None?);
    }
  }
}
