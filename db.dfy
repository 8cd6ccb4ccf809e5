/** The Mongoose connection cache of lib/db.js: a process-wide object with a `conn`
    field (the live connection) and a `promise` field (the connection attempt), read
    and overwritten by each call of `dbConnect`. Calls are taken one at a time; the
    connect itself is an oracle outcome passed in by the caller. */
module Db {
  import opened Js

  /** A connected Mongoose instance. */
  datatype Connection = Connection(handle: nat)

  /** The message thrown at module load when MONGODB_URI is not set. */
  const MissingUriMessage: string := "Please define the MONGODB_URI environment variable inside .env.local"

  /** What a `dbConnect` call resolves to, from the cache fields before the call and
      the outcome a new attempt would settle to: the live connection, else the held
      attempt, else the new attempt. */
  function Awaited(conn: Option<Connection>, promise: Option<Outcome<Connection>>, attempt: Outcome<Connection>): Outcome<Connection> {
    if conn.Some? then Ok(conn.value)
    else if promise.Some? then promise.value
    else attempt
  }

  /** A live connection is the value of the attempt still held in `promise`. */
  predicate Coherent(conn: Option<Connection>, promise: Option<Outcome<Connection>>) {
    conn.Some? ==> promise == Some(Ok(conn.value))
  }

  /** The cache fields after a `dbConnect` call, from the fields before it and the
      outcome a new attempt would settle to: a live connection leaves them as they
      are; otherwise a success stores the connection with its attempt, and a failure
      clears both. */
  function Settled(conn: Option<Connection>, promise: Option<Outcome<Connection>>, attempt: Outcome<Connection>):
    (after: (Option<Connection>, Option<Outcome<Connection>>))
    requires Coherent(conn, promise)
    ensures Coherent(after.0, after.1)
    ensures Awaited(conn, promise, attempt).Ok? ==> after.0 == Some(Awaited(conn, promise, attempt).value)
    ensures Awaited(conn, promise, attempt).Threw? ==> after == (None, None)
  {
    if conn.Some? then (conn, promise)
    else match Awaited(conn, promise, attempt)
      case Ok(c) => (Some(c), Some(Ok(c)))
      case Threw(_) => (None, None)
  }

  /** Once a call has connected, every later call returns that same connection,
      whatever a new attempt would settle to, and leaves the cache as it is. */
  lemma ConnectedStaysConnected(conn: Option<Connection>, promise: Option<Outcome<Connection>>,
                                attempt: Outcome<Connection>, later: Outcome<Connection>)
    requires Coherent(conn, promise) && Awaited(conn, promise, attempt).Ok?
    ensures var after := Settled(conn, promise, attempt);
      && Awaited(after.0, after.1, later) == Awaited(conn, promise, attempt)
      && Settled(after.0, after.1, later) == after
  {
  }

  /** After a failed call the next call awaits a new attempt. */
  lemma FailureRetries(conn: Option<Connection>, promise: Option<Outcome<Connection>>,
                       attempt: Outcome<Connection>, later: Outcome<Connection>)
    requires Coherent(conn, promise) && Awaited(conn, promise, attempt).Threw?
    ensures var after := Settled(conn, promise, attempt); Awaited(after.0, after.1, later) == later
  {
  }

  class ConnectionCache {
    /** `cached.conn`: the connection once an attempt has succeeded. */
    var conn: Option<Connection>
    /** `cached.promise`: the current attempt, by the outcome it settles to. */
    var promise: Option<Outcome<Connection>>

    ghost predicate Valid()
      reads this
    {
      Coherent(conn, promise)
    }

    /** `{ conn: null, promise: null }`. */
    constructor ()
      ensures Valid()
      ensures conn == None && promise == None
    {
      conn := None;
      promise := None;
    }

    /** `dbConnect()`, given the outcome `attempt` that `mongoose.connect` would settle
        to if it were called now. A live connection is returned as it is and nothing
        is started; otherwise a new attempt starts only when none is held, and the
        held attempt is awaited: success stores the connection, failure clears
        `promise` so that the next call retries, and the error is rethrown. */
    method Connect(attempt: Outcome<Connection>) returns (r: Outcome<Connection>, started: bool)
      requires Valid()
      modifies this
      ensures Valid()
      ensures r == Awaited(old(conn), old(promise), attempt)
      ensures (conn, promise) == Settled(old(conn), old(promise), attempt)
      ensures started <==> old(conn).None? && old(promise).None?
      ensures old(conn).Some? ==> r == Ok(old(conn).value) && conn == old(conn) && promise == old(promise)
      ensures old(conn).None? ==>
        var awaited := if started then attempt else old(promise).value;
        && r == awaited
        && (awaited.Ok? ==> conn == Some(awaited.value) && promise == Some(awaited))
        && (awaited.Threw? ==> conn == None && promise == None)
    {
      if conn.Some? {
        return Ok(conn.value), false;
      }
      started := promise.None?;
      if started {
        promise := Some(attempt);
      }
      match promise.value
      case Ok(c) =>
        conn := Some(c);
        r := Ok(c);
      case Threw(e) =>
        promise := None;
        r := Threw(e);
    }
  }

  /** Module load: a missing (or empty) MONGODB_URI throws; otherwise the cache held
      in `global.mongoose` is reused, or a fresh empty one is installed. */
  method Load(uri: string, global: ConnectionCache?) returns (cache: ConnectionCache?, err: Option<JsError>)
    ensures uri == "" <==> err == Some(Error(MissingUriMessage))
    ensures uri == "" ==> cache == null
    ensures uri != "" && global != null ==> cache == global && err == None
    ensures uri != "" && global == null ==>
      cache != null && fresh(cache) && cache.Valid() && cache.conn == None && cache.promise == None && err == None
  {
    if uri == "" {
      return null, Some(Error(MissingUriMessage));
    }
    if global != null {
      return global, None;
    }
    cache := new ConnectionCache();
    err := None;
  }

  /** Two calls in a row after a success: the first stores the connection, the second
      returns that same connection whatever a new attempt would settle to. */
  method ReuseAfterSuccess(cache: ConnectionCache, c: Connection, other: Outcome<Connection>)
    returns (first: Outcome<Connection>, second: Outcome<Connection>, startedAgain: bool)
    requires cache.Valid() && cache.conn == None && cache.promise == None
    modifies cache
    ensures first == Ok(c) && second == Ok(c) && !startedAgain
    ensures cache.Valid() && cache.conn == Some(c)
  {
    var s1;
    first, s1 := cache.Connect(Ok(c));
    second, startedAgain := cache.Connect(other);
  }

  /** After a failed attempt the cache is empty again, so the next call starts anew. */
  method RetryAfterFailure(cache: ConnectionCache, e: JsError, c: Connection)
    returns (first: Outcome<Connection>, second: Outcome<Connection>, startedAgain: bool)
    requires cache.Valid() && cache.conn == None && cache.promise == None
    modifies cache
    ensures first == Threw(e) && second == Ok(c) && startedAgain
    ensures cache.Valid() && cache.conn == Some(c)
  {
    var s1;
    first, s1 := cache.Connect(Threw(e));
    second, startedAgain := cache.Connect(Ok(c));
  }
}
