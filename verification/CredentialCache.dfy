/** The credential table and the per-user sessions that cache it: hydration from the table, and the
    requests that write through to both. Requests are taken one at a time. */
module CredentialCache {
  import opened Prelude

  type UserId = nat
  type DatastoreId = string

  /** The columns the cache shows. */
  datatype Info = Info(
    name: string, filespaceId: string, filespaceName: string, bucket: string,
    region: Option<string>, endpoint: Option<string>)

  /** A row; the encrypted key column stands as the pair it decrypts to. */
  datatype Row = Row(info: Info, accessKey: string, secretKey: string)

  /** One user's rows; the table is unique in datastore and user. */
  type Rows = map<DatastoreId, Row>

  type Table = map<UserId, Rows>

  function Of(table: Table, user: UserId): Rows {
    if user in table then table[user] else map[]
  }

  /** INSERT ... ON CONFLICT DO UPDATE */
  function Upserted(table: Table, user: UserId, d: DatastoreId, r: Row): Table {
    table[user := Of(table, user)[d := r]]
  }

  function Without(table: Table, user: UserId, d: DatastoreId): Table {
    table[user := Of(table, user) - {d}]
  }

  /** A write and a removal change the row they name and no other. */
  lemma OneRowChanges(table: Table, user: UserId, d: DatastoreId, r: Row, u: UserId, e: DatastoreId)
    ensures e in Of(Upserted(table, user, d, r), u) <==> (u == user && e == d) || e in Of(table, u)
    ensures e in Of(Upserted(table, user, d, r), u) ==>
              Of(Upserted(table, user, d, r), u)[e] == if u == user && e == d then r else Of(table, u)[e]
    ensures e in Of(Without(table, user, d), u) <==> !(u == user && e == d) && e in Of(table, u)
    ensures e in Of(Without(table, user, d), u) ==> Of(Without(table, user, d), u)[e] == Of(table, u)[e]
  {
  }

  datatype Client = Client(accessKey: string, secretKey: string, region: string, endpoint: Option<string>)

  function OrElse(o: Option<string>, default: string): string {
    if o.Some? && o.value != "" then o.value else default
  }

  /** The S3 client for a row: an empty region means the default one, an empty endpoint none. */
  function ClientOf(r: Row): Client {
    Client(r.accessKey, r.secretKey, OrElse(r.info.region, "us-east-1"),
           if r.info.endpoint == Some("") then None else r.info.endpoint)
  }

  /** What the client of a row is made from. */
  lemma ClientDefaults(r: Row)
    ensures var c := ClientOf(r);
            && c.accessKey == r.accessKey && c.secretKey == r.secretKey
            && (r.info.region in {None, Some("")} ==> c.region == "us-east-1")
            && (r.info.region !in {None, Some("")} ==> Some(c.region) == r.info.region)
            && (r.info.endpoint in {None, Some("")} ==> c.endpoint == None)
            && (r.info.endpoint !in {None, Some("")} ==> c.endpoint == r.info.endpoint)
  {
  }

  predicate HasKeys(r: Row) { r.accessKey != "" && r.secretKey != "" }

  /** What a user's cache should hold. */
  function Projection(rows: Rows): map<DatastoreId, Info> {
    map d | d in rows :: rows[d].info
  }

  function Clients(rows: Rows): map<DatastoreId, Client> {
    map d | d in rows && HasKeys(rows[d]) :: ClientOf(rows[d])
  }

  /** The client of every row with keys can be made. */
  ghost predicate Usable(rows: Rows, makeable: Client -> bool) {
    forall d :: d in rows && HasKeys(rows[d]) ==> makeable(ClientOf(rows[d]))
  }

  /** A write of a usable row and a removal leave every user's rows usable, and other users' rows alone. */
  lemma WriteUsable(table: Table, user: UserId, d: DatastoreId, r: Row, makeable: Client -> bool, u: UserId)
    requires Usable(Of(table, u), makeable) && makeable(ClientOf(r))
    ensures Usable(Of(Upserted(table, user, d, r), u), makeable)
    ensures Of(Upserted(table, user, d, r), u) == if u == user then Of(table, u)[d := r] else Of(table, u)
  {
  }

  lemma RemovalUsable(table: Table, user: UserId, d: DatastoreId, makeable: Client -> bool, u: UserId)
    requires Usable(Of(table, u), makeable)
    ensures Usable(Of(Without(table, user, d), u), makeable)
    ensures Of(Without(table, user, d), u) == if u == user then Of(table, u) - {d} else Of(table, u)
  {
  }

  const MAX_LOGS := 500

  function Newest(messages: seq<string>): seq<string> {
    if |messages| > MAX_LOGS then messages[|messages| - MAX_LOGS..] else messages
  }

  /** The newest five hundred, in order, or all there are. */
  lemma NewestAreLast(messages: seq<string>)
    ensures |Newest(messages)| == if |messages| < 500 then |messages| else 500
    ensures messages[|messages| - |Newest(messages)|..] == Newest(messages)
  {
  }

  /** One user's in-memory state. */
  class UserSession {
    const user: UserId
    var credentials: map<DatastoreId, Info>
    var services: map<DatastoreId, Client>
    var hydrated: bool
    var logs: seq<string>
    /** Everything that was ever logged. */
    ghost var said: seq<string>

    constructor (user: UserId)
      ensures this.user == user && credentials == map[] && services == map[] && !hydrated
      ensures logs == said == []
    {
      this.user := user;
      credentials, services, hydrated, logs, said := map[], map[], false, [], [];
    }

    /** Every cached entry is that of a row of the user; once hydrated, every row is cached. */
    ghost predicate Agrees(rows: Rows)
      reads this`credentials, this`services, this`hydrated
    {
      && (forall d :: d in credentials ==> d in rows && credentials[d] == rows[d].info)
      && (forall d :: d in services ==> d in rows && HasKeys(rows[d]) && services[d] == ClientOf(rows[d]))
      && (hydrated ==>
            && (forall d :: d in rows ==> d in credentials)
            && (forall d :: d in rows && HasKeys(rows[d]) ==> d in services))
    }

    /** A hydrated session holds exactly the projection of the user's rows, and before that some of
        it. */
    lemma CacheIsProjection(rows: Rows)
      requires Agrees(rows)
      ensures hydrated ==> credentials == Projection(rows) && services == Clients(rows)
      ensures forall d :: d in credentials ==> d in Projection(rows) && Projection(rows)[d] == credentials[d]
      ensures forall d :: d in services ==> d in Clients(rows) && Clients(rows)[d] == services[d]
      ensures hydrated ==>
                forall d :: d in services <==> d in rows && rows[d].accessKey != "" && rows[d].secretKey != ""
    {
    }

    /** The log is the newest of what was said. */
    ghost predicate Trimmed()
      reads this`logs, this`said
    {
      logs == Newest(said)
    }

    method Log(message: string)
      requires Trimmed()
      modifies this`logs, this`said
      ensures Trimmed() && said == old(said) + [message]
    {
      logs := logs + [message];
      said := said + [message];
      if |logs| > MAX_LOGS {
        logs := logs[|logs| - MAX_LOGS..];
      }
    }

    /** The entry of a row just written. */
    method Remember(ghost rows: Rows, d: DatastoreId, r: Row)
      requires Agrees(rows) && HasKeys(r)
      modifies this`credentials, this`services
      ensures Agrees(rows[d := r])
      ensures credentials == old(credentials)[d := r.info] && services == old(services)[d := ClientOf(r)]
    {
      credentials := credentials[d := r.info];
      services := services[d := ClientOf(r)];
    }

    /** The entry of a row just removed. */
    method Forget(ghost rows: Rows, d: DatastoreId)
      requires Agrees(rows)
      modifies this`credentials, this`services
      ensures Agrees(rows - {d})
      ensures credentials == old(credentials) - {d} && services == old(services) - {d}
    {
      credentials := credentials - {d};
      services := services - {d};
    }

    /** Reads the user's rows, in any order; `readable` is false when reading or decrypting them
        raises, and `makeable` says which clients can be made. Only the first success sets the flag; a
        failing read changes nothing, and a failing client leaves what was cached before and what was
        read so far. */
    method Hydrate(rows: Rows, readable: bool, makeable: Client -> bool)
      requires Agrees(rows)
      modifies this`credentials, this`services, this`hydrated
      ensures Agrees(rows)
      ensures hydrated <==> old(hydrated) || (readable && Usable(rows, makeable))
      ensures hydrated ==> credentials == Projection(rows) && services == Clients(rows)
      ensures old(hydrated) || !readable ==> credentials == old(credentials) && services == old(services)
      ensures old(credentials.Keys) <= credentials.Keys && old(services.Keys) <= services.Keys
    {
      if hydrated || !readable {
        CacheIsProjection(rows);
        return;
      }
      var left := rows.Keys;
      while left != {}
        invariant left <= rows.Keys
        invariant Agrees(rows) && !hydrated
        invariant forall d :: d in rows && d !in left ==> d in credentials
        invariant forall d :: d in rows && d !in left && HasKeys(rows[d]) ==>
                                d in services && makeable(ClientOf(rows[d]))
        invariant old(credentials.Keys) <= credentials.Keys && old(services.Keys) <= services.Keys
        decreases |left|
      {
        var d :| d in left;
        left := left - {d};
        credentials := credentials[d := rows[d].info];
        if HasKeys(rows[d]) {
          if !makeable(ClientOf(rows[d])) {
            return;
          }
          services := services[d := ClientOf(rows[d])];
        }
      }
      hydrated := true;
      CacheIsProjection(rows);
    }
  }

  /** The web tier of one process: the table, and a session for every user seen. Whether an S3 client can
      be made depends on what it is made from: keys, region and endpoint. */
  class Console {
    const makeable: Client -> bool
    var table: Table
    var sessions: map<UserId, UserSession>

    /** Every stored row is one whose client can be made. */
    ghost predicate Stored()
      reads this`table
    {
      forall u :: Usable(Of(table, u), makeable)
    }

    ghost predicate Valid()
      reads this, sessions.Values
    {
      && Stored()
      && (forall u :: u in sessions ==> sessions[u].user == u)
      && (forall u :: u in sessions ==> sessions[u].Agrees(Of(table, u)) && sessions[u].Trimmed())
    }

    /** The session that serves its user. */
    predicate Serves(s: UserSession)
      reads this
    {
      s.user in sessions && sessions[s.user] == s
    }

    /** A process starting on a table that may already have rows, written by processes like it. */
    constructor (table: Table, makeable: Client -> bool)
      requires forall u :: Usable(Of(table, u), makeable)
      ensures Valid() && this.table == table && sessions == map[] && this.makeable == makeable
    {
      this.table, this.sessions, this.makeable := table, map[], makeable;
    }

    method GetSession(user: UserId) returns (s: UserSession)
      requires Valid()
      modifies this`sessions
      ensures Valid() && s.user == user && Serves(s)
      ensures sessions == old(sessions)[user := s]
      ensures user in old(sessions) ==> s == old(sessions[user])
      ensures user !in old(sessions) ==>
                fresh(s) && !s.hydrated && s.credentials == map[] && s.services == map[]
    {
      if user !in sessions {
        var created := new UserSession(user);
        sessions := sessions[user := created];
      }
      s := sessions[user];
    }

    method Say(s: UserSession, message: string)
      requires Valid() && Serves(s)
      modifies s`logs, s`said
      ensures Valid()
    {
      s.Log(message);
    }

    // A request works on the session of its user, which it gets first. The frames say that it leaves the
    // other sessions alone, and that only a page that needs the cache sets the flag.

    /** A page that needs the cache: whatever was stored before, the one thing that keeps a session from
        hydrating is a failing read. */
    method Hydrate(s: UserSession, readable: bool)
      requires Valid() && Serves(s)
      modifies s`credentials, s`services, s`hydrated
      ensures Valid()
      ensures s.hydrated <==> old(s.hydrated) || readable
      ensures s.hydrated ==>
                s.credentials == Projection(Of(table, s.user)) && s.services == Clients(Of(table, s.user))
      ensures !readable ==> s.credentials == old(s.credentials) && s.services == old(s.services)
    {
      s.Hydrate(Of(table, s.user), readable, makeable);
    }

    /** The row is committed and then the caches are updated. */
    method WriteThrough(s: UserSession, d: DatastoreId, r: Row)
      requires Valid() && HasKeys(r) && Serves(s) && makeable(ClientOf(r))
      modifies this`table, s`credentials, s`services
      ensures Valid() && table == Upserted(old(table), s.user, d, r)
      ensures s.credentials == old(s.credentials)[d := r.info] && s.services == old(s.services)[d := ClientOf(r)]
    {
      ghost var was := table;
      table := Upserted(table, s.user, d, r);
      s.Remember(Of(was, s.user), d, r);
      forall u: UserId
        ensures Usable(Of(table, u), makeable)
        ensures Of(table, u) == if u == s.user then Of(was, u)[d := r] else Of(was, u)
      {
        WriteUsable(was, s.user, d, r, makeable, u);
      }
    }

    method RemoveThrough(s: UserSession, d: DatastoreId)
      requires Valid() && Serves(s)
      modifies this`table, s`credentials, s`services
      ensures Valid() && table == Without(old(table), s.user, d)
      ensures s.credentials == old(s.credentials) - {d} && s.services == old(s.services) - {d}
    {
      ghost var was := table;
      table := Without(table, s.user, d);
      s.Forget(Of(was, s.user), d);
      forall u: UserId
        ensures Usable(Of(table, u), makeable)
        ensures Of(table, u) == if u == s.user then Of(was, u) - {d} else Of(was, u)
      {
        RemovalUsable(was, s.user, d, makeable, u);
      }
    }

    /** The row, if there is one, is removed, and only then the cache entry. */
    method DeleteThrough(s: UserSession, d: DatastoreId) returns (deleted: bool)
      requires Valid() && Serves(s)
      modifies this`table, s`credentials, s`services
      ensures Valid() && table == if deleted then Without(old(table), s.user, d) else old(table)
      ensures deleted <==> d in Of(old(table), s.user)
      ensures s.credentials == if deleted then old(s.credentials) - {d} else old(s.credentials)
      ensures s.services == if deleted then old(s.services) - {d} else old(s.services)
    {
      deleted := d in Of(table, s.user);
      if deleted {
        RemoveThrough(s, d);
      }
    }

    method WriteThroughAndSay(s: UserSession, d: DatastoreId, r: Row, message: string)
      requires Valid() && HasKeys(r) && Serves(s) && makeable(ClientOf(r))
      modifies this`table, s`credentials, s`services, s`logs, s`said
      ensures Valid() && table == Upserted(old(table), s.user, d, r)
      ensures s.credentials == old(s.credentials)[d := r.info] && s.services == old(s.services)[d := ClientOf(r)]
    {
      WriteThrough(s, d, r);
      Say(s, message);
    }

    /** Saving credentials: a client that cannot be made, a failing check of the bucket or a failing write
        changes neither the table nor any cache. */
    method SaveCredentials(s: UserSession, d: DatastoreId, r: Row, reachable: bool, writable: bool)
      returns (saved: bool)
      requires Valid() && HasKeys(r) && Serves(s)
      modifies this`table, s`credentials, s`services, s`logs, s`said
      ensures Valid() && saved == (makeable(ClientOf(r)) && reachable && writable)
      ensures table == if saved then Upserted(old(table), s.user, d, r) else old(table)
      ensures s.credentials == if saved then old(s.credentials)[d := r.info] else old(s.credentials)
      ensures s.services == if saved then old(s.services)[d := ClientOf(r)] else old(s.services)
    {
      saved := makeable(ClientOf(r)) && reachable && writable;
      if saved {
        WriteThroughAndSay(s, d, r, "Saved DataStore for browsing");
      } else {
        Say(s, "Failed to save credentials");
      }
    }

    /** Deleting credentials, and with them the row of no other user or datastore. */
    method DeleteCredentials(s: UserSession, d: DatastoreId) returns (deleted: bool)
      requires Valid() && Serves(s)
      modifies this`table, s`credentials, s`services, s`logs, s`said
      ensures Valid() && (deleted <==> d in Of(old(table), s.user))
      ensures table == if deleted then Without(old(table), s.user, d) else old(table)
      ensures s.credentials == if deleted then old(s.credentials) - {d} else old(s.credentials)
      ensures s.services == if deleted then old(s.services) - {d} else old(s.services)
    {
      deleted := DeleteThrough(s, d);
      if deleted {
        Say(s, "Removed DataStore credentials");
      }
    }

    /** Asking LucidLink to delete a datastore of the session's list, with a filespace selected. */
    method DeleteRemote(s: UserSession, d: DatastoreId, listed: seq<(DatastoreId, string)>,
                        filespace: Option<string>, succeeded: bool)
      returns (done: bool)
      requires Valid() && Serves(s)
      modifies s`logs, s`said
      ensures Valid() && done == (Lists(listed, d) && OrElse(filespace, "") != "" && succeeded)
    {
      var known := FindListed(listed, d);
      if !known || OrElse(filespace, "") == "" {
        return false;
      }
      Say(s, if succeeded then "Deleted DataStore" else "Error deleting DataStore");
      done := succeeded;
    }

    /** Deleting a datastore deletes its credentials, if there are any, once LucidLink deleted it. */
    method DeleteDatastore(s: UserSession, d: DatastoreId, listed: seq<(DatastoreId, string)>,
                           filespace: Option<string>, succeeded: bool)
      returns (deleted: bool)
      requires Valid() && Serves(s)
      modifies this`table, s`credentials, s`services, s`logs, s`said
      ensures Valid()
      ensures deleted ==
              ((exists i :: 0 <= i < |listed| && listed[i].0 == d) && filespace !in {None, Some("")} && succeeded
               && d in Of(old(table), s.user))
      ensures table == if deleted then Without(old(table), s.user, d) else old(table)
      ensures s.credentials == if deleted then old(s.credentials) - {d} else old(s.credentials)
      ensures s.services == if deleted then old(s.services) - {d} else old(s.services)
    {
      deleted := DeleteRemote(s, d, listed, filespace, succeeded);
      if deleted {
        deleted := DeleteThrough(s, d);
      }
    }

    static method FindListed(listed: seq<(DatastoreId, string)>, d: DatastoreId) returns (found: bool)
      ensures found == Lists(listed, d)
    {
      for i := 0 to |listed|
        invariant forall k :: 0 <= k < i ==> listed[k].0 != d
      {
        if listed[i].0 == d {
          return true;
        }
      }
      found := false;
    }

    static method FindNamed(listed: seq<(DatastoreId, string)>, name: string) returns (d: DatastoreId)
      ensures d == LastNamed(listed, name)
    {
      d := "";
      for i := 0 to |listed|
        invariant d == LastNamed(listed[..i], name)
      {
        assert listed[..i + 1][..i] == listed[..i];
        if listed[i].1 == name {
          d := listed[i].0;
        }
      }
      assert listed[..|listed|] == listed;
    }

    /** Creating a datastore saves its credentials under the id of the last datastore LucidLink lists
        with its name. A failure on the way, the write included, leaves table and caches as they were. */
    method CreateDatastore(s: UserSession, r: Row, reachable: bool, succeeded: bool,
                           listed: seq<(DatastoreId, string)>, writable: bool)
      returns (saved: bool)
      requires Valid() && HasKeys(r) && Serves(s)
      modifies this`table, s`credentials, s`services, s`logs, s`said
      ensures Valid()
      ensures var d := LastNamed(listed, r.info.name);
              && saved == (makeable(ClientOf(r)) && reachable && succeeded && d != "" && writable)
              && table == (if saved then Upserted(old(table), s.user, d, r) else old(table))
              && s.credentials == (if saved then old(s.credentials)[d := r.info] else old(s.credentials))
              && s.services == (if saved then old(s.services)[d := ClientOf(r)] else old(s.services))
    {
      saved := makeable(ClientOf(r)) && reachable;
      Say(s, if saved then "S3 access validated" else "S3 validation failed");
      if saved {
        var d := FindNamed(listed, r.info.name);
        saved := CreateReachable(s, d, r, succeeded, writable);
      }
    }

    method CreateReachable(s: UserSession, d: DatastoreId, r: Row, succeeded: bool, writable: bool)
      returns (saved: bool)
      requires Valid() && HasKeys(r) && Serves(s) && makeable(ClientOf(r))
      modifies this`table, s`credentials, s`services, s`logs, s`said
      ensures Valid() && saved == (succeeded && d != "" && writable)
      ensures table == if saved then Upserted(old(table), s.user, d, r) else old(table)
      ensures s.credentials == if saved then old(s.credentials)[d := r.info] else old(s.credentials)
      ensures s.services == if saved then old(s.services)[d := ClientOf(r)] else old(s.services)
    {
      Say(s, if succeeded then "DataStore created" else "Error creating datastore");
      saved := succeeded && d != "" && writable;
      if saved {
        WriteThrough(s, d, r);
      }
    }
  }

  predicate Lists(listed: seq<(DatastoreId, string)>, d: DatastoreId) {
    exists i :: 0 <= i < |listed| && listed[i].0 == d
  }

  /** The id of the last listed datastore with a name, or the empty id. */
  function LastNamed(listed: seq<(DatastoreId, string)>, name: string): DatastoreId {
    if listed == [] then ""
    else if listed[|listed| - 1].1 == name then listed[|listed| - 1].0
    else LastNamed(listed[..|listed| - 1], name)
  }

  /** That is: no listed datastore after it has the name, and without one there is no id. */
  lemma {:induction false} LastNamedIsLast(listed: seq<(DatastoreId, string)>, name: string, i: nat)
    requires i < |listed| && listed[i].1 == name
    requires forall k :: i < k < |listed| ==> listed[k].1 != name
    ensures LastNamed(listed, name) == listed[i].0
    decreases |listed|
  {
    if i < |listed| - 1 {
      LastNamedIsLast(listed[..|listed| - 1], name, i);
    }
  }

  lemma {:induction false} NoneNamed(listed: seq<(DatastoreId, string)>, name: string)
    requires forall k :: 0 <= k < |listed| ==> listed[k].1 != name
    ensures LastNamed(listed, name) == ""
  {
    if listed != [] {
      NoneNamed(listed[..|listed| - 1], name);
    }
  }
}
