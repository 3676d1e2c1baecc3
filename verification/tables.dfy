/** The two tables of the configuration store (convex/schema.ts for `mcpServers`;
    the `users` rows take the shape convex/users.ts gives them), as sequences of
    rows in creation order, with the index lookups as searches and filters.
    Generated ids and clock readings are supplied by the caller. */
module Tables {
  import opened Results
  import opened Seqs

  type Id = nat

  datatype UserRow = UserRow(id: Id, userId: string, enabledServers: Option<seq<Id>>,
                             createdAt: int, updatedAt: int)

  datatype ServerRow = ServerRow(id: Id, userId: string, organizationId: string, serverName: string,
                                 serverUrl: string, description: Option<string>, createdAt: int)

  datatype Db = Db(users: seq<UserRow>, servers: seq<ServerRow>)

  /** The id is not yet used by any row of either table. */
  predicate IdFree(db: Db, id: Id) {
    (forall u :: u in db.users ==> u.id != id) && (forall s :: s in db.servers ==> s.id != id)
  }

  /** Position of the first user row for `userId` (the `by_userId` index's `.first()`). */
  function UserPosition(users: seq<UserRow>, userId: string): Option<nat> {
    FirstIndex(users, (u: UserRow) => u.userId == userId)
  }

  /** The first matching row is the one the lookup finds. */
  lemma UserPositionIs(users: seq<UserRow>, userId: string, k: nat)
    requires k < |users| && users[k].userId == userId
    requires forall j :: 0 <= j < k ==> users[j].userId != userId
    ensures UserPosition(users, userId) == Some(k)
  {
    FirstIndexIs(users, (u: UserRow) => u.userId == userId, k);
  }

  function FindUser(db: Db, userId: string): Option<UserRow> {
    match UserPosition(db.users, userId)
    case None => None
    case Some(k) => Some(db.users[k])
  }

  /** `user?.enabledServers || []`. */
  function EnabledIds(user: Option<UserRow>): seq<Id> {
    match user
    case None => []
    case Some(u) => u.enabledServers.GetOr([])
  }

  /** Position of the server row with the given id (`ctx.db.get`). */
  function ServerPosition(servers: seq<ServerRow>, id: Id): Option<nat> {
    FirstIndex(servers, (s: ServerRow) => s.id == id)
  }

  function GetServer(db: Db, id: Id): Option<ServerRow> {
    match ServerPosition(db.servers, id)
    case None => None
    case Some(k) => Some(db.servers[k])
  }

  /** The rows satisfying `keep`, in table order. */
  function Where(rows: seq<ServerRow>, keep: ServerRow -> bool): (r: seq<ServerRow>)
    ensures forall s :: s in r <==> s in rows && keep(s)
    ensures |r| <= |rows|
  {
    if |rows| == 0 then []
    else
      assert forall s :: s in rows <==> s == rows[0] || s in rows[1..] by {
        assert rows == [rows[0]] + rows[1..];
      }
      (if keep(rows[0]) then [rows[0]] else []) + Where(rows[1..], keep)
  }

  /** Filtering keeps order: it distributes over concatenation. */
  lemma {:induction false} WhereAppend(a: seq<ServerRow>, b: seq<ServerRow>, keep: ServerRow -> bool)
    ensures Where(a + b, keep) == Where(a, keep) + Where(b, keep)
    decreases |a|
  {
    if |a| == 0 {
      assert a + b == b;
    } else {
      WhereAppend(a[1..], b, keep);
      assert (a + b)[1..] == a[1..] + b;
    }
  }
}
