/** Per-user enablement of servers (convex/users.ts): the `enabledServers` list
    of a user row treated as a set, with add-if-absent and remove-all. */
module Users {
  import opened Results
  import opened Tables

  predicate NoDuplicates(ids: seq<Id>) {
    forall i, j :: 0 <= i < j < |ids| ==> ids[i] != ids[j]
  }

  /** Enabling: appended at the end when absent, otherwise the list as it was. */
  function WithServer(ids: seq<Id>, serverId: Id): (r: seq<Id>)
    ensures forall x :: x in r <==> x in ids || x == serverId
    ensures NoDuplicates(ids) ==> NoDuplicates(r)
    ensures serverId !in ids ==> r == ids + [serverId]
    ensures serverId in ids ==> r == ids
  {
    if serverId in ids then ids else ids + [serverId]
  }

  /** Disabling: every occurrence removed, the other ids in their order. */
  function WithoutServer(ids: seq<Id>, serverId: Id): (r: seq<Id>)
    ensures forall x :: x in r <==> x in ids && x != serverId
    ensures |r| <= |ids|
  {
    if |ids| == 0 then []
    else
      assert forall x :: x in ids <==> x == ids[0] || x in ids[1..] by {
        assert ids == [ids[0]] + ids[1..];
      }
      (if ids[0] == serverId then [] else [ids[0]]) + WithoutServer(ids[1..], serverId)
  }

  /** Removal keeps order: it distributes over concatenation. */
  lemma {:induction false} WithoutServerAppend(a: seq<Id>, b: seq<Id>, serverId: Id)
    ensures WithoutServer(a + b, serverId) == WithoutServer(a, serverId) + WithoutServer(b, serverId)
    decreases |a|
  {
    if |a| == 0 {
      assert a + b == b;
    } else {
      WithoutServerAppend(a[1..], b, serverId);
      assert (a + b)[1..] == a[1..] + b;
      assert (a + b)[0] == a[0];
      var head := if a[0] == serverId then [] else [a[0]];
      assert WithoutServer(a + b, serverId) == head + WithoutServer(a[1..] + b, serverId);
      assert WithoutServer(a, serverId) == head + WithoutServer(a[1..], serverId);
    }
  }

  /** Removing an id that is absent changes nothing. */
  lemma {:induction false} WithoutAbsent(ids: seq<Id>, serverId: Id)
    requires serverId !in ids
    ensures WithoutServer(ids, serverId) == ids
    decreases |ids|
  {
    if |ids| > 0 {
      WithoutAbsent(ids[1..], serverId);
      assert ids == [ids[0]] + ids[1..];
    }
  }

  /** Enabling then disabling a server that was not enabled restores the list. */
  lemma EnableThenDisable(ids: seq<Id>, serverId: Id)
    requires serverId !in ids
    ensures WithoutServer(WithServer(ids, serverId), serverId) == ids
  {
    WithoutServerAppend(ids, [serverId], serverId);
    WithoutAbsent(ids, serverId);
    assert WithoutServer([serverId], serverId) == [];
  }

  /** The list the toggle writes. */
  function Toggled(ids: seq<Id>, serverId: Id, enabled: bool): seq<Id> {
    if enabled then WithServer(ids, serverId) else WithoutServer(ids, serverId)
  }

  /** `getUserEnabledServers`: the user's list, read as empty when absent, and
      empty for an unknown user. */
  function GetUserEnabledServers(db: Db, userId: string): (r: seq<Id>)
    ensures FindUser(db, userId).None? ==> r == []
    ensures FindUser(db, userId).Some? ==> r == FindUser(db, userId).value.enabledServers.GetOr([])
  {
    EnabledIds(FindUser(db, userId))
  }

  /** `toggleServerEnabled`. An unknown user gets a new row holding just this server
      (or nothing); a known user's first row gets the toggled list and a new
      `updatedAt`, and nothing else changes. */
  function ToggleServerEnabled(db: Db, userId: string, serverId: Id, enabled: bool, newId: Id, now: int)
    : (r: (Db, Id))
    requires IdFree(db, newId)
    ensures r.0.servers == db.servers
    ensures UserPosition(db.users, userId).None? ==>
              && r.1 == newId
              && r.0.users == db.users + [UserRow(newId, userId, Some(if enabled then [serverId] else []), now, now)]
    ensures UserPosition(db.users, userId).Some? ==>
              var k := UserPosition(db.users, userId).value;
              && r.1 == db.users[k].id
              && |r.0.users| == |db.users|
              && (forall j :: 0 <= j < |db.users| && j != k ==> r.0.users[j] == db.users[j])
              && r.0.users[k] == db.users[k].(enabledServers := Some(Toggled(EnabledIds(Some(db.users[k])), serverId, enabled)),
                                              updatedAt := now)
  {
    match UserPosition(db.users, userId)
    case None =>
      var row := UserRow(newId, userId, Some(if enabled then [serverId] else []), now, now);
      (db.(users := db.users + [row]), newId)
    case Some(k) =>
      var user := db.users[k];
      var ids := Toggled(EnabledIds(Some(user)), serverId, enabled);
      (db.(users := db.users[k := user.(enabledServers := Some(ids), updatedAt := now)]), user.id)
  }

  /** After a toggle, the server is enabled for the user exactly when it was
      switched on, and every other server is enabled exactly as before. */
  lemma ToggleEffect(db: Db, userId: string, serverId: Id, enabled: bool, newId: Id, now: int)
    requires IdFree(db, newId)
    ensures var db' := ToggleServerEnabled(db, userId, serverId, enabled, newId, now).0;
            && (serverId in GetUserEnabledServers(db', userId) <==> enabled)
            && forall x :: x != serverId ==>
                 (x in GetUserEnabledServers(db', userId) <==> x in GetUserEnabledServers(db, userId))
  {
    var db' := ToggleServerEnabled(db, userId, serverId, enabled, newId, now).0;
    match UserPosition(db.users, userId)
    case None =>
      UserPositionIs(db'.users, userId, |db.users|);
    case Some(k) =>
      UserPositionIs(db'.users, userId, k);
  }

  /** Toggling twice with the same arguments leaves the same enabled list as
      toggling once. */
  lemma ToggleIdempotent(db: Db, userId: string, serverId: Id, enabled: bool, id1: Id, id2: Id, t1: int, t2: int)
    requires IdFree(db, id1)
    requires IdFree(ToggleServerEnabled(db, userId, serverId, enabled, id1, t1).0, id2)
    ensures var db1 := ToggleServerEnabled(db, userId, serverId, enabled, id1, t1).0;
            var db2 := ToggleServerEnabled(db1, userId, serverId, enabled, id2, t2).0;
            GetUserEnabledServers(db2, userId) == GetUserEnabledServers(db1, userId)
  {
    var db1 := ToggleServerEnabled(db, userId, serverId, enabled, id1, t1).0;
    var db2 := ToggleServerEnabled(db1, userId, serverId, enabled, id2, t2).0;
    var k: nat;
    match UserPosition(db.users, userId) {
      case None =>
        k := |db.users|;
        assert forall j :: 0 <= j < |db.users| ==> db1.users[j] == db.users[j];
      case Some(k0) =>
        k := k0;
        assert forall j :: 0 <= j < k ==> db1.users[j] == db.users[j];
    }
    UserPositionIs(db1.users, userId, k);
    var ids := EnabledIds(Some(db1.users[k]));
    assert serverId in Toggled(ids, serverId, enabled) <==> enabled by {
      ToggleEffect(db, userId, serverId, enabled, id1, t1);
    }
    if !enabled {
      WithoutAbsent(ids, serverId);
    }
    UserPositionIs(db2.users, userId, k);
  }

  /** `getOrCreateUser`: an existing row comes back and nothing changes; otherwise
      a row with an empty list is inserted and returned, and is then the user's row. */
  function GetOrCreateUser(db: Db, userId: string, newId: Id, now: int): (r: (Db, UserRow))
    requires IdFree(db, newId)
    ensures FindUser(db, userId).Some? ==> r == (db, FindUser(db, userId).value)
    ensures FindUser(db, userId).None? ==>
              && r.1 == UserRow(newId, userId, Some([]), now, now)
              && r.0 == db.(users := db.users + [r.1])
    ensures FindUser(r.0, userId) == Some(r.1)
  {
    match FindUser(db, userId)
    case Some(u) => (db, u)
    case None =>
      var row := UserRow(newId, userId, Some([]), now, now);
      var db' := db.(users := db.users + [row]);
      assert UserPosition(db.users, userId).None?;
      UserPositionIs(db'.users, userId, |db.users|);
      (db', row)
  }
}
