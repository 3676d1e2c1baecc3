/** The server registry (convex/mcpServers.ts): registration with per-user name
    uniqueness, the listing queries joined with a user's enabled list, partial
    updates and deletion. */
module McpServers {
  import opened Results
  import opened Tables
  import Users

  /** A server as the dashboard lists it. */
  datatype ServerView = ServerView(id: Id, name: string, url: string, enabled: bool)

  /** A full server row with its enabled flag (`{ ...server, enabled }`). */
  datatype OrgServerView = OrgServerView(row: ServerRow, enabled: bool)

  const NoUpdates := "No updates provided"
  /** Stand-in for the runtime's error when patching a row that does not exist. */
  const MissingDocument := "Document not found"

  function View(s: ServerRow, enabled: bool): ServerView {
    ServerView(s.id, s.serverName, s.serverUrl, enabled)
  }

  /** Some row of the user already has this name. */
  predicate NameTaken(db: Db, userId: string, serverName: string) {
    exists s :: s in db.servers && s.userId == userId && s.serverName == serverName
  }

  /** No user has two servers of the same name. */
  predicate UniqueNames(db: Db) {
    forall i, j :: 0 <= i < j < |db.servers| ==>
      !(db.servers[i].userId == db.servers[j].userId && db.servers[i].serverName == db.servers[j].serverName)
  }

  function DuplicateName(serverName: string): string {
    "Server with name \"" + serverName + "\" already exists"
  }

  /** `addMcpServer`: rejected when the user already has a server of that name;
      otherwise exactly one row is appended and its id returned. */
  function AddMcpServer(db: Db, userId: string, organizationId: string, serverName: string, serverUrl: string,
                        description: Option<string>, newId: Id, now: int): (r: Result<(Db, Id), string>)
    requires IdFree(db, newId)
    ensures r.Err? <==> NameTaken(db, userId, serverName)
    ensures r.Err? ==> r.error == DuplicateName(serverName)
    ensures r.Ok? ==>
              && r.value.1 == newId
              && r.value.0.users == db.users
              && r.value.0.servers ==
                 db.servers + [ServerRow(newId, userId, organizationId, serverName, serverUrl, description, now)]
  {
    if exists s :: s in db.servers && s.userId == userId && s.serverName == serverName then
      Err(DuplicateName(serverName))
    else
      var row := ServerRow(newId, userId, organizationId, serverName, serverUrl, description, now);
      Ok((db.(servers := db.servers + [row]), newId))
  }

  /** Registration keeps names unique per user. */
  lemma AddKeepsNamesUnique(db: Db, userId: string, organizationId: string, serverName: string, serverUrl: string,
                            description: Option<string>, newId: Id, now: int)
    requires IdFree(db, newId) && UniqueNames(db)
    ensures var r := AddMcpServer(db, userId, organizationId, serverName, serverUrl, description, newId, now);
            r.Ok? ==> UniqueNames(r.value.0)
  {
    var r := AddMcpServer(db, userId, organizationId, serverName, serverUrl, description, newId, now);
    if r.Ok? {
      var servers := r.value.0.servers;
      forall i, j | 0 <= i < j < |servers|
        ensures !(servers[i].userId == servers[j].userId && servers[i].serverName == servers[j].serverName)
      {
        if j == |db.servers| {
          assert servers[i] in db.servers;
        }
      }
    }
  }

  /** The same name is accepted for a different user. */
  lemma SameNameOtherUser(db: Db, owner: string, other: string, organizationId: string, serverName: string,
                          serverUrl: string, description: Option<string>, newId: Id, now: int)
    requires IdFree(db, newId) && owner != other
    requires forall s :: s in db.servers && s.serverName == serverName ==> s.userId == owner
    ensures AddMcpServer(db, other, organizationId, serverName, serverUrl, description, newId, now).Ok?
  {
  }

  /** `listMcpServers`: the user's rows, in table order. */
  function ListMcpServers(db: Db, userId: string): (r: seq<ServerRow>)
    ensures forall s :: s in r <==> s in db.servers && s.userId == userId
  {
    Where(db.servers, (s: ServerRow) => s.userId == userId)
  }

  /** `getMcpServers`: the user's servers, each flagged enabled exactly when its id
      is in the user's list; all off when the user has no row. */
  function GetMcpServers(db: Db, userId: string): (r: seq<ServerView>)
    ensures var rows := ListMcpServers(db, userId);
            |r| == |rows| &&
            forall i :: 0 <= i < |rows| ==>
              r[i].id == rows[i].id && r[i].name == rows[i].serverName && r[i].url == rows[i].serverUrl &&
              (r[i].enabled <==> rows[i].id in Users.GetUserEnabledServers(db, userId))
    ensures FindUser(db, userId).None? ==> forall i :: 0 <= i < |r| ==> !r[i].enabled
  {
    var rows := ListMcpServers(db, userId);
    var ids := EnabledIds(FindUser(db, userId));
    seq(|rows|, i requires 0 <= i < |rows| => View(rows[i], rows[i].id in ids))
  }

  /** One entry per id whose row still exists, in list order, each enabled. */
  function Resolve(db: Db, ids: seq<Id>): (r: seq<ServerView>)
    ensures |r| <= |ids|
    ensures forall v :: v in r ==> v.enabled
    ensures forall v :: v in r <==>
              exists k :: 0 <= k < |ids| && GetServer(db, ids[k]).Some? && v == View(GetServer(db, ids[k]).value, true)
  {
    if |ids| == 0 then []
    else
      var rest := Resolve(db, ids[1..]);
      var head := match GetServer(db, ids[0]) case None => [] case Some(s) => [View(s, true)];
      assert forall v :: v in rest <==>
               exists k :: 1 <= k < |ids| && GetServer(db, ids[k]).Some? && v == View(GetServer(db, ids[k]).value, true) by {
        forall v | v in rest
          ensures exists k :: 1 <= k < |ids| && GetServer(db, ids[k]).Some? && v == View(GetServer(db, ids[k]).value, true)
        {
          var k :| 0 <= k < |ids[1..]| && GetServer(db, ids[1..][k]).Some? && v == View(GetServer(db, ids[1..][k]).value, true);
          assert ids[1..][k] == ids[k + 1];
        }
        forall v | exists k :: 1 <= k < |ids| && GetServer(db, ids[k]).Some? && v == View(GetServer(db, ids[k]).value, true)
          ensures v in rest
        {
          var k :| 1 <= k < |ids| && GetServer(db, ids[k]).Some? && v == View(GetServer(db, ids[k]).value, true);
          assert ids[1..][k - 1] == ids[k];
        }
      }
      head + rest
  }

  /** Resolution keeps list order: it distributes over concatenation ... */
  lemma {:induction false} ResolveAppend(db: Db, a: seq<Id>, b: seq<Id>)
    ensures Resolve(db, a + b) == Resolve(db, a) + Resolve(db, b)
    decreases |a|
  {
    if |a| > 0 {
      var head := Resolve(db, [a[0]]);
      assert (a + b)[1..] == a[1..] + b;
      assert (a + b)[0] == a[0];
      assert [a[0]][1..] == [];
      assert Resolve(db, a + b) == head + Resolve(db, a[1..] + b);
      assert Resolve(db, a) == head + Resolve(db, a[1..]);
      ResolveAppend(db, a[1..], b);
    } else {
      assert a + b == b;
    }
  }

  /** ... and one id gives its server's entry, or nothing once the row is gone. */
  lemma ResolveOne(db: Db, id: Id)
    ensures Resolve(db, [id]) == (if GetServer(db, id).Some? then [View(GetServer(db, id).value, true)] else [])
  {
    assert [id][1..] == [];
  }

  /** `getUserEnabledMcpServers`: empty for an unknown user or an empty list;
      otherwise the user's enabled servers whose rows still exist, in list order. */
  function GetUserEnabledMcpServers(db: Db, userId: string): (r: seq<ServerView>)
    ensures Users.GetUserEnabledServers(db, userId) == [] ==> r == []
    ensures forall v :: v in r ==> v.enabled
    ensures forall v :: v in r <==>
              exists id :: id in Users.GetUserEnabledServers(db, userId) && GetServer(db, id).Some? &&
                           v == View(GetServer(db, id).value, true)
  {
    var ids := EnabledIds(FindUser(db, userId));
    if |ids| == 0 then [] else Resolve(db, ids)
  }

  /** `listOrganizationServers`: the organization's rows in table order, each flagged
      enabled when a (non-empty) user id is given and that user's list holds it. */
  function ListOrganizationServers(db: Db, organizationId: string, userId: Option<string>): (r: seq<OrgServerView>)
    ensures var rows := Where(db.servers, (s: ServerRow) => s.organizationId == organizationId);
            |r| == |rows| &&
            forall i :: 0 <= i < |rows| ==>
              r[i].row == rows[i] &&
              (r[i].enabled <==> userId.Some? && userId.value != "" &&
                                 rows[i].id in Users.GetUserEnabledServers(db, userId.value))
    ensures forall v :: v in r ==> v.row in db.servers && v.row.organizationId == organizationId
  {
    var rows := Where(db.servers, (s: ServerRow) => s.organizationId == organizationId);
    var ids := if userId.Some? && userId.value != "" then EnabledIds(FindUser(db, userId.value)) else [];
    var r := seq(|rows|, i requires 0 <= i < |rows| => OrgServerView(rows[i], rows[i].id in ids));
    assert forall v :: v in r ==> v.row in rows;
    r
  }

  /** `updateMcpServer`: the supplied fields only; nothing supplied is an error. */
  function UpdateMcpServer(db: Db, id: Id, serverName: Option<string>, serverUrl: Option<string>,
                           description: Option<string>): (r: Result<(Db, Id), string>)
    ensures serverName.None? && serverUrl.None? && description.None? ==> r == Err(NoUpdates)
    ensures r.Ok? ==> ServerPosition(db.servers, id).Some? && r.value.1 == id && r.value.0.users == db.users
    ensures r.Ok? ==>
              var k := ServerPosition(db.servers, id).value;
              var old_ := db.servers[k];
              && |r.value.0.servers| == |db.servers|
              && (forall j :: 0 <= j < |db.servers| && j != k ==> r.value.0.servers[j] == db.servers[j])
              && r.value.0.servers[k].id == id
              && r.value.0.servers[k].userId == old_.userId
              && r.value.0.servers[k].organizationId == old_.organizationId
              && r.value.0.servers[k].createdAt == old_.createdAt
              && r.value.0.servers[k].serverName == serverName.GetOr(old_.serverName)
              && r.value.0.servers[k].serverUrl == serverUrl.GetOr(old_.serverUrl)
              && r.value.0.servers[k].description == (if description.Some? then description else old_.description)
    ensures (serverName.Some? || serverUrl.Some? || description.Some?) ==>
              (r.Ok? <==> ServerPosition(db.servers, id).Some?)
  {
    if serverName.None? && serverUrl.None? && description.None? then Err(NoUpdates)
    else match ServerPosition(db.servers, id)
      case None => Err(MissingDocument)
      case Some(k) =>
        var s := db.servers[k];
        var patched := s.(serverName := serverName.GetOr(s.serverName),
                          serverUrl := serverUrl.GetOr(s.serverUrl),
                          description := if description.Some? then description else s.description);
        Ok((db.(servers := db.servers[k := patched]), id))
  }

  /** `deleteMcpServer`: only that row goes; the users table, and with it any
      enabled list still naming the id, is untouched. */
  function DeleteMcpServer(db: Db, id: Id): (r: (Db, Id))
    ensures r.1 == id && r.0.users == db.users
    ensures forall s :: s in r.0.servers <==> s in db.servers && s.id != id
  {
    (db.(servers := Where(db.servers, (s: ServerRow) => s.id != id)), id)
  }

  /** After a deletion every user's enabled list is as before (a dangling id may
      remain), while the resolved enabled servers no longer include the deleted one. */
  lemma DeleteLeavesDanglingIds(db: Db, id: Id, userId: string)
    ensures var db' := DeleteMcpServer(db, id).0;
            && Users.GetUserEnabledServers(db', userId) == Users.GetUserEnabledServers(db, userId)
            && forall v :: v in GetUserEnabledMcpServers(db', userId) ==> v.id != id
  {
    var db' := DeleteMcpServer(db, id).0;
    forall v | v in GetUserEnabledMcpServers(db', userId) ensures v.id != id {
      var x :| x in Users.GetUserEnabledServers(db', userId) && GetServer(db', x).Some? &&
               v == View(GetServer(db', x).value, true);
      var k := ServerPosition(db'.servers, x).value;
      assert db'.servers[k] in db'.servers;
    }
  }
}
