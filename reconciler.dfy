/**
 * The lifecycle of the `grafana_folder_permission` resource: Create and Update
 * write the whole declared permission set, Read reads back the grants this
 * resource owns, Delete writes an empty set. The access-control API is a remote
 * list of grants per folder whose write replaces every owned grant at once.
 */
module Reconciler {

  import opened Wrappers
  import opened GoStrconv
  import opened OrgResourceId
  import opened FolderPermission

  /** The failures the API calls report: a missing folder, or any other refusal. */
  datatype ApiError = NotFound | Rejected

  /** The grants of a list that this resource does not own: unmanaged or inherited. */
  function Unowned(grants: seq<RemoteGrant>): (r: seq<RemoteGrant>)
    ensures |r| <= |grants|
    ensures forall i :: 0 <= i < |r| ==> !IsOwned(r[i])
  {
    if grants == [] then []
    else if IsOwned(grants[0]) then Unowned(grants[1..])
    else [grants[0]] + Unowned(grants[1..])
  }

  /**
   * The grants of a folder after a full-replace write of `cmds`: the grants the
   * resource does not own stay, and the owned ones are exactly the commands.
   */
  function Replace(grants: seq<RemoteGrant>, cmds: seq<Command>): (r: seq<RemoteGrant>)
    ensures |r| == |Unowned(grants)| + |cmds|
    ensures forall i :: 0 <= i < |r| ==> (IsOwned(r[i]) <==> i >= |Unowned(grants)|)
  {
    Unowned(grants) + AsGrants(cmds)
  }

  lemma {:induction false} UnownedAppend(a: seq<RemoteGrant>, b: seq<RemoteGrant>)
    ensures Unowned(a + b) == Unowned(a) + Unowned(b)
  {
    if a == [] {
      assert a + b == b;
    } else {
      assert (a + b)[0] == a[0];
      assert (a + b)[1..] == a[1..] + b;
      UnownedAppend(a[1..], b);
      if !IsOwned(a[0]) {
        assert [a[0]] + (Unowned(a[1..]) + Unowned(b)) == ([a[0]] + Unowned(a[1..])) + Unowned(b);
      }
    }
  }

  lemma {:induction false} UnownedOfOwned(grants: seq<RemoteGrant>)
    requires forall i :: 0 <= i < |grants| ==> IsOwned(grants[i])
    ensures Unowned(grants) == []
  {
    if grants != [] {
      UnownedOfOwned(grants[1..]);
    }
  }

  lemma {:induction false} UnownedOfUnowned(grants: seq<RemoteGrant>)
    requires forall i :: 0 <= i < |grants| ==> !IsOwned(grants[i])
    ensures Unowned(grants) == grants
  {
    if grants != [] {
      UnownedOfUnowned(grants[1..]);
      assert [grants[0]] + grants[1..] == grants;
    }
  }

  /** A write leaves every grant the resource does not own as it was. */
  lemma {:induction false} ReplaceKeepsUnowned(grants: seq<RemoteGrant>, cmds: seq<Command>)
    ensures Unowned(Replace(grants, cmds)) == Unowned(grants)
  {
    UnownedAppend(Unowned(grants), AsGrants(cmds));
    UnownedOfUnowned(Unowned(grants));
    UnownedOfOwned(AsGrants(cmds));
    assert Unowned(grants) + [] == Unowned(grants);
  }

  /** Last writer wins: a second write undoes every trace of the first. */
  lemma {:induction false} LastWriterWins(grants: seq<RemoteGrant>, first: seq<Command>, second: seq<Command>)
    ensures Replace(Replace(grants, first), second) == Replace(grants, second)
  {
    ReplaceKeepsUnowned(grants, first);
  }

  /** Applying the same declared set twice leaves the folder as applying it once. */
  lemma ApplyIdempotent(grants: seq<RemoteGrant>, entries: seq<Entry>)
    ensures Replace(Replace(grants, Commands(entries)), Commands(entries)) == Replace(grants, Commands(entries))
  {
    LastWriterWins(grants, Commands(entries), Commands(entries));
  }

  /** After a write of canonical entries, reading the folder gives back exactly those entries. */
  lemma {:induction false} ApplyThenRead(grants: seq<RemoteGrant>, entries: seq<Entry>)
    requires forall i :: 0 <= i < |entries| ==> IsCanonicalId(entries[i].teamId) && IsCanonicalId(entries[i].userId)
    ensures Entries(Replace(grants, Commands(entries))) == entries
  {
    EntriesAppend(Unowned(grants), AsGrants(Commands(entries)));
    EntriesOfUnowned(Unowned(grants));
    EntriesOfCommands(entries);
  }

  /** After the empty write of Delete nothing owned is left, and everything else is untouched. */
  lemma {:induction false} ClearRevokesOwned(grants: seq<RemoteGrant>)
    ensures Entries(Replace(grants, [])) == []
    ensures Replace(grants, []) == Unowned(grants)
  {
    assert Replace(grants, []) == Unowned(grants) + [];
    assert Unowned(grants) + [] == Unowned(grants);
    EntriesOfUnowned(Unowned(grants));
  }

  /**
   * A declared Editor grant on folder "abc123" of organisation 1 is submitted as
   * one command with unset team and user, and the stored id is "1:abc123".
   */
  lemma EditorGrantScenario()
    ensures Commands([Entry("Editor", "0", "0", "Edit")]) == [Command("Editor", 0, 0, "Edit")]
    ensures MakeOrgResourceID(1, "abc123") == "1:abc123"
  {
    ParseFormatInt(0);
    StripOrgPrefix("", "0");
    assert FormatInt(0) == "0";
    assert FormatInt(1) == "1";
  }

  /** Of a direct and an inherited team grant, reading keeps only the direct one. */
  lemma InheritedGrantScenario()
    ensures Entries([RemoteGrant("", 5, 0, "View", true, false), RemoteGrant("", 9, 0, "Admin", true, true)])
         == [Entry("", "5", "0", "View")]
  {
    var grants := [RemoteGrant("", 5, 0, "View", true, false), RemoteGrant("", 9, 0, "Admin", true, true)];
    assert FormatInt(5) == "5" && FormatInt(0) == "0";
    assert grants[1..][1..] == [];
  }

  /**
   * How `common.CheckReadError` treats a NotFound: report it as an error, or
   * take the resource as gone, report nothing and drop it from the state (its
   * id becomes empty).
   */
  datatype NotFoundHandling = ReportNotFound | DropResource

  /** The outcome of `common.CheckReadError`: the diagnostics, whether the caller stops, whether the id is dropped. */
  datatype ReadCheck = ReadCheck(diags: Option<ApiError>, stop: bool, dropId: bool)

  /**
   * `common.CheckReadError` on the error of one API call: no error lets the
   * caller go on; a refusal is reported; a NotFound is handled as `onNotFound` says.
   */
  function CheckReadError(err: Option<ApiError>, onNotFound: NotFoundHandling): (r: ReadCheck)
    ensures r.stop <==> err.Some?
    ensures err == Some(Rejected) ==> r.diags == err && !r.dropId
    ensures err == Some(NotFound) ==>
      if onNotFound == ReportNotFound then r.diags == err && !r.dropId else r.diags.None? && r.dropId
    ensures err.None? ==> r.diags.None? && !r.dropId
  {
    match err
    case None => ReadCheck(None, false, false)
    case Some(Rejected) => ReadCheck(err, true, false)
    case Some(NotFound) =>
      if onNotFound == ReportNotFound then ReadCheck(err, true, false) else ReadCheck(None, true, true)
  }

  /**
   * The access-control API as the provider's client sees it: the folders that
   * exist, the grants on each (resource type, uid), and whether the service
   * refuses calls (authentication, validation or transient failures).
   */
  class AccessControlClient {
    var folders: set<string>
    var grants: map<(string, string), seq<RemoteGrant>>
    var refusing: bool
    /** The organisation the provider is configured for. */
    var defaultOrgId: Int64

    constructor (folders: set<string>, grants: map<(string, string), seq<RemoteGrant>>, refusing: bool, defaultOrgId: Int64)
      ensures this.folders == folders && this.grants == grants
      ensures this.refusing == refusing && this.defaultOrgId == defaultOrgId
    {
      this.folders := folders;
      this.grants := grants;
      this.refusing := refusing;
      this.defaultOrgId := defaultOrgId;
    }

    /** The grants currently on resource `uid` of type `resourceType` (none if never written). */
    function Grants(resourceType: string, uid: string): seq<RemoteGrant>
      reads this
    {
      if (resourceType, uid) in grants then grants[(resourceType, uid)] else []
    }

    /** The error a call about folder `uid` fails with, if any. */
    function Failure(uid: string): (r: Option<ApiError>)
      reads this
      ensures r.None? <==> !refusing && uid in folders
    {
      if refusing then Some(Rejected)
      else if uid !in folders then Some(NotFound)
      else None
    }

    /** GetFolderByUID, used only to learn whether the folder still exists. */
    method GetFolderByUid(uid: string) returns (err: Option<ApiError>)
      ensures err == Failure(uid)
    {
      err := Failure(uid);
    }

    /** GetResourcePermissions for a folder. */
    method GetResourcePermissions(uid: string, resourceType: string) returns (payload: seq<RemoteGrant>, err: Option<ApiError>)
      ensures err == Failure(uid)
      ensures payload == if err.None? then Grants(resourceType, uid) else []
    {
      err := Failure(uid);
      payload := if err.None? then Grants(resourceType, uid) else [];
    }

    /** The full-replace write behind updateResourcePermissions: all or nothing. */
    method SetResourcePermissions(uid: string, resourceType: string, cmds: seq<Command>) returns (err: Option<ApiError>)
      modifies this`grants
      ensures err == Failure(uid)
      ensures grants == if err.None? then old(grants)[(resourceType, uid) := Replace(old(Grants(resourceType, uid)), cmds)]
                        else old(grants)
    {
      err := Failure(uid);
      if err.None? {
        grants := grants[(resourceType, uid) := Replace(Grants(resourceType, uid), cmds)];
      }
    }
  }

  /** The values of a resource's Terraform state. */
  datatype Snapshot = Snapshot(id: string, orgId: string, folderUid: string, permissions: seq<Entry>)

  /** The resource's Terraform state: its id and the attributes the callbacks get and set. */
  class ResourceData {
    var id: string
    var orgId: string
    var folderUid: string
    var permissions: seq<Entry>

    constructor (id: string, orgId: string, folderUid: string, permissions: seq<Entry>)
      ensures this.id == id && this.orgId == orgId
      ensures this.folderUid == folderUid && this.permissions == permissions
    {
      this.id := id;
      this.orgId := orgId;
      this.folderUid := folderUid;
      this.permissions := permissions;
    }

    function State(): Snapshot
      reads this
    {
      Snapshot(id, orgId, folderUid, permissions)
    }
  }

  /**
   * What ReadFolderPermissions makes of state `s`: the diagnostics and the new
   * state. A refusal is reported and changes nothing; a missing folder is left
   * to CheckReadError; otherwise the id, org, uid and the owned grants' entries
   * are stored.
   */
  function ReadResult(s: Snapshot, client: AccessControlClient, onNotFound: NotFoundHandling): (r: (Option<ApiError>, Snapshot))
    reads client
    ensures var (orgId, uid) := ExistingOrgResource(s.id, client.defaultOrgId);
      && (client.Failure(uid) == Some(Rejected) ==> r == (Some(Rejected), s))
      && (client.Failure(uid) == Some(NotFound) ==>
            r == if onNotFound == ReportNotFound then (Some(NotFound), s) else (None, s.(id := "")))
      && (client.Failure(uid).None? ==>
            && r.0.None?
            && r.1.id == MakeOrgResourceID(orgId, uid)
            && r.1.orgId == FormatInt(orgId)
            && r.1.folderUid == uid
            && r.1.permissions == Entries(client.Grants(FoldersPermissionsType, uid)))
  {
    var (orgId, uid) := ExistingOrgResource(s.id, client.defaultOrgId);
    var check := CheckReadError(client.Failure(uid), onNotFound);
    if check.stop then (check.diags, if check.dropId then s.(id := "") else s)
    else (None, Snapshot(MakeOrgResourceID(orgId, uid), FormatInt(orgId), uid,
                         Entries(client.Grants(FoldersPermissionsType, uid))))
  }

  /**
   * ReadFolderPermissions: locate the folder from the stored id, check that it
   * exists, list its grants, and store the entries of the grants the resource
   * owns. Each call's error goes through CheckReadError.
   */
  method ReadFolderPermissions(d: ResourceData, client: AccessControlClient, onNotFound: NotFoundHandling)
    returns (diags: Option<ApiError>)
    modifies d
    ensures (diags, d.State()) == ReadResult(old(d.State()), client, onNotFound)
  {
    var located := ExistingOrgResource(d.id, client.defaultOrgId);
    var orgId, folderUid := located.0, located.1;
    var err := client.GetFolderByUid(folderUid);
    var check := CheckReadError(err, onNotFound);
    if check.stop {
      if check.dropId {
        d.id := "";
      }
      return check.diags;
    }
    var folderPermissions;
    folderPermissions, err := client.GetResourcePermissions(folderUid, FoldersPermissionsType);
    // The client does not change between the two calls, so this error check,
    // which the resource also runs through CheckReadError, never stops here.
    assert err.None?;
    var permissionItems := CollectEntries(folderPermissions);
    d.id := MakeOrgResourceID(orgId, folderUid);
    d.orgId := FormatInt(orgId);
    d.folderUid := folderUid;
    d.permissions := permissionItems;
    return None;
  }

  /**
   * UpdateFolderPermissions (also Create): write one command per declared
   * entry as the folder's whole permission set; on failure return the error
   * without setting the id; on success set the id from `orgId` and the folder
   * uid, then read the resource back.
   */
  method UpdateFolderPermissions(d: ResourceData, client: AccessControlClient, orgId: Int64, onNotFound: NotFoundHandling)
    returns (diags: Option<ApiError>)
    modifies d, client`grants
    ensures var uid := old(d.folderUid);
      old(client.Failure(uid)).Some? ==>
        diags == old(client.Failure(uid)) && unchanged(d) && unchanged(client)
    ensures var uid := old(d.folderUid);
      old(client.Failure(uid)).None? ==>
        && client.grants == old(client.grants)[(FoldersPermissionsType, uid) :=
             Replace(old(client.Grants(FoldersPermissionsType, uid)), Commands(old(d.permissions)))]
        && (diags, d.State()) == ReadResult(old(d.State()).(id := MakeOrgResourceID(orgId, uid)), client, onNotFound)
  {
    var list := d.permissions;
    var permissionList := BuildCommands(list);
    var folderUid := d.folderUid;
    var err := client.SetResourcePermissions(folderUid, FoldersPermissionsType, permissionList);
    if err.Some? {
      return err;
    }
    d.id := MakeOrgResourceID(orgId, folderUid);
    diags := ReadFolderPermissions(d, client, onNotFound);
  }

  /**
   * DeleteFolderPermissions: the folder itself stays, so the resource writes an
   * empty permission set, revoking every grant it owns; the write's error goes
   * through CheckReadError, whose decision to stop is ignored.
   */
  method DeleteFolderPermissions(d: ResourceData, client: AccessControlClient, onNotFound: NotFoundHandling)
    returns (diags: Option<ApiError>)
    modifies d, client`grants
    ensures var folderUid := ExistingOrgResource(old(d.id), client.defaultOrgId).1;
      var check := CheckReadError(old(client.Failure(folderUid)), onNotFound);
      && diags == check.diags
      && d.State() == (if check.dropId then old(d.State()).(id := "") else old(d.State()))
      && client.grants == if old(client.Failure(folderUid)).None?
                          then old(client.grants)[(FoldersPermissionsType, folderUid) :=
                                 Replace(old(client.Grants(FoldersPermissionsType, folderUid)), [])]
                          else old(client.grants)
  {
    var folderUid := ExistingOrgResource(d.id, client.defaultOrgId).1;
    var err := client.SetResourcePermissions(folderUid, FoldersPermissionsType, []);
    var check := CheckReadError(err, onNotFound);
    if check.dropId {
      d.id := "";
    }
    diags := check.diags;
  }

}
