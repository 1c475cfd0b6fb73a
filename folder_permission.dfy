/**
 * The permission-set normaliser of the `grafana_folder_permission` resource:
 * declared permission entries become the commands of a full-replace write, and
 * the grants the API reports back become declared entries again.
 */
module FolderPermission {

  import opened Wrappers
  import opened GoStrconv
  import opened OrgResourceId

  /** The resource-permission type tag of folders in the access-control API. */
  const FoldersPermissionsType: string := "folders"

  /** The permission levels the schema's validator accepts. */
  const ValidPermissions: seq<string> := ["View", "Edit", "Admin"]

  /**
   * One declared item of the `permissions` set. Team and user ids are strings
   * that may carry an "<org>:" prefix; the schema defaults both to "0".
   */
  datatype Entry = Entry(role: string, teamId: string, userId: string, permission: string)

  /** SetResourcePermissionCommand: a zero id means "not targeting this subject". */
  datatype Command = Command(builtInRole: string, teamId: Int64, userId: Int64, permission: string)

  /** A grant as GetResourcePermissions reports it, with its provenance flags. */
  datatype RemoteGrant = RemoteGrant(
    builtInRole: string, teamId: Int64, userId: Int64, permission: string,
    isManaged: bool, isInherited: bool)

  /** The id a declared team or user id string stands for: org prefix removed, then parsed. */
  function SubjectId(id: string): (r: Int64)
  {
    ParseInt(StripOrg(id)).value
  }

  /**
   * The body of the loop in UpdateFolderPermissions: the role only when it is
   * non-empty, the team and user ids only when they parse to a positive number,
   * the permission verbatim.
   */
  function ToCommand(e: Entry): (c: Command)
    ensures c.builtInRole == e.role
    ensures c.permission == e.permission
    ensures c.teamId >= 0 && c.userId >= 0
    ensures c.teamId > 0 <==> SubjectId(e.teamId) > 0
    ensures c.teamId > 0 ==> c.teamId == SubjectId(e.teamId)
    ensures c.userId > 0 <==> SubjectId(e.userId) > 0
    ensures c.userId > 0 ==> c.userId == SubjectId(e.userId)
  {
    var teamId := SubjectId(e.teamId);
    var userId := SubjectId(e.userId);
    Command(
      if e.role != "" then e.role else "",
      if teamId > 0 then teamId else 0,
      if userId > 0 then userId else 0,
      e.permission)
  }

  /** The grants this resource manages: directly assigned and not inherited from a parent folder. */
  predicate IsOwned(g: RemoteGrant) {
    g.isManaged && !g.isInherited
  }

  /** The id strings ReadFolderPermissions writes for a non-negative id: FormatInt of what they parse to. */
  predicate IsCanonicalId(id: string) {
    var n := ParseInt(id).value;
    n >= 0 && id == FormatInt(n)
  }

  /**
   * The body of the loop in ReadFolderPermissions: nothing for a grant that is
   * unmanaged or inherited, otherwise an entry with the role and permission
   * copied and the ids written in decimal (so an unset id reads "0").
   */
  function ToEntry(g: RemoteGrant): (r: Option<Entry>)
    ensures r.Some? <==> IsOwned(g)
    ensures r.Some? ==> r.value.role == g.builtInRole && r.value.permission == g.permission
    ensures r.Some? ==> ParseInt(r.value.teamId) == Parsed(g.teamId, NoError) && ':' !in r.value.teamId
    ensures r.Some? ==> ParseInt(r.value.userId) == Parsed(g.userId, NoError) && ':' !in r.value.userId
    ensures r.Some? && g.teamId >= 0 ==> IsCanonicalId(r.value.teamId)
    ensures r.Some? && g.userId >= 0 ==> IsCanonicalId(r.value.userId)
  {
    if !g.isManaged || g.isInherited then None
    else
      ParseFormatInt(g.teamId);
      ParseFormatInt(g.userId);
      Some(Entry(g.builtInRole, FormatInt(g.teamId), FormatInt(g.userId), g.permission))
  }

  /** A command as the API reports it once applied: a managed grant on the folder itself. */
  function AsGrant(c: Command): (g: RemoteGrant)
    ensures IsOwned(g)
  {
    RemoteGrant(c.builtInRole, c.teamId, c.userId, c.permission, true, false)
  }

  /** The command list UpdateFolderPermissions submits: one command per declared entry, in order. */
  function Commands(entries: seq<Entry>): (r: seq<Command>)
    ensures |r| == |entries|
    ensures forall i :: 0 <= i < |entries| ==> r[i] == ToCommand(entries[i])
  {
    if entries == [] then [] else [ToCommand(entries[0])] + Commands(entries[1..])
  }

  /** The entries ReadFolderPermissions stores: the owned grants, in their order, as entries. */
  function Entries(grants: seq<RemoteGrant>): (r: seq<Entry>)
    ensures |r| <= |grants|
  {
    if grants == [] then []
    else
      var rest := Entries(grants[1..]);
      match ToEntry(grants[0])
      case None => rest
      case Some(e) => [e] + rest
  }

  /** The managed, non-inherited grants that applying `cmds` leaves on a folder. */
  function AsGrants(cmds: seq<Command>): (r: seq<RemoteGrant>)
    ensures |r| == |cmds|
    ensures forall i :: 0 <= i < |cmds| ==> r[i] == AsGrant(cmds[i])
  {
    if cmds == [] then [] else [AsGrant(cmds[0])] + AsGrants(cmds[1..])
  }

  /** One pass of the loop in UpdateFolderPermissions: the command for one declared entry. */
  method NewCommand(permission: Entry) returns (permissionItem: Command)
    ensures permissionItem == ToCommand(permission)
  {
    permissionItem := Command("", 0, 0, "");
    if permission.role != "" {
      permissionItem := permissionItem.(builtInRole := permission.role);
    }
    var teamId := SubjectId(permission.teamId);
    if teamId > 0 {
      permissionItem := permissionItem.(teamId := teamId);
    }
    var userId := SubjectId(permission.userId);
    if userId > 0 {
      permissionItem := permissionItem.(userId := userId);
    }
    permissionItem := permissionItem.(permission := permission.permission);
  }

  /** Commands of a list extended by one entry: the command for that entry comes last. */
  lemma {:induction false} CommandsSnoc(entries: seq<Entry>, e: Entry)
    ensures Commands(entries + [e]) == Commands(entries) + [ToCommand(e)]
  {
    var r, l := Commands(entries + [e]), Commands(entries) + [ToCommand(e)];
    assert |r| == |l|;
    forall k | 0 <= k < |r|
      ensures r[k] == l[k]
    {
      assert (entries + [e])[k] == if k < |entries| then entries[k] else e;
    }
  }

  /** The loop of UpdateFolderPermissions that builds `permissionList` by appending. */
  method BuildCommands(list: seq<Entry>) returns (permissionList: seq<Command>)
    ensures |permissionList| == |list|
    ensures permissionList == Commands(list)
  {
    permissionList := [];
    var i := 0;
    while i < |list|
      invariant 0 <= i <= |list|
      invariant permissionList == Commands(list[..i])
    {
      var permissionItem := NewCommand(list[i]);
      assert list[..i + 1] == list[..i] + [list[i]];
      CommandsSnoc(list[..i], list[i]);
      permissionList := permissionList + [permissionItem];
      i := i + 1;
    }
    assert list[..i] == list;
  }

  /** The loop of ReadFolderPermissions that builds `permissionItems` by appending. */
  method CollectEntries(folderPermissions: seq<RemoteGrant>) returns (permissionItems: seq<Entry>)
    ensures permissionItems == Entries(folderPermissions)
  {
    permissionItems := [];
    var i := 0;
    while i < |folderPermissions|
      invariant 0 <= i <= |folderPermissions|
      invariant permissionItems == Entries(folderPermissions[..i])
    {
      var permission := folderPermissions[i];
      assert folderPermissions[..i + 1] == folderPermissions[..i] + [permission];
      EntriesAppend(folderPermissions[..i], [permission]);
      i := i + 1;
      if !permission.isManaged || permission.isInherited {
        continue;
      }
      var permissionItem := Entry(
        permission.builtInRole,
        FormatInt(permission.teamId),
        FormatInt(permission.userId),
        permission.permission);
      permissionItems := permissionItems + [permissionItem];
    }
    assert folderPermissions[..i] == folderPermissions;
  }

  /** Reading is compositional: the entries of a concatenation are the concatenated entries. */
  lemma {:induction false} EntriesAppend(a: seq<RemoteGrant>, b: seq<RemoteGrant>)
    ensures Entries(a + b) == Entries(a) + Entries(b)
  {
    if a == [] {
      assert a + b == b;
    } else {
      assert (a + b)[0] == a[0];
      assert (a + b)[1..] == a[1..] + b;
      EntriesAppend(a[1..], b);
      match ToEntry(a[0])
      case None =>
      case Some(e) =>
        assert Entries(a + b) == [e] + Entries(a[1..] + b);
        assert [e] + (Entries(a[1..]) + Entries(b)) == ([e] + Entries(a[1..])) + Entries(b);
    }
  }

  /** Unmanaged and inherited grants never show up as declared entries. */
  lemma {:induction false} EntriesOfUnowned(grants: seq<RemoteGrant>)
    requires forall i :: 0 <= i < |grants| ==> !IsOwned(grants[i])
    ensures Entries(grants) == []
  {
    if grants != [] {
      EntriesOfUnowned(grants[1..]);
    }
  }

  /** Every stored entry comes from an owned grant of the list it was read from. */
  lemma {:induction false} EntriesFromOwned(grants: seq<RemoteGrant>, x: Entry)
    requires x in Entries(grants)
    ensures exists i :: 0 <= i < |grants| && IsOwned(grants[i]) && ToEntry(grants[i]) == Some(x)
  {
    if ToEntry(grants[0]) != Some(x) {
      EntriesFromOwned(grants[1..], x);
      var i :| 0 <= i < |grants[1..]| && IsOwned(grants[1..][i]) && ToEntry(grants[1..][i]) == Some(x);
      assert grants[i + 1] == grants[1..][i];
    }
  }

  /** When every grant is owned, reading keeps them all, in order, one entry each. */
  lemma {:induction false} EntriesOfOwned(grants: seq<RemoteGrant>)
    requires forall i :: 0 <= i < |grants| ==> IsOwned(grants[i])
    ensures |Entries(grants)| == |grants|
    ensures forall i :: 0 <= i < |grants| ==> ToEntry(grants[i]) == Some(Entries(grants)[i])
  {
    if grants != [] {
      EntriesOfOwned(grants[1..]);
      assert forall i :: 1 <= i < |grants| ==> grants[i] == grants[1..][i - 1];
    }
  }

  lemma {:induction false} CanonicalIdOf(n: Int64)
    requires n >= 0
    ensures IsCanonicalId(FormatInt(n))
  {
    ParseFormatInt(n);
  }

  /**
   * Entry round trip: an entry with canonical ids, turned into a command and
   * read back as a managed, non-inherited grant, is the entry itself.
   */
  lemma {:induction false} EntryRoundTrip(e: Entry)
    requires IsCanonicalId(e.teamId) && IsCanonicalId(e.userId)
    ensures ToEntry(AsGrant(ToCommand(e))) == Some(e)
  {
    StripOrgPrefix("", e.teamId);
    StripOrgPrefix("", e.userId);
  }

  /** Command round trip: a command with non-negative ids, read back and mapped again, is the command itself. */
  lemma {:induction false} CommandRoundTrip(c: Command)
    requires c.teamId >= 0 && c.userId >= 0
    ensures ToEntry(AsGrant(c)).Some?
    ensures ToCommand(ToEntry(AsGrant(c)).value) == c
  {
    var e := ToEntry(AsGrant(c)).value;
    StripOrgPrefix("", e.teamId);
    StripOrgPrefix("", e.userId);
  }

  /** Reading back the grants a list of canonical entries was applied as gives the list itself. */
  lemma {:induction false} EntriesOfCommands(entries: seq<Entry>)
    requires forall i :: 0 <= i < |entries| ==> IsCanonicalId(entries[i].teamId) && IsCanonicalId(entries[i].userId)
    ensures Entries(AsGrants(Commands(entries))) == entries
  {
    if entries != [] {
      EntryRoundTrip(entries[0]);
      EntriesOfCommands(entries[1..]);
      assert Commands(entries)[1..] == Commands(entries[1..]);
      assert AsGrants(Commands(entries))[1..] == AsGrants(Commands(entries[1..]));
    }
  }

  /**
   * parsePermissionType: View, Edit and Admin are the levels 1, 2 and 4; any
   * other string is -1.
   */
  function ParsePermissionType(permission: string): (r: int)
    ensures r == -1 || r == 1 || r == 2 || r == 4
    ensures r >= 0 <==> permission in ValidPermissions
  {
    if permission == "View" then 1
    else if permission == "Edit" then 2
    else if permission == "Admin" then 4
    else -1
  }

  /** The accepted permissions map to distinct levels, increasing from View to Admin. */
  lemma PermissionLevels(p: string, q: string)
    requires p in ValidPermissions && q in ValidPermissions
    ensures ParsePermissionType(p) == ParsePermissionType(q) <==> p == q
    ensures ParsePermissionType("View") < ParsePermissionType("Edit") < ParsePermissionType("Admin")
  {
  }

  /** The string the `permissions` set hashes: role, team and user ids without org prefix, permission. */
  function SetKey(e: Entry): string {
    e.role + StripOrg(e.teamId) + StripOrg(e.userId) + e.permission
  }

  /** An org prefix on a declared id does not change the id it stands for. */
  lemma {:induction false} SubjectIdIgnoresOrgPrefix(org: string, id: string)
    requires ':' !in org && ':' !in id
    ensures SubjectId(org + ":" + id) == SubjectId(id) == ParseInt(id).value
  {
    StripOrgPrefix(org, id);
  }

  /** The set key is the same with or without an org prefix on the team or user id. */
  lemma {:induction false} SetKeyIgnoresOrgPrefix(e: Entry, teamOrg: string, userOrg: string)
    requires ':' !in e.teamId && ':' !in e.userId
    requires ':' !in teamOrg && ':' !in userOrg
    ensures SetKey(e.(teamId := teamOrg + ":" + e.teamId)) == SetKey(e)
    ensures SetKey(e.(userId := userOrg + ":" + e.userId)) == SetKey(e)
    ensures SetKey(e.(teamId := teamOrg + ":" + e.teamId, userId := userOrg + ":" + e.userId)) == SetKey(e)
  {
    StripOrgPrefix(teamOrg, e.teamId);
    StripOrgPrefix(userOrg, e.userId);
  }

  /**
   * The concatenated set key cannot tell where the team id ends and the user
   * id begins: team 1 with user 23 and team 12 with user 3 share one key.
   */
  lemma SetKeyCollision()
    ensures Entry("", "1", "23", "View") != Entry("", "12", "3", "View")
    ensures SetKey(Entry("", "1", "23", "View")) == SetKey(Entry("", "12", "3", "View"))
  {
  }

  /** An entry with the org prefix removed from its ids. */
  function Normalized(e: Entry): Entry {
    e.(teamId := StripOrg(e.teamId), userId := StripOrg(e.userId))
  }

  /** The set identity of an entry as a tuple of its normalised fields. */
  function EntryIdentity(e: Entry): (string, string, string, string) {
    (e.role, StripOrg(e.teamId), StripOrg(e.userId), e.permission)
  }

  /** Two entries have the same identity exactly when their normalised forms are equal. */
  lemma EntryIdentityExact(a: Entry, b: Entry)
    ensures EntryIdentity(a) == EntryIdentity(b) <==> Normalized(a) == Normalized(b)
  {
  }

  /** The identity, like the set key, ignores an org prefix on the team or user id. */
  lemma {:induction false} EntryIdentityIgnoresOrgPrefix(e: Entry, teamOrg: string, userOrg: string)
    requires ':' !in e.teamId && ':' !in e.userId
    requires ':' !in teamOrg && ':' !in userOrg
    ensures EntryIdentity(e.(teamId := teamOrg + ":" + e.teamId, userId := userOrg + ":" + e.userId)) == EntryIdentity(e)
  {
    StripOrgPrefix(teamOrg, e.teamId);
    StripOrgPrefix(userOrg, e.userId);
  }
}
