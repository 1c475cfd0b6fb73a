# Folder permissions of the Grafana Terraform provider, in Dafny

The resource `grafana_folder_permission` manages the whole set of permission
grants on one Grafana folder. The declared set is authoritative. Every apply
writes the complete list of grants in one full-replace call to the
access-control API, so anything not declared is revoked. Read lists the
folder's grants and keeps only the managed, non-inherited ones. Delete cannot
remove the folder's permissions as an object, so it writes an empty list.

The model has five modules:

- `FolderPermission` (`folder_permission.dfy`) is the normaliser.
  - `ToCommand` turns a declared entry `{role, team_id, user_id, permission}`
    into a `SetResourcePermissionCommand`. `BuildCommands` is the loop that
    builds the command list.
  - `ToEntry` turns a reported grant back into an entry. `CollectEntries` is
    the loop that keeps the owned grants.
  - `SetKey` is the string the `permissions` set hashes.
  - `ParsePermissionType` maps permission names to levels.
- `Reconciler` (`reconciler.dfy`) is the lifecycle.
  - `ResourceData` is the resource's state (the Terraform `d`).
  - `AccessControlClient` is the remote service: a grant list per folder with
    full-replace writes.
  - `UpdateFolderPermissions`, `ReadFolderPermissions` and
    `DeleteFolderPermissions` change those two objects step by step, as the
    callbacks do.
  - `Replace` is the effect of one write on a folder's grant list. The lemmas
    about it cover what the lifecycle promises: read-back after apply,
    idempotence, last writer wins, and clearing.
- `GoStrconv` (`go_strconv.dfy`) models Go's `strconv.ParseInt(s, 10, 64)` and
  `strconv.FormatInt(i, 10)`. This includes ParseInt's syntax errors (value 0),
  its early stop on overflow and its clamping to the 64-bit bounds.
- `OrgResourceId` (`org_resource_id.dfy`) holds the "`<org>:<rest>`" ids. Their
  helpers are defined outside the modelled file (see "Left out").
- `Wrappers` (`wrappers.dfy`) defines `Option`.

The model follows the code as written in three places:

- A role is passed through whatever string it is. Only the schema validator
  restricts it.
- Decoding a stored id never fails. ParseInt errors on the org part are ignored.
- The `if role != ""` branch of the update loop is kept. Its effect is to copy
  the role verbatim, because the field's zero value is `""`. `ToCommand`'s
  contract says so.

## Model

| member | source | states |
|---|---|---|
| FolderPermission.SubjectId | internal/resources/grafana/resource_folder_permission.go:109-110 | The team or user id a declared string stands for: the org prefix is removed, then the rest is parsed. It has no contract of its own. `SubjectIdIgnoresOrgPrefix` states that a prefix does not change it, and `ToCommand`'s contract states how the command uses it. |
| FolderPermission.SubjectIdIgnoresOrgPrefix | internal/resources/grafana/resource_folder_permission.go:109-115 | For a colon-free org and id, `org:id` and `id` stand for the same subject id, and that id is what ParseInt makes of `id`. |
| FolderPermission.ToCommand | internal/resources/grafana/resource_folder_permission.go:104-119 | The command's role equals the entry's role: an empty role stays the zero value. The permission is copied verbatim. Team and user ids are never negative. Each id is non-zero exactly when the entry's id, with any org prefix removed and then parsed, is positive, and then it equals that parsed value. |
| FolderPermission.NewCommand | internal/resources/grafana/resource_folder_permission.go:104-120 | The imperative loop body, with its three conditional field assignments, builds exactly `ToCommand` of the entry. |
| FolderPermission.Commands | internal/resources/grafana/resource_folder_permission.go:102-121 | The submitted list has one command per declared entry, in order: the same length, and element i is the command for entry i. |
| FolderPermission.BuildCommands | internal/resources/grafana/resource_folder_permission.go:102-121 | The append loop returns a list as long as the declared list, equal to `Commands` of it. |
| FolderPermission.CommandsSnoc | internal/resources/grafana/resource_folder_permission.go:120 | Appending one entry to the declared list appends exactly that entry's command to the submitted list. |
| FolderPermission.IsOwned | internal/resources/grafana/resource_folder_permission.go:152 | A grant belongs to this resource exactly when it is managed and not inherited. It has no contract of its own: `ToEntry`, `EntriesOfUnowned`, `AsGrant` and `Replace` state what depends on it. |
| FolderPermission.ToEntry | internal/resources/grafana/resource_folder_permission.go:152-159 | A grant yields an entry if and only if it is managed and not inherited. The entry's role and permission are the grant's. Its id strings contain no org prefix and parse back, without error, to the grant's team and user ids (an unset id reads "0"). A non-negative id is written as a canonical decimal string. |
| FolderPermission.Entries | internal/resources/grafana/resource_folder_permission.go:149-162 | Reading never yields more entries than there are remote grants. |
| FolderPermission.CollectEntries | internal/resources/grafana/resource_folder_permission.go:149-162 | The skip-and-append loop returns exactly `Entries` of the reported grants. |
| FolderPermission.EntriesAppend | internal/resources/grafana/resource_folder_permission.go:150-162 | Reading keeps the original order: the entries of `a + b` are the entries of `a` followed by those of `b`. |
| FolderPermission.EntriesOfUnowned | internal/resources/grafana/resource_folder_permission.go:151-154 | A list with only unmanaged or inherited grants reads as no entries at all. |
| FolderPermission.EntriesFromOwned | internal/resources/grafana/resource_folder_permission.go:150-161 | Every stored entry is the image of some managed, non-inherited grant of the list. |
| FolderPermission.EntriesOfOwned | internal/resources/grafana/resource_folder_permission.go:150-161 | When every grant is owned, reading keeps all of them: one entry each, position by position. |
| FolderPermission.CanonicalIdOf | internal/resources/grafana/resource_folder_permission.go:157-158 | Every non-negative id that Read writes with FormatInt is a canonical id string. |
| FolderPermission.EntryRoundTrip | internal/resources/grafana/resource_folder_permission.go:106-159 | An entry whose ids are canonical decimal strings comes back unchanged after two steps: mapping it to a command, then reading that command back as a managed, non-inherited grant. |
| FolderPermission.CommandRoundTrip | internal/resources/grafana/resource_folder_permission.go:106-159 | A command with non-negative ids, read back as an owned grant and mapped again, is the same command. |
| FolderPermission.EntriesOfCommands | internal/resources/grafana/resource_folder_permission.go:103-162 | Take a list of canonical entries, map it to commands and apply them as owned grants. Reading those grants gives back the same list. |
| FolderPermission.ParsePermissionType | internal/resources/grafana/resource_folder_permission.go:182-193 | The result is always one of -1, 1, 2 and 4. It is non-negative exactly for the three permissions the schema validator accepts (View, Edit, Admin; line 79). |
| FolderPermission.PermissionLevels | internal/resources/grafana/resource_folder_permission.go:182-193 | The accepted permissions map to distinct levels, increasing from View through Edit to Admin. |
| FolderPermission.SetKey | internal/resources/grafana/resource_folder_permission.go:49-55 | The string the `permissions` set hashes: role, team id and user id (both with the org prefix removed), then permission, with no separator. It has no contract of its own. Its properties are carried by `SetKeyIgnoresOrgPrefix` (an org prefix does not change it) and `SetKeyCollision` (two different entries share one key). |
| FolderPermission.SetKeyIgnoresOrgPrefix | internal/resources/grafana/resource_folder_permission.go:49-54 | The set key does not change when an org prefix is added to the team id, to the user id, or to both. |
| FolderPermission.SetKeyCollision | internal/resources/grafana/resource_folder_permission.go:54 | Two different entries share one set key: team "1" with user "23", and team "12" with user "3". See Findings. |
| FolderPermission.EntryIdentityExact | internal/resources/grafana/resource_folder_permission.go:49-54 | The corrected identity (a tuple of the normalised fields) is equal for two entries exactly when their org-stripped forms are equal. |
| FolderPermission.EntryIdentityIgnoresOrgPrefix | internal/resources/grafana/resource_folder_permission.go:49-54 | The corrected identity ignores an org prefix on the team and user ids, like the set key does. |
| GoStrconv.ParseInt | internal/resources/grafana/resource_folder_permission.go:110 | The empty string is a syntax error. A syntax error yields 0. A range error yields MaxInt64 or MinInt64. A negative value comes only from a string starting with '-'. |
| GoStrconv.FormatInt | internal/resources/grafana/resource_folder_permission.go:157 | The decimal text is never empty and never contains ':'. It is all digits exactly when the number is non-negative. |
| GoStrconv.ParseFormatInt | internal/resources/grafana/resource_folder_permission.go:157-158 | Every 64-bit integer written by FormatInt is read back by ParseInt exactly, with no error. |
| OrgResourceId.SplitAtColon | internal/resources/grafana/resource_folder_permission.go:109 | There is a split exactly when the id contains ':'. The id is then the part before, a ':', and the part after, and the part before contains no ':'. |
| OrgResourceId.SplitOrgResourceID | internal/resources/grafana/resource_folder_permission.go:109 | An id without ':' has org 0 and is returned whole. Otherwise the rest is what follows the first ':', and the org is what ParseInt makes of the text before it. |
| OrgResourceId.StripOrgPrefix | internal/resources/grafana/resource_folder_permission.go:109-114 | Removing the org prefix leaves a colon-free id unchanged, and turns `org + ":" + id` back into `id`. |
| OrgResourceId.MakeOrgResourceID | internal/resources/grafana/resource_folder_permission.go:129 | The stored id `<org>:<uid>`, written with FormatInt, as lines 129 and 164 set it. It has no contract of its own. `SplitOfMade` and `ExistingOfMade` state that the id decodes back to its parts. |
| OrgResourceId.SplitOfMade | internal/resources/grafana/resource_folder_permission.go:129-135 | SplitOrgResourceID of `MakeOrgResourceID(org, uid)` gives back exactly `(org, uid)`, even for a uid that contains ':'. |
| OrgResourceId.ExistingOfMade | internal/resources/grafana/resource_folder_permission.go:129-135 | An id written by Update locates the same folder again in Read, whatever the uid holds, including a uid with a colon. Its organisation is the one written, or the configured one when the written organisation is 0. |
| OrgResourceId.ExistingOrgResource | internal/resources/grafana/resource_folder_permission.go:135 | The folder uid is the id with its org prefix removed. An id without an org part uses the configured organisation. |
| Reconciler.AccessControlClient.Failure | internal/resources/grafana/resource_folder_permission.go:138-144 | A call about a folder succeeds exactly when the service is not refusing calls and the folder exists. |
| Reconciler.AccessControlClient.GetFolderByUid | internal/resources/grafana/resource_folder_permission.go:138 | The existence check fails exactly as `Failure` says. |
| Reconciler.AccessControlClient.GetResourcePermissions | internal/resources/grafana/resource_folder_permission.go:143 | On success the payload is the current grant list of the folder under the `folders` resource type. On failure the payload is empty and the error is reported. |
| Reconciler.AccessControlClient.SetResourcePermissions | internal/resources/grafana/resource_folder_permission.go:125 | The write is all or nothing. On success only the list of the written (resource type, uid) pair changes, to `Replace` of its old list. On failure nothing changes. |
| Reconciler.UpdateFolderPermissions | internal/resources/grafana/resource_folder_permission.go:95-132 | If the write fails, its error is returned directly and neither the resource state nor the remote changes, so the id is not set. If it succeeds, the folder's grants under the `folders` type become `Replace` of the old ones with `Commands` of the declared entries. The id becomes `MakeOrgResourceID(orgId, folderUid)`, and the diagnostics and state are then `ReadResult` of that state, with the same NotFound handling. |
| Reconciler.CheckReadError | internal/resources/grafana/resource_folder_permission.go:139-141 | The caller stops exactly when there is an error. A refusal is reported and keeps the id. A NotFound is either reported and keeps the id, or reported as nothing and clears the id, as the handling parameter says. No error reports nothing and keeps the id. |
| Reconciler.ReadResult | internal/resources/grafana/resource_folder_permission.go:134-170 | For the folder the stored id names: a refusal is reported and the state is unchanged; a missing folder is reported with the state unchanged, or not reported with the id cleared, by the handling parameter; otherwise nothing is reported and the id, org, folder uid and `Entries` of the folder's grants are stored. |
| Reconciler.ReadFolderPermissions | internal/resources/grafana/resource_folder_permission.go:134-170 | The diagnostics and the new state are exactly `ReadResult` of the old state, the client and the NotFound handling. |
| Reconciler.DeleteFolderPermissions | internal/resources/grafana/resource_folder_permission.go:172-180 | An empty command list is written to the folder the id names. On success that folder's owned grants are revoked. The write's error goes through `CheckReadError`: the diagnostics are its diagnostics, the id is cleared exactly when it says so, and the rest of the state is unchanged. |
| Reconciler.Replace | internal/resources/grafana/resource_folder_permission.go:125 | The folder's grants after a full-replace write, as the writes at lines 125 and 177 leave them. This is the service behaviour assumed under "Left out". Its contract states the length: the kept grants plus one per command. It also states the order: a grant is owned exactly when it comes after all the kept ones. `ReplaceKeepsUnowned`, `LastWriterWins`, `ApplyIdempotent`, `ApplyThenRead` and `ClearRevokesOwned` carry its other properties. |
| Reconciler.Unowned | internal/resources/grafana/resource_folder_permission.go:20-21 | What a write keeps is never longer than the old list and holds only unmanaged or inherited grants. |
| Reconciler.ReplaceKeepsUnowned | internal/resources/grafana/resource_folder_permission.go:20-21 | A write leaves the unmanaged and inherited grants of the folder exactly as they were. |
| Reconciler.LastWriterWins | internal/resources/grafana/resource_folder_permission.go:20-21 | Two writes in a row leave the folder as the second write alone would. |
| Reconciler.ApplyIdempotent | internal/resources/grafana/resource_folder_permission.go:125 | Applying the same declared set twice gives the same remote state as applying it once. |
| Reconciler.ApplyThenRead | internal/resources/grafana/resource_folder_permission.go:125-162 | After a write of canonical entries, reading the folder gives back exactly those entries, whatever grants it held before. |
| Reconciler.ClearRevokesOwned | internal/resources/grafana/resource_folder_permission.go:172-177 | After the empty write, reading yields no entries. The folder keeps exactly its unmanaged and inherited grants. |
| Reconciler.EditorGrantScenario | internal/resources/grafana/resource_folder_permission.go:103-129 | A declared Editor/Edit entry with ids "0" is submitted as the single command `{Editor, 0, 0, Edit}`. Org 1 and folder "abc123" give the id "1:abc123". |
| Reconciler.InheritedGrantScenario | internal/resources/grafana/resource_folder_permission.go:150-162 | There are two reported grants: a direct View for team 5 and an inherited Admin for team 9. Reading them yields only `{"", "5", "0", "View"}`. |

## Left out

- Terraform schema wiring is not modelled. This covers the importer, diagnostics,
  `context` and `meta` (lines 17-93). The role and permission validators appear
  only as `ValidPermissions`, for the `ParsePermissionType` property.
- Diagnostics are reduced to an `Option<ApiError>`. There are two errors:
  `NotFound` (the folder does not exist) and `Rejected` (the service refuses
  the call). `Rejected` stands for authentication, validation and transient
  failures, which come from outside and appear as a flag on the client.
- The source of the real `SplitOrgResourceID`, `MakeOrgResourceID`,
  `OAPIClientFromNewOrgResource` and `OAPIClientFromExistingOrgResource` is
  not part of this model. `OrgResourceId` gives stand-ins of the
  "`<org>:<rest>`" form: the first ':' separates the org, and an id without ':'
  has org 0. `SplitOfMade` and `ExistingOfMade` are facts about these
  stand-ins, not about the real helpers.
- Update receives the organisation that `OAPIClientFromNewOrgResource` resolves
  as a parameter.
- Scoping the client to an organisation is not modelled. Grants are keyed by
  resource type and folder uid, without the organisation.
- `common.CheckReadError` is not part of this model. `CheckReadError` here
  stands for its effect. A refusal is reported. What it does with a NotFound is
  the parameter `NotFoundHandling`: either report it, or report nothing and
  clear the id. Which of the two the real helper does is not fixed here, and
  neither is a warning it might emit instead of an error.
- ReadFolderPermissions: the second error check, after `GetResourcePermissions`,
  can never stop in the model, because the client's state does not change
  between the two calls. A folder deleted between them is not modelled.
- Two behaviours of the remote service are assumptions of the model, not code
  in the source. A write keeps unmanaged and inherited grants in their order
  and appends the written commands as managed, non-inherited grants in the
  order given. Other fields of the reported grants, such as ids, actions and
  names, are omitted.
- `schema.HashString` (a CRC-based integer hash) is not modelled. Only the key
  string `SetKey` is.
- The framework's deduplication of the `permissions` set is not modelled either.
  The declared entries reach Update as the set's list.
- Strings are sequences of characters. Go's ParseInt works on bytes, and the
  difference does not change which strings parse.
- `PermissionType` is a 64-bit integer in Go and an `int` here. Its values are
  small constants.

## Findings

| source | as written | input that shows it | evidently intended | confidence | as-written member | corrected member |
|---|---|---|---|---|---|---|
| internal/resources/grafana/resource_folder_permission.go:54 | The set key concatenates role, team id, user id and permission with no separator. | `{team_id: "1", user_id: "23", permission: "View"}` and `{team_id: "12", user_id: "3", permission: "View"}` both give the key "123View", so the set treats them as one element. | Entries that differ after removing org prefixes get different identities. | low: it needs entries with both a team and a user id; not executed | FolderPermission.SetKeyCollision | FolderPermission.EntryIdentityExact |
