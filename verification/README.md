# Access in the control panel: model and proofs

This project models how the control panel turns access records into permissions, and proves what
that does. Its centre is the S3 access policy of an IAM role: a JSON document that grants and revokes
edit in place. Around it stands the message protocol that carries the edits out, and five smaller
mechanisms that have a loop or a whole-run invariant of their own.

`dafny verify dfyconfig.toml` checks everything.

## The parts

| modules | what they model |
|---|---|
| `Strings`, `Options` | list and string operations of Python, IAM wildcards, absent values |
| `PolicyDocument` | the policy document as a value: statements, Sids, the single edits, load and put |
| `RoleGrants` | grants and revokes as sequences of edits, and what they do to one statement |
| `GrantLaws`, `FolderLaws` | repeating, overriding and undoing grants, for buckets and for folders |
| `Permissions` | what a document permits: IAM's reading of all statements, their actions, resources and conditions |
| `GrantRefinement` | whole runs on one role refine the map "datasource to last granted level and paths" |
| `FolderListing`, `ListingAccess` | listing permission of folders, spread over two statements |
| `ListingRuns` | listing over whole runs, and every use of a datasource read off the same map |
| `MetadataRights` | the rights of the base policy and the metadata of buckets, over whole runs |
| `AccessPolicy` | the classes: statement objects shared by the document and the lookup table, edited in place |
| `AccessTasks`, `AccessConvergence`, `AccessConservation` | the message protocol as a transition system over real documents |
| `TaskWorkers` | the code that takes the protocol's steps: sending, saving, removing, handling, retrying |
| `IpAllowlistRemoval` | removing an IP allowlist with one concurrent worker per app |
| `LakeFormationOptIns` | reference counting of database opt-ins |
| `Auth0Pagination`, `Auth0Connections` | fetching all pages, reconciling enabled connections |
| `ToolActivation` | at most one active deployment per user and tool type |
| `DnsLabel` | sanitising DNS labels |

## Main results

Policy documents. After any run of grants and revokes on one role, for buckets and folders alike,
the stored document encodes exactly the last grant of every datasource (`RunRefines`). IAM's reading
of the whole document, every statement with its actions, resources and conditions and with denials
first, allows an action on an object exactly when the map does (`AllowsExactly`). One operation is
exact on its own datasource and leaves every other one alone, also when one name extends the other
(`OpExact`, `OpFramed`); the datasources it leaves alone are exactly those that do not contain it and
are not inside it (`FramesIffUnrelated`). Repeating a grant leaves the document identical, order
included; the last grant decides; a revoke undoes a grant if and only if the document held nothing of
the datasource before (`RevokeUndoesGrantBucket`, `RevokeUndoesGrantFolder`). The object that edits the
document is proved to keep the sharing between document and lookup table and to do exactly these edits.

Listing. After a folder grant a role may list, of everything that starts with the folder's name,
exactly what the granted paths make listable (`ListingExact`; at the end of any run
`ListingAfterRun`): every granted path and every ancestor of it inside the folder, what the wildcards
below the paths match, and an ancestor with one slash more if that makes the number of its trailing
slashes odd. So one clause is not true of the code as one might expect it. A path with an empty
component, such as `/b//c`, has the ancestor `f/b/`, which may be listed while `f/b//` may not
(`EmptyComponentGap`). `ListingComplete` says for every path and ancestor when the further slash is
allowed: exactly if the ancestor ends in an even number of slashes, or the longer string is itself on
the way to a path or matched below one; `CleanAncestors` shows that paths without two slashes in a row
have no other. Over whole runs, what a document lets a role list of a bucket or folder is
read off the map of last grants too (`UseAfterRun`); for a folder this is so in every run if and only
if no other folder of the bucket in play has a name that begins its own (`ExactIffNoExtension`).
Granting or revoking a folder spares the listing of a sibling if and only if the sibling's name does
not start with the folder's (`SparesSibling`). The root of a bucket may be listed right after any folder
grant (`RootAfterGrant`), and at other times only while some folder of it is granted (`RootAfterRun`;
`RootListed` is the exact condition for a single grant on any document). No run takes away what the base
policy gives (`BaseRightsKept`).

Messages. In every run, with late acknowledgement, duplicates, reordering, crashes, cancellations,
retries and rows created again, access without a row, to objects or to a look at the contents, means
that a revoke is queued or was cancelled (`NoOrphanedAccess`). If rows are created only for pairs whose
revokes have all completed, no grant is cancelled and no bucket soft-deleted, every row is what the
document says or has a grant coming (`ConvergenceOfRuns`), and at rest access and rows agree use by use
(`AccessMatchesRows`). The condition on new rows is exact: a row may be created without giving this up
if and only if every revoke of its pair has completed (`SafeToCreateIffSettled`; a run that ends badly
is `UndisciplinedLoss`). A completed message has no further effect (`CompletionIsTerminal`) and every
row that goes leaves exactly one revoke (`RevokesConserved`). A delivery that is not stopped gives a user
exactly what the row then says, or takes the pair's access away, and completes its task exactly if the
handler finishes (`GrantTakesEffect`, `RevokeTakesEffect`, `DeliveryCompletes`); a completed task does
nothing more, a cancelled one nothing until it is retried (`CompletedForGood`, `CancelledUntilRetried`).

The smaller mechanisms. Under every interleaving a worker that is about to delete an allowlist, and
any step that does, finds no app that uses it; no worker finds it missing; and it is deleted in the
end if and only if no worker failed. That needs the removal to be left alone. If an app is unlinked by
hand, its worker can find the allowlist missing exactly when it has not read it, no other worker has
failed and some other one has not finished (`MissedIffOvertaken`). If an app is linked by hand, the
removal stays safe exactly when the app's worker has yet to take its links away; otherwise a worker
that had decided deletes an allowlist in use, and if none had, it is never deleted (`LinkedByHand`).

A database is opted in exactly when one of its tables is, in the runs in which every creation finds no
table of its principal under the same database name in another catalog, and in no others
(`AlwaysCountedIffCareful`). Where it fails, `CreateOptsIntoDatabase` and `DeleteKeepsCounted` say
exactly when each call miscounts or raises; with two catalogs one opt-in can be left without a table
and a table become undeletable (`SecondTableStuck`).

`get_all` returns the whole list after max(1, ceil(total / per_page)) requests and never needs more
requests than the reported total. A client ends up enabled on exactly the requested connections that
exist. A tool deployment is active exactly if its message was taken at some moment since when no request of
its user and type came, and no failed result of its own (`ActiveIffStillActive`). A request for a tool is
safe under every order of handling if and only if no earlier message for the same user and type was
pending, and a message may be delivered twice if and only if nothing else of them is active or pending
(`SafeIffOnlyLive`). A sanitised label is the lower-cased input's runs of letters and digits joined by
single hyphens, or the first 63 characters of that less a final hyphen (`LabelOfRuns`); the fixed points
are exactly the host labels without adjacent hyphens, and the empty one.

## Assumptions

- Handler runs are serialised: loading, editing and putting a role's policy is one step, and a
  handler's steps up to completion are not interleaved with changes of its own row. Removing a row and
  sending its revoke is one step.
- Documents that are loaded have distinct Sids, every statement has one, and statements under managed
  Sids hold their resources as a list (`Loadable`). Everything `put` writes is of that kind.
- MD5 is an arbitrary function to strings of 32 characters. Where two root buckets must not share a
  statement, the bucket names in play are required not to collide (`NoCollision`).
- A role's rights are those of the one document that is modelled. In its patterns `*` stands
  for any characters and `?` for one (`GlobOne`, `GlobParts`). A listing request is
  `s3:ListBucket` for a bucket and a prefix, with the delimiter "/"; a condition that the class does
  not write holds or not by a constant of its text.
- Bucket and folder names use `[a-z0-9.-]`; a folder datasource is `bucket/folder` with one slash;
  granted paths start with a slash. No datasource in play lies inside another (`ValidNames`); a
  bucket that is granted next to a folder in it does take the folder's access away when it is revoked
  (`BucketTakesFolders`).
- Row keys are never reused; in the results about whole runs of messages, users and their roles are not
  removed.
- The policy object is used from load up to `put`, as every caller does. `put` may detach emptied
  statements that the lookup table still holds.

## Model

| member | source | states |
|---|---|---|
| PolicyDocument.SidRoundTrip | controlpanel/api/aws.py:159-172 | from every Sid that can be constructed, loading recovers its base, and whether it is suffixed |
| PolicyDocument.SidInjective | controlpanel/api/aws.py:194-205 | equal Sids have the same base and the same suffix up to MD5 |
| PolicyDocument.ClassifyExact | controlpanel/api/aws.py:159-172 | the managed Sids are exactly the six names, and each of them followed by 32 characters |
| PolicyDocument.DoLookup | controlpanel/api/aws.py:207-232 | get-or-build and one edit change what the document holds under that Sid and under no other |
| PolicyDocument.ExecLookup | controlpanel/api/aws.py:355-401 | a sequence of edits acts on each statement independently of all others |
| PolicyDocument.ExecShape | controlpanel/api/aws.py:182-192 | edits keep all statements in place, append new ones at the end only, and keep Sids distinct |
| PolicyDocument.StoredFixpoint | controlpanel/api/aws.py:144-172 | loading a document that `put` wrote and putting it back changes nothing |
| PolicyDocument.PutOfExtension | controlpanel/api/aws.py:403-412 | a document that kept its statements and holds nothing live besides is stored as it was, order included |
| PolicyDocument.PutStored | controlpanel/api/aws.py:403-412 | what `put` stores has resources in every statement, distinct Sids and standard managed statements |
| PolicyDocument.PutExactly | controlpanel/api/aws.py:403-412 | `put` keeps exactly the statements with a Resource that is neither missing nor empty |
| PolicyDocument.PartOfExactly | controlpanel/api/aws.py:234-249 | a resource is part of an ARN if it is that, or goes on with a character other than the 38 of bucket names |
| PolicyDocument.ExecForeign | controlpanel/api/aws.py:182-232 | no sequence of edits changes, moves, adds or drops a statement with an unmanaged Sid |
| PolicyDocument.LoadForeign | controlpanel/api/aws.py:159-172 | loading leaves statements with unmanaged Sids alone |
| PolicyDocument.PutForeign | controlpanel/api/aws.py:403-412 | storing drops of the unmanaged statements only those without resources |
| AccessPolicy.S3AccessPolicy.constructor | controlpanel/api/aws.py:144-172 | loads the stored document or stores the base policy, resets managed statements and builds a lookup table that shares their objects |
| AccessPolicy.S3AccessPolicy.LoadDocument | controlpanel/api/aws.py:148-154 | the stored document as objects, or the base policy, which is stored at once |
| AccessPolicy.S3AccessPolicy.EnterStatements | controlpanel/api/aws.py:161-172 | one pass resets every managed statement and enters the document's own objects under their own Sids |
| AccessPolicy.S3AccessPolicy.BuildTable | controlpanel/api/aws.py:156-172 | afterwards the table and the document share exactly the managed statements, and the document's value is the loaded one |
| AccessPolicy.Statement.Reset | controlpanel/api/aws.py:161-172 | action and effect become those of the base statement, Sid, resources and condition stay |
| AccessPolicy.S3AccessPolicy.TableComplete | controlpanel/api/aws.py:207-225 | the lookup table has a managed Sid exactly when the document has a statement with it |
| AccessPolicy.S3AccessPolicy.BuildStatement | controlpanel/api/aws.py:182-192 | one blank statement object is appended to the document and entered in the table |
| AccessPolicy.S3AccessPolicy.GetStatement | controlpanel/api/aws.py:207-225 | returns the document's own object for the Sid, building it only when there is none; sharing is kept |
| AccessPolicy.S3AccessPolicy.Write | controlpanel/api/aws.py:227-232 | assigning the fields of one shared object is one edit of the document under its Sid; sharing is kept |
| AccessPolicy.S3AccessPolicy.AddResource | controlpanel/api/aws.py:227-232 | adds the ARN once, under that Sid only; sharing is kept |
| AccessPolicy.S3AccessPolicy.RemoveResource | controlpanel/api/aws.py:287-295 | removes what is part of the ARN, under that Sid only; sharing is kept |
| AccessPolicy.S3AccessPolicy.RemoveParts | controlpanel/api/aws.py:290-295 | removing while iterating over a copy leaves, in order, exactly the resources that are no part of the ARN |
| AccessPolicy.S3AccessPolicy.RemovePrefix | controlpanel/api/aws.py:251-285 | removes the folder's prefixes and, when none is left, the resource, under the listing Sid of the bucket only |
| AccessPolicy.S3AccessPolicy.GrowPrefixes | controlpanel/api/aws.py:314-325 | the loop over the path's components adds its ancestors, each with a slash, and then the path |
| AccessPolicy.S3AccessPolicy.AddFolderToListFolderPrefixes | controlpanel/api/aws.py:303-327 | one edit of the bucket's `listFolder` statement; its Resource must be there |
| AccessPolicy.S3AccessPolicy.AddFolderToListSubFoldersPrefixes | controlpanel/api/aws.py:329-345 | one edit of the bucket's `listSubFolders` statement; its Resource must be there |
| AccessPolicy.S3AccessPolicy.GrantObjectAccess | controlpanel/api/aws.py:297-298 | adds the ARN's objects to the level's statement |
| AccessPolicy.S3AccessPolicy.GrantListAccess | controlpanel/api/aws.py:300-301 | adds the ARN to `list` |
| AccessPolicy.S3AccessPolicy.RevokeAccess | controlpanel/api/aws.py:379-382 | the three removals, in the document's value |
| AccessPolicy.S3AccessPolicy.GrantFolderAccess | controlpanel/api/aws.py:355-377 | the document goes through the steps of a folder grant; the listing edits never miss a Resource |
| AccessPolicy.S3AccessPolicy.RevokeFolderAccess | controlpanel/api/aws.py:384-401 | the document goes through the steps of a folder revoke |
| AccessPolicy.S3AccessPolicy.LiveStatements | controlpanel/api/aws.py:407-410 | the comprehension keeps, in order, exactly the statements with resources |
| AccessPolicy.S3AccessPolicy.Put | controlpanel/api/aws.py:403-412 | stores the document without statements that have no resources, and keeps just these objects |
| AccessPolicy.GrantBucketAccess | controlpanel/api/aws.py:530-544 | raises on any other level, and when the role does not exist, and changes nothing then; otherwise the stored document is the regranted one |
| AccessPolicy.GrantFolderAccess | controlpanel/api/aws.py:546-558 | the same for folders; a name without a slash raises once the policy was loaded, when the base policy may have been stored |
| AccessPolicy.RevokeBucketAccess | controlpanel/api/aws.py:560-576 | does nothing for an empty ARN or a missing role; otherwise the stored document is the revoked one |
| AccessPolicy.RevokeFolderAccess | controlpanel/api/aws.py:578-590 | does nothing for a missing role; raises on a name without a slash, the policy loaded; otherwise the stored document is the revoked one |
| RoleGrants.GrantBucketOn | controlpanel/api/aws.py:530-544 | what a bucket grant does to any one statement, in closed form |
| RoleGrants.GrantFolderOn | controlpanel/api/aws.py:546-558 | what a folder grant does to any one statement, in closed form |
| RoleGrants.RevokeFolderOn | controlpanel/api/aws.py:384-401 | what a folder revoke does to any one statement, in closed form |
| RoleGrants.BucketAndFolder | controlpanel/api/aws.py:347-353 | a folder name is cut at its first slash, whatever follows |
| GrantLaws.GrantBucketRepeated | controlpanel/api/aws.py:530-544 | repeating a bucket grant leaves the stored document identical, order included |
| GrantLaws.GrantBucketOverrides | controlpanel/api/aws.py:530-544 | the last bucket grant decides under every Sid, whatever level and paths an earlier one had |
| GrantLaws.RevokeUndoesGrantBucket | controlpanel/api/aws.py:560-576 | grant, put, load, revoke, put gives the document back if and only if it held nothing of the bucket |
| GrantLaws.RepeatLaw | controlpanel/api/aws.py:403-412 | any role operation that is idempotent on single statements is idempotent on stored documents |
| GrantLaws.UndoLaw | controlpanel/api/aws.py:403-412 | two role operations that restore every statement restore the stored document and its order |
| GrantRefinement.PartsApart | controlpanel/api/aws.py:234-249 | a resource of one datasource is never part of an unrelated one, however similar the names |
| GrantRefinement.OpExact | controlpanel/api/aws.py:287-301 | after an operation, the datasource has exactly the granted resources in the chosen level, once and in order, and none in the other |
| GrantRefinement.OpFramed | controlpanel/api/aws.py:234-249 | the resources of every other datasource stay, in order, in all three statements |
| GrantRefinement.FramesIffUnrelated | controlpanel/api/aws.py:234-249 | every operation on one name leaves the other's resources alone, in every document, if and only if neither name lies inside the other |
| GrantRefinement.BucketTakesFolders | controlpanel/api/aws.py:234-249 | revoking a bucket takes away the object access to every folder in it |
| GrantRefinement.BaseEncodesNothing | controlpanel/api/aws.py:122-136 | the base policy gives no access |
| GrantRefinement.OpRefines | controlpanel/api/aws.py:530-590 | one load, edit and put takes an encoding of a map to an encoding of the updated map |
| GrantRefinement.RunRefines | controlpanel/api/aws.py:530-590 | after any run the document encodes exactly the last grant of every datasource |
| GrantRefinement.RunKeepsForeign | controlpanel/api/aws.py:182-232 | over any run, statements with unmanaged Sids stay, unchanged and in order |
| GrantRefinement.RunPlain | controlpanel/api/aws.py:530-590 | every run from the base policy stores a document of the kind that the override laws ask for |
| GrantRefinement.OpKeepsSealed | controlpanel/api/aws.py:182-232 | no operation gives object actions to a statement other than those of the two levels |
| GrantRefinement.AllowsByLevels | controlpanel/api/aws.py:77-118 | all statements of such a document together allow an action on an object exactly as the two levels' resources say |
| GrantRefinement.AllowsExactly | controlpanel/api/aws.py:530-590 | the whole document allows an action on an object exactly when its datasource is granted at a level that has the action, with a path that covers it |
| FolderListing.AncestorIsCut | controlpanel/api/aws.py:315-319 | the i-th path that the loop builds is the granted path cut before its (i+1)-th slash |
| FolderListing.CutIsAncestor | controlpanel/api/aws.py:315-319 | the loop builds every proper ancestor inside the folder |
| FolderListing.AddPathsApart | controlpanel/api/aws.py:303-345 | prefixes of other folders do not matter to what a grant adds, and stay in front of it |
| FolderListing.ListingGrantedForm | controlpanel/api/aws.py:251-285 | a listing statement after a folder grant: what was there of other folders, then the new prefixes |
| FolderListing.KeptOfGranted | controlpanel/api/aws.py:281 | taking the folder out again leaves the prefixes that were there before |
| FolderLaws.GrantFolderRepeated | controlpanel/api/aws.py:546-558 | repeating a folder grant leaves the stored document identical, order and conditions included |
| FolderLaws.GrantFolderOverrides | controlpanel/api/aws.py:546-558 | the last folder grant decides under every Sid: objects, listing prefixes and bucket metadata |
| FolderLaws.RevokeUndoesGrantFolder | controlpanel/api/aws.py:578-590 | grant, put, load, revoke, put gives the document back if and only if it had no trace of the folder or its bucket's metadata |
| FolderLaws.MetadataAfter | controlpanel/api/aws.py:384-392 | a folder grant adds its bucket's metadata access, a folder revoke takes it away whatever other folders remain, other buckets keep theirs |
| FolderLaws.RevokeSparesUnowned | controlpanel/api/aws.py:271-275 | a folder revoke leaves a listing statement alone whose Resource does not have the bucket |
| ListingAccess.AllowsByStatements | controlpanel/api/aws.py:77-118 | all statements of such a document together allow listing a bucket exactly as `list` and the bucket's two listing statements say |
| ListingAccess.OpListedUnder | controlpanel/api/aws.py:182-232 | no operation makes a statement about listing a bucket, but `list` and those of the bucket's own folders |
| ListingAccess.AncestorStep | controlpanel/api/aws.py:314-322 | one round of the loop keeps: the prefixes are the visited ancestors and those one slash longer than an even number |
| ListingAccess.TrailIsWay | controlpanel/api/aws.py:314-325 | what the loops visit is exactly the granted paths and their ancestors inside the folder |
| ListingAccess.NewPrefixesExact | controlpanel/api/aws.py:303-345 | the prefixes and patterns that a grant adds allow exactly what is listable by the paths alone |
| ListingAccess.ListingExact | controlpanel/api/aws.py:355-377 | after a folder grant a prefix that starts with the folder's name may be listed if and only if the paths make it listable, or `list` allows the bucket |
| ListingAccess.ListingComplete | controlpanel/api/aws.py:303-345 | every granted path and ancestor may be listed; with a further slash exactly if it ends in an even number of slashes, or the longer string is on the way or matched |
| ListingAccess.CleanAncestors | controlpanel/api/aws.py:314-319 | only a path with two slashes in a row has an ancestor that ends in a slash |
| ListingAccess.EmptyComponentGap | controlpanel/api/aws.py:314-322 | after a grant of "/b//c" the ancestor "f/b/" may be listed, "f/b//" not |
| ListingAccess.RootListed | controlpanel/api/aws.py:309-327 | after a folder grant the bucket's root may be listed exactly if `listFolder` limited no prefixes before or had the empty one, or `list` allows the bucket |
| ListingAccess.RevokedListsNothing | controlpanel/api/aws.py:384-401 | after a folder revoke nothing that starts with the folder's name may be listed, unless `list` allows the bucket |
| ListingAccess.OwnPrefixes | controlpanel/api/aws.py:251-345 | a folder operation takes out exactly the prefixes that start with the folder's name and adds exactly the new ones |
| ListingAccess.OpKeepsListing | controlpanel/api/aws.py:355-401 | every operation on any datasource keeps what is about listing a bucket in the form that the class writes |
| ListingAccess.SparesSibling | controlpanel/api/aws.py:281 | granting or revoking a folder keeps what may be listed inside a sibling if and only if the sibling's name does not start with the folder's |
| ListingRuns.OpKeepsListed | controlpanel/api/aws.py:530-590 | one operation on any datasource keeps the prefixes inside a folder those of its last grant |
| ListingRuns.ListCoversGranted | controlpanel/api/aws.py:297-301 | `list` allows a bucket exactly when it is granted, and never the root bucket of a folder |
| ListingRuns.UseAllowed | controlpanel/api/aws.py:530-590 | a document allows an action on an object, or a look at the contents, exactly when the last grant covers it |
| ListingRuns.UseAfterRun | controlpanel/api/aws.py:530-590 | so after any run from the base policy; of a folder nothing more may be listed, and nothing less unless another name begins its own |
| ListingRuns.ExactIffNoExtension | controlpanel/api/aws.py:281 | listing a folder is as last granted in every run if and only if no other folder in play has a name that begins its own |
| ListingRuns.ListingAfterRun | controlpanel/api/aws.py:355-377 | after any run, a folder grant lets the role list exactly what its paths make listable, whatever was granted before |
| ListingRuns.RootAfterGrant | controlpanel/api/aws.py:309-327 | after any run, a folder grant lets the role list the root of its bucket |
| ListingRuns.RootAfterRun | controlpanel/api/aws.py:251-327 | after any run a bucket's root may be listed only while some folder of it is granted, and while one is whose name no other begins |
| MetadataRights.BaseRightsKept | controlpanel/api/aws.py:122-136 | after any run a role may still list all buckets and access points and read the account's public access block |
| MetadataRights.BucketMetadata | controlpanel/api/aws.py:58-82 | after any run a role may read the metadata of every bucket granted to it |
| MetadataRights.FolderMetadata | controlpanel/api/aws.py:107-118 | right after a folder grant at the end of any run it may read the metadata of the folder's bucket |
| AccessTasks.AfterConsistent | controlpanel/api/models/access_to_s3bucket.py:59-66 | every run keeps pairs unique and ids in range, and every document encodes what its role was granted |
| AccessTasks.PendingKept | controlpanel/api/tasks/handlers/base.py:37-42 | a revoke stays pending until the delivery that takes the access away |
| AccessTasks.NothingGained | controlpanel/api/tasks/handlers/s3.py:47-60 | a pair without a row gains no access by any event |
| AccessTasks.AfterListed | controlpanel/api/tasks/handlers/s3.py:43-79 | in every run every role's document lists a datasource as its history of grants says |
| AccessTasks.RoleAllows | controlpanel/api/tasks/handlers/s3.py:43-79 | in every run a role's document allows what its last grants cover: objects, and contents of buckets and folders |
| AccessTasks.NoOrphanedAccess | controlpanel/api/tasks/handlers/s3.py:43-79 | in every run, access without a row, to an object or to list contents, means a revoke of the pair is queued or was cancelled, and not completed |
| AccessTasks.NoOrphanedRoot | controlpanel/api/tasks/handlers/s3.py:43-79 | in every run, if a user may list a bucket's root, some folder of it has a row for the user or a pending revoke |
| AccessTasks.CreateDoes | controlpanel/api/models/access_to_s3bucket.py:59-62 | a new pair gets a row under a new key, and one grant message for it is queued |
| AccessTasks.UpdateDoes | controlpanel/api/models/access_to_s3bucket.py:59-62 | the row has the new level and paths for the same pair, and one grant message for its key is queued |
| AccessTasks.DeleteDoes | controlpanel/api/models/access_to_s3bucket.py:64-66 | the row goes, and one revoke message for its pair is queued |
| AccessTasks.SoftDeleteDoes | controlpanel/api/models/s3bucket.py:186-200 | one revoke-all message for the bucket is queued, the rows stay |
| AccessTasks.StaffDo | controlpanel/frontend/views/task.py:41-51 | a recorded task is neither completed nor cancelled; cancelling sets that flag, retrying clears it and queues the message once more; nothing else changes |
| AccessTasks.DeliveryCompletes | controlpanel/api/tasks/handlers/base.py:21-42 | a delivery that is not stopped completes its task exactly if the handler finishes, and takes the message exactly if it is acknowledged |
| AccessTasks.GuardedDelivery | controlpanel/api/tasks/handlers/base.py:37-40 | a delivery of a completed or cancelled task changes nothing but takes the message if acknowledged |
| AccessTasks.RaisedDelivery | controlpanel/api/tasks/handlers/base.py:58-64 | a grant whose row is gone changes nothing and its message stays |
| AccessTasks.CompletedForGood | controlpanel/api/tasks/handlers/base.py:37-40 | once completed, whatever happens in between, no delivery changes a row, a document or what was sent |
| AccessTasks.CancelledUntilRetried | controlpanel/frontend/views/task.py:41-51 | once cancelled, the same until the task is retried |
| AccessTasks.GrantTakesEffect | controlpanel/api/tasks/handlers/s3.py:43-60 | in every run, the delivery of a grant gives the row's user exactly what the row then says, crash or not |
| AccessTasks.RevokeTakesEffect | controlpanel/api/tasks/handlers/s3.py:63-79 | in every run, the delivery of a revoke leaves the pair no use of the datasource, crash or not |
| AccessConvergence.AgreementKept | controlpanel/api/tasks/handlers/s3.py:43-79 | no message of another row, and no settled revoke, disturbs a document that agrees with a row |
| AccessConvergence.GrantKept | controlpanel/api/tasks/handlers/base.py:66-79 | a pending grant stays pending or makes the document agree with the current row |
| AccessConvergence.ConvergenceOfRuns | controlpanel/api/tasks/handlers/base.py:66-79 | in disciplined runs each row is what its document allows, or a grant for it will run |
| AccessConvergence.AccessMatchesRows | controlpanel/api/models/access_to_s3bucket.py:59-71 | at rest a user may act on an object, or list contents, exactly when a row says so |
| AccessConvergence.SafeToCreateIffSettled | controlpanel/api/models/access_to_s3bucket.py:59-66 | creating a row keeps convergence in every disciplined continuation if and only if all revokes of its pair have completed |
| AccessConvergence.UndisciplinedLoss | controlpanel/api/models/access_to_s3bucket.py:59-66 | a row created while an old revoke is queued may end up without any use of the datasource, at rest |
| AccessConservation.CompletionIsTerminal | controlpanel/frontend/views/task.py:41-51 | deliveries, retries and cancellations of a completed message change no row, message or document in any run |
| AccessConservation.RevokesConserved | controlpanel/api/models/access_to_s3bucket.py:64-88 | over any run, per pair: revokes sent plus the row present are the rows created plus revoke-alls over it |
| TaskWorkers.Platform.SendMessage | controlpanel/api/tasks/task_base.py:71-76 | the message is sent and queued under a new id |
| TaskWorkers.Platform.CreateTask | controlpanel/api/tasks/task_base.py:69-87 | the message, then its row, not completed and not cancelled |
| TaskWorkers.Platform.RetryTask | controlpanel/frontend/views/task.py:41-46 | the cancellation is lifted and the same message is queued again under the same id |
| TaskWorkers.Platform.CancelTask | controlpanel/frontend/views/task.py:48-51 | the row is marked, the message stays where it is |
| TaskWorkers.Platform.SaveNew | controlpanel/api/models/access_to_s3bucket.py:59-62 | a second row for the pair is refused; otherwise the row is stored and its grant sent |
| TaskWorkers.Platform.SaveExisting | controlpanel/api/models/access_to_s3bucket.py:59-62 | saving again sends a grant for the same key |
| TaskWorkers.InsertEvents | controlpanel/api/models/access_to_s3bucket.py:59-62 | saving a new row is the protocol's creation followed by the record of its message |
| TaskWorkers.ResaveEvents | controlpanel/api/models/access_to_s3bucket.py:59-62 | saving a row again is the protocol's update followed by the record of its message |
| TaskWorkers.Platform.PreDelete | controlpanel/api/models/access_to_s3bucket.py:75-88 | the signal sends a revoke unless the deletion started from the row itself |
| TaskWorkers.Platform.DeleteRow | controlpanel/api/models/access_to_s3bucket.py:64-66 | a direct deletion sends exactly one revoke, the signal none |
| TaskWorkers.Platform.DeleteMany | controlpanel/api/models/access_to_s3bucket.py:75-88 | deletion by queryset or cascade sends exactly one revoke for each row, and ends as deleting them one by one |
| TaskWorkers.DeletedAllEvents | controlpanel/api/models/access_to_s3bucket.py:64-88 | removing any number of rows is a run of the protocol: a removal and a record for each |
| TaskWorkers.Iam.ChangePolicy | controlpanel/api/cluster.py:343-361 | a call on a user changes that user's stored document as the operation says, and no other user's; without a role a grant raises and a revoke does nothing |
| TaskWorkers.Handler.Complete | controlpanel/api/tasks/handlers/base.py:21-27 | the row is marked completed; without a row nothing happens |
| TaskWorkers.Handler.Stopped | controlpanel/api/tasks/handlers/base.py:37-40 | the guard holds exactly for completed or cancelled rows |
| TaskWorkers.Handler.HandleGrant | controlpanel/api/tasks/handlers/s3.py:47-60 | grants what the current row says, to its user only, then completes; raises without a role, with no effect |
| TaskWorkers.Handler.HandleRevoke | controlpanel/api/tasks/handlers/s3.py:66-79 | revokes what the message captured, from its user only, then completes; for a removed user, or without a role, it just completes |
| TaskWorkers.Handler.HandleRevokeAll | controlpanel/api/tasks/handlers/s3.py:99-115 | creates exactly one revoke message for every access row of the bucket, then completes |
| TaskWorkers.Handler.RunGrant | controlpanel/api/tasks/handlers/base.py:66-79 | a run is the protocol's delivery; it raises exactly when it is not stopped and the row is gone, or the role missing, when nothing changes |
| TaskWorkers.Handler.RunRevoke | controlpanel/api/tasks/handlers/base.py:37-42 | a run is the protocol's delivery of the captured arguments; for a removed user it only completes the row |
| TaskWorkers.Handler.RunRevokeAll | controlpanel/api/tasks/handlers/base.py:66-79 | a run is the protocol's delivery with a sweep over the bucket's rows, and the new rows recorded |
| TaskWorkers.CallOfRevoke | controlpanel/api/tasks/s3bucket.py:75-86 | the captured arguments lead to the same call as the row's datasource would |
| TaskWorkers.RanByEvents | controlpanel/api/tasks/handlers/base.py:37-79 | what a handler does is a run of the protocol: one delivery, then a record for each message it sent |
| IpAllowlistRemoval.RangesExact | controlpanel/api/models/app.py:204-214 | a secret lists exactly the linked allowlists that exist, each once, ordered by key |
| IpAllowlistRemoval.NextUses | controlpanel/frontend/consumers.py:123-124 | links of the allowlist go only with the commit of their own app's worker, or the deletion |
| IpAllowlistRemoval.NextLinks | controlpanel/frontend/consumers.py:118-138 | which links an event takes away or replaces: of other allowlists none, but by an edit of that app and environment |
| IpAllowlistRemoval.NextMadeOf | controlpanel/frontend/consumers.py:126-133 | which secrets an event rewrites, each from exactly the existing allowlists that are linked then; all others stay |
| IpAllowlistRemoval.NextPhases | controlpanel/frontend/consumers.py:118-138 | how far each worker is after an event; it deletes exactly if it counts no app that uses the allowlist |
| IpAllowlistRemoval.StartLinks | controlpanel/frontend/views/ip_allowlist.py:82-91 | the view takes away the allowlist exactly if it is unused, and no link and no secret |
| IpAllowlistRemoval.NeverDeletedWhileUsed | controlpanel/frontend/consumers.py:118-138 | under every interleaving: a worker about to delete it, and every event that removes it, finds no app that uses it; no worker finds it missing; one worker per app that used it |
| IpAllowlistRemoval.DeletedInTheEnd | controlpanel/frontend/consumers.py:118-138 | when all workers finished it is deleted if and only if none failed, and rewritten secrets leave it out |
| IpAllowlistRemoval.MissedIffOvertaken | controlpanel/frontend/consumers.py:118-138 | after somebody else removes an app's association its worker can find the allowlist missing if and only if it still waits, no other failed and some other has not finished |
| IpAllowlistRemoval.UnlinkedByHand | controlpanel/frontend/consumers.py:121-121 | a run of five steps in which that happens |
| IpAllowlistRemoval.LinkedByHand | controlpanel/frontend/consumers.py:118-138 | after somebody else adds an association: exactly when the removal stays safe, when it deletes an allowlist in use, and when its end is wrong |
| IpAllowlistRemoval.Store.RewriteSecrets | controlpanel/frontend/consumers.py:128-133 | the loop rewrites the secret of every environment from the links of that moment |
| IpAllowlistRemoval.Store.AppIpRangesDelete | controlpanel/frontend/consumers.py:118-138 | one uninterrupted worker: exactly this app's links of this allowlist go, its secrets list exactly the other linked ones, the allowlist is deleted exactly if no other app uses it; nothing if it is gone |
| IpAllowlistRemoval.Store.AppIpRangesUpdate | controlpanel/frontend/consumers.py:104-116 | all secrets of the app are rewritten |
| IpAllowlistRemoval.Store.AffectedApps | controlpanel/frontend/views/apps_mng.py:45-49 | exactly the apps that use the allowlist, each once |
| IpAllowlistRemoval.Store.TriggerUpdate | controlpanel/frontend/views/apps_mng.py:63-80 | exactly the apps that use the allowlist, each once, if and only if its set of ranges changed |
| IpAllowlistRemoval.Store.FormValid | controlpanel/frontend/views/ip_allowlist.py:82-91 | an unused allowlist is deleted at once; otherwise one worker is started for each app that uses it; links and secrets stay |
| IpAllowlistRemoval.WorkerAlone | controlpanel/frontend/consumers.py:118-138 | a worker without interruption does the protocol's four steps |
| LakeFormationOptIns.LakeFormation.ListLfOptIns | controlpanel/api/aws.py:1495-1515 | the last listed database of the name, and exactly the tables of it, in order |
| LakeFormationOptIns.LakeFormation.CreateLfOptIn | controlpanel/api/aws.py:1434-1463 | opts into the database if none is listed, then into the table; stops at the first error |
| LakeFormationOptIns.LakeFormation.DeleteLfOptIn | controlpanel/api/aws.py:1465-1493 | opts out of the database if one table is listed, then out of the table; stops at the first error |
| LakeFormationOptIns.LastListed | controlpanel/api/aws.py:1507-1509 | of several databases under one name the last one listed is the result |
| LakeFormationOptIns.CreateOutcome | controlpanel/api/aws.py:1434-1463 | for any state: when a creation fails, and exactly what is opted in afterwards, also then |
| LakeFormationOptIns.DeleteOutcome | controlpanel/api/aws.py:1465-1493 | for any state: when a deletion fails, and exactly what is left, also when the database is gone and the table then fails |
| LakeFormationOptIns.OpExact | controlpanel/api/aws.py:1434-1493 | a valid call succeeds and changes exactly its table, its database when first or last, and no other principal |
| LakeFormationOptIns.OptInsCounted | controlpanel/api/aws.py:1434-1515 | over any valid run with one catalog per database name, a database is opted in exactly when one of its tables is |
| LakeFormationOptIns.CreateOptsIntoDatabase | controlpanel/api/aws.py:1452-1463 | for any catalogs: after a create its database is opted in if and only if none of the name was listed or it was already |
| LakeFormationOptIns.DeleteKeepsCounted | controlpanel/api/aws.py:1465-1493 | for any catalogs: after a delete its database is counted if and only if another table of it is left or no table of the name lies elsewhere; without its database it fails if and only if one table is listed |
| LakeFormationOptIns.AlwaysCountedIffCareful | controlpanel/api/aws.py:1434-1515 | over any valid run with any catalogs, opt-ins of databases are right at all times if and only if no creation finds a table of that database name in another catalog |
| LakeFormationOptIns.SecondCatalogMissed | controlpanel/api/aws.py:1452-1463 | the second of two catalogs with one database name is never opted into |
| LakeFormationOptIns.SecondTableStuck | controlpanel/api/aws.py:1434-1493 | two creations and one deletion leave the first database opted in without a table, and the second table undeletable |
| Auth0Pagination.GetAll | controlpanel/api/auth0.py:425-463 | for any server: which request decides, which error it raises, or the items of all answers in order |
| Auth0Pagination.RequestsBounded | controlpanel/api/auth0.py:437-461 | for any server at most max(1, first reported total) requests, and one without pagination |
| Auth0Pagination.OutcomeUnique | controlpanel/api/auth0.py:437-461 | result and number of requests are determined by the server's answers |
| Auth0Pagination.SlicesComplete | controlpanel/api/auth0.py:425-463 | against a server of slices the result is the list, after max(1, ceil(total / per_page)) requests |
| Auth0Pagination.BothVariantsComplete | controlpanel/api/auth0.py:417-424 | zero-based pages of 50 are complete against an API that reports totals only when asked, one-based pages of 25 against one that refuses to be asked |
| Auth0Pagination.AskedTheOtherWay | controlpanel/api/auth0.py:709-717 | asked the other way, either API makes the first answer an error |
| Auth0Pagination.PageCountIsCeiling | controlpanel/api/auth0.py:457-461 | the number of requests is the least, but at least one, that covers the total |
| Auth0Pagination.ShortOnlyAfterEmptyPage | controlpanel/api/auth0.py:459-460 | fewer items than the total are returned only after an empty page |
| Auth0Connections.Tenant.GetClientEnabledConnections | controlpanel/api/auth0.py:302-319 | the nested loops compute the lists of names that NamesEnabled characterises |
| Auth0Connections.NamesEnabled | controlpanel/api/auth0.py:312-319 | for each client asked about exactly the names of its connections, and no entry without one |
| Auth0Connections.Tenant.DisableClient | controlpanel/api/auth0.py:500-506 | the client is taken out of this connection's list, all other connections stay |
| Auth0Connections.Tenant.EnableClient | controlpanel/api/auth0.py:508-514 | the client is added to this connection's list unless it is there, all other connections stay |
| Auth0Connections.Tenant.UpdateClientAuthConnections | controlpanel/api/auth0.py:333-340 | the loop over a fetched copy adjusts every connection of the tenant independently |
| Auth0Connections.ExactlyTheWanted | controlpanel/api/auth0.py:321-340 | the client ends up on a connection exactly if its name is requested, and it was there or no namesake was: with distinct names, exactly the requested ones; other clients, ids and names stay |
| Auth0Connections.WhenTheListIsWrong | controlpanel/api/auth0.py:333-340 | for any passed list: a connection ends up as wanted if and only if the list differs from the request there or it was so already |
| DnsLabel.ValidLabel | controlpanel/utils.py:76-91 | empty or a host label of at most 63 characters, no two hyphens in a row, made of the first letters and digits of the input |
| DnsLabel.EmptyLabel | controlpanel/utils.py:76-91 | empty if and only if the lower-cased input has no letter or digit |
| DnsLabel.SanitizeTwice | controlpanel/utils.py:76-91 | sanitising again changes nothing |
| DnsLabel.FixedPoints | controlpanel/utils.py:76-91 | the strings left unchanged are exactly the empty one and host labels without adjacent hyphens |
| DnsLabel.LabelOfRuns | controlpanel/utils.py:76-91 | the maximal runs of letters and digits of the lower-cased input joined by single hyphens; of a longer string the first 63 characters, less a final hyphen |
| DnsLabel.RunsExist | controlpanel/utils.py:79-80 | every string has such runs |
| ToolActivation.ToolDeployments.Create | controlpanel/api/serializers.py:354-383 | deactivates the user's deployments of the type, records the latest active one, adds an inactive one and its message |
| ToolActivation.ToolDeployments.MarkActive | controlpanel/frontend/consumers.py:146-156 | activates the deployment unless it is active already |
| ToolActivation.ToolDeployments.FinishDeploy | controlpanel/frontend/consumers.py:170-184 | a success leaves all rows as they are, a failure makes this deployment inactive and leaves all others |
| ToolActivation.ToolDeployments.ToolDeploy | controlpanel/frontend/consumers.py:140-187 | handled without interruption: nothing if it is active already, else it is active afterwards exactly if the deployment worked |
| ToolActivation.RequestRows | controlpanel/api/serializers.py:354-383 | a request deactivates exactly the user's deployments of the type and adds one that is inactive, with its message |
| ToolActivation.RepeatRows | controlpanel/frontend/consumers.py:140-152 | a message delivered twice is one more to be taken and changes no row |
| ToolActivation.ActivateRows | controlpanel/frontend/consumers.py:146-156 | taking a message makes its deployment active and no other row changes |
| ToolActivation.ResolveRows | controlpanel/frontend/consumers.py:170-184 | a success changes no row; a failure makes exactly its deployment inactive |
| ToolActivation.ActiveIffStillActive | controlpanel/frontend/consumers.py:140-187 | in any run a deployment is active exactly if its message was taken and since then no request for its key and no failed result of its own came |
| ToolActivation.AtMostOneActive | controlpanel/frontend/consumers.py:146-184 | in runs that take each message before the next request of its user and type, and repeat one only if nothing else of them is live, at most one deployment of these is active |
| ToolActivation.PreviousIsTheActiveOne | controlpanel/api/serializers.py:358-378 | the recorded previous deployment is the one that was active, and none if none was |
| ToolActivation.SafeIffNonePending | controlpanel/api/serializers.py:354-383 | after a request no order of events leads to two active ones if and only if no earlier message of the key was pending |
| ToolActivation.SafeIffOnlyLive | controlpanel/frontend/consumers.py:146-156 | a message may be delivered once more if and only if no other deployment of its user and type is active or has a message pending |

## Left out

- `ManagedS3AccessPolicy`: shares the modelled base class; its deletion of old policy versions depends on what boto3 refreshes.
- The document's "Version" key, which loading sets to a constant, and a missing "Statement" key, which loading fills in.
- AccessPolicy.S3AccessPolicy.constructor: does not load a document with two statements under one Sid, which IAM refuses, or with a plain string as Resource under a managed Sid, which only another writer could leave there; statements without a Sid, on which the source raises, are not modelled either.
- `statement()` with an unknown base Sid, which returns None: every caller passes one of the six.
- Apps and managed policies as holders of access rows: the same rows, signals and messages, with `GrantAppS3BucketAccess` calling the bucket form only.
- Interleavings inside one handler run, and whole-row writes of `Task.save` over a concurrent flag: handlers are one step.
- Crashes as exceptions in `TaskWorkers`: they are outcomes of a delivery in `AccessTasks`, where acknowledgement is modelled too.
- Soft-deleted buckets in the convergence results: rows stay while access is revoked. `RevokeAll` and `HandleRevokeAll` model that each access row gets one revoke.
- `CreateS3Bucket`, archiving, and the missing-app branch of `S3BucketRevokeAppAccess`.
- RunRefines: only for datasources that do not lie inside one another, because revoking a bucket takes its folders' access away (`FramesIffUnrelated`, `BucketTakesFolders`).
- NoOrphanedAccess: for the contents of folders, only if the root buckets in play do not collide under MD5, because colliding ones share a statement; objects and buckets need no such condition.
- OptInsCounted: with one catalog per database name; `AlwaysCountedIffCareful` is the exact condition.
- The metadata of a folder's bucket as a use of its own: `MetadataAfter` says what each folder operation does to it, which no pair of user and folder owns.
- DeletedInTheEnd: nobody else links or unlinks the allowlist meanwhile; `MissedIffOvertaken` and `LinkedByHand` say exactly what happens otherwise.
- Folder names with further slashes, and wildcards or capitals in bucket and folder names. Paths may contain wildcards, which are read as IAM reads them. The methods of `AccessPolicy` take any name.
- The `deleted` flag of an IP allowlist, which nothing in the removal reads; the text of ranges, of which a secret is the concatenation in the modelled order.
- Two allowlists removed from one app at the same time: what a secret shows then depends on transaction isolation.
- Paging of `list_lake_formation_opt_ins`: the code reads one response, and the model's is complete.
- `_create_custom_connection`: its result is the list of wanted names.
- `NotAction`, `NotResource` and the case of action names in statements of other owners; bucket policies and permission boundaries.
- Python's `lower`: any function that leaves lower-case letters, digits and hyphens alone.
- Uninstalling, deploying and waiting in `tool_deploy`: only their success or failure matters to what is active.
- Everything else: AWS, Auth0, GitHub, Kubernetes, Helm and SQS clients, views, forms, permissions and settings.
