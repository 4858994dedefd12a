# Package database client: decision layer

A Dafny model of the local logic of the package database client in
`fedora/client/pkgdb.py`. The class is a thin binding for a remote web
service. The model covers its local decisions:

- **Branch abbreviations.** `canonical_branch_name` turns a token such as
  `FC-6` or `devel` into a collection and a version, using the fixed table
  `COLLECTIONMAP`.
- **The status envelope.** A reply body is a failure exactly when it has a
  `status` entry whose value is falsy by Python's rules. Any other body is
  passed through unchanged.
- **Request paths and parameters.** These are the ones built by
  `get_package_info`, `get_owners`, `remove_user` and `add_edit_package`.
- **The create-or-edit flow of `add_edit_package`.** It looks the package up.
  If the package is absent and an owner is given, it creates the package,
  first adding `devel` in place to the caller's branch list. Then, unless one
  of these steps raised an error, it sends the edit request, and a rejected
  edit reply raises the edit error.

The base client's `send_request` is replaced by a scripted server. Class
`PkgDBClient.PackageDB` holds the server's replies (`replies`) and every
request made so far (`log`). A request is a path, the optional parameters and
the authentication flag; parameter names are the values of the datatype
`PkgDB.Field`, and `PkgDB.WireName` gives each its name on the wire. The
`n`-th request made gets the `n`-th reply, which is either a body or an error
the base client raises. Once the replies have run out, every further request
answers a transport failure.

Modules:

- `Wrappers`: `Option` and `Result`.
- `Strings`: Python's `str.split` and `str.join` on one separator character, with their round-trip lemmas.
- `PkgDB`: the pure layer. It holds the reply values and their truthiness, the errors, the branch parser, the envelope check, the path and parameter builders, and `AddEdit`. `AddEdit` is a reference function that says what `add_edit_package` does when its requests get three given replies in turn.
- `PkgDBClient`: the client object. Its methods `GetPackageInfo`, `GetOwners`, `RemoveUser` and `AddEditPackage` are proved against the functions of `PkgDB`. A caller's branch list is a `BranchList` object, so the in-place append is visible to the caller.

Python's `None` and the empty string or list are kept apart: optional
arguments are `Option<...>`. An argument is "truthy" when it is given and
non-empty (`PkgDB.Truthy`).

Details of the code that a reader may not expect:

- `branch.split('-')` splits at every dash, not only at the first one. The
  two-way unpacking then fails for a token with no dash or with more than one
  dash (a Python `ValueError`, modelled as `MalformedBranch`).
- The caller's branch list is changed in place. It is not copied.
- The failure check reads `message` from the reply. When the reply has none,
  a Python `KeyError` follows, modelled as `MissingKey("message")`.
- The `except AppError` around the lookup also catches an `AppError` raised by
  the base client. Any other error of the lookup propagates.

## Model

| member | source | states |
|---|---|---|
| `Strings.Split` | fedora/client/pkgdb.py:243 | `str.split('-')` gives one piece more than there are separators, and no piece contains the separator |
| `Strings.JoinSplit` | fedora/client/pkgdb.py:243 | joining the pieces of a split with the separator gives back the original string |
| `Strings.SplitJoin` | fedora/client/pkgdb.py:243 | splitting a join of separator-free pieces gives back exactly those pieces |
| `Strings.SplitAtFirst` | fedora/client/pkgdb.py:243 | a separator-free prefix followed by the separator becomes the first piece |
| `PkgDB.CanonicalBranchName` | fedora/client/pkgdb.py:225-251 | "devel" gives ("Fedora", "devel"); a resolved collection is always a value of COLLECTIONMAP; a resolved version holds no dash; failures are only the local unpacking or unknown-prefix errors, never for "devel"; an unknown prefix is not a table key |
| `PkgDB.DevelIsNotInTable` | fedora/client/pkgdb.py:239-241 | "devel" is not a key of COLLECTIONMAP, so its answer does not come from the table |
| `PkgDB.KnownPrefixResolves` | fedora/client/pkgdb.py:243-245 | for dash-free P and V with P a key, token P-V resolves to (COLLECTIONMAP[P], V) |
| `PkgDB.UnknownPrefixFails` | fedora/client/pkgdb.py:243-249 | for dash-free P and V with P not a key, token P-V raises the unknown-collection error naming P |
| `PkgDB.MalformedExactly` | fedora/client/pkgdb.py:243 | the unpacking error happens exactly when the token is not "devel" and does not hold exactly one dash |
| `PkgDB.ResolvedTokenShape` | fedora/client/pkgdb.py:243-251 | every resolved token other than "devel" is P-V for a dash-free key P that maps to the resolved collection, with V the resolved version |
| `PkgDB.CheckStatus` | fedora/client/pkgdb.py:107-109 | a body is rejected exactly when it has a falsy `status`; otherwise it is passed through unchanged; a rejection carries the `message` entry exactly when the body has one |
| `PkgDB.CheckStatusLocal` | fedora/client/pkgdb.py:107 | entries other than `status` and `message` do not change the verdict or the rejection |
| `PkgDB.Complaint` | fedora/client/pkgdb.py:186-189 | the error raised for a rejected lookup, create or edit reply is always an AppError |
| `PkgDB.Screen` | fedora/client/pkgdb.py:104-109 | a raised error propagates; a passing body is returned unchanged; a rejected body raises the stage's AppError with its message, or KeyError when it has no message |
| `PkgDB.Unchecked` | fedora/client/pkgdb.py:296-297 | `remove_user` returns the reply body as it is, without the envelope check; raised errors propagate |
| `PkgDB.PackageInfoParams` | fedora/client/pkgdb.py:100-103 | no parameters without a branch; a branch that does not resolve raises its error; a branch that resolves gives exactly `collectionName` and `collectionVersion` from the resolved branch |
| `PkgDB.PackageInfoParamsOfDevel` | fedora/client/pkgdb.py:100-103 | the "devel" branch is looked up as collection "Fedora", version "devel" |
| `PkgDB.PackageInfoParamsOfKnownBranch` | fedora/client/pkgdb.py:101-103 | for a known P-V branch the lookup asks for collection COLLECTIONMAP[P] and version V |
| `PkgDB.OwnersPath` | fedora/client/pkgdb.py:265-269 | without a collection the path is the package-info path `/packages/name/<package>` |
| `PkgDB.OwnersPathIsJoin` | fedora/client/pkgdb.py:265-269 | the path is `/packages/name/<package>`, then `/<collection>` when a collection is given, then `/<version>` only when both are given |
| `PkgDB.OwnersPathSegments` | fedora/client/pkgdb.py:265-269 | with slash-free names, splitting the path on '/' recovers exactly the package, the collection if given, and the version if both are given |
| `PkgDB.OwnersPathInjective` | fedora/client/pkgdb.py:265-269 | with slash-free names, two calls that build the same path name the same package, collection and version segments |
| `PkgDB.RemoveUserParams` | fedora/client/pkgdb.py:291-295 | `username` and `pkg_name` are always sent; `collectn_list` is sent, verbatim, exactly when the list is non-empty; there are no other keys |
| `PkgDB.OrNull` | fedora/client/pkgdb.py:181 | an absent description is sent as None; a given one is sent as its text |
| `PkgDB.CreateParams` | fedora/client/pkgdb.py:181 | the create request carries exactly `package`, `owner` and `summary`, the summary being the description or None |
| `PkgDB.WireNameInjective` | fedora/client/pkgdb.py:198-215 | distinct parameter fields have distinct wire names, so a map keyed by fields is a map keyed by names |
| `PkgDB.EditParams` | fedora/client/pkgdb.py:198-215 | the edit parameters hold a key exactly for each truthy field among owner, description, cc list, comaintainers, groups and branches, and no other key; list fields are JSON-encoded, and `collections` is the branch list itself |
| `PkgDB.EditParamsEmpty` | fedora/client/pkgdb.py:198-215 | with nothing left to change the edit parameters are empty |
| `PkgDB.WithDevel` | fedora/client/pkgdb.py:177-179 | the new branch list contains "devel"; it keeps the old list as a prefix and grows by one entry, "devel", only when "devel" was absent |
| `PkgDB.EditOutcome` | fedora/client/pkgdb.py:217-223 | the edit succeeds exactly when its reply passes the envelope check, and otherwise fails with the error of the edit stage |
| `PkgDB.AddEdit` | fedora/client/pkgdb.py:170-223 | the lookup is always the first request and at most three are sent; success means the last request was the edit and its reply passed the envelope check |
| `PkgDB.AfterLookup` | fedora/client/pkgdb.py:171-223 | after the lookup at most two requests follow; a lookup error that is not an AppError propagates with nothing more sent; success means the last request was the edit and its reply passed |
| `PkgDB.AddMissing` | fedora/client/pkgdb.py:173-195 | for an absent package at most two requests follow; nothing is sent exactly when there is no owner or no branch list; without an owner the cannot-create error is raised; success means the second request was the edit and its reply passed |
| `PkgDB.CreateThenEdit` | fedora/client/pkgdb.py:176-223 | the create request with package, owner and description comes first; the edit follows exactly when the create reply passes; after a rejected create its error is raised, after a passing one the outcome is that of the edit reply (`EditOutcome`); the branch list afterwards is the old one with "devel" |
| `PkgDB.AddEditBranchList` | fedora/client/pkgdb.py:170-223 | the branch list is absent afterwards exactly when it was absent before, and it changes only by appending "devel" when "devel" was absent |
| `PkgDB.AddEditExisting` | fedora/client/pkgdb.py:170-223 | an existing package gets the lookup and one edit request carrying every truthy field; the branch list is unchanged; the outcome is that of the edit reply: success when it passes, the edit error when it is rejected |
| `PkgDB.AddEditLookupError` | fedora/client/pkgdb.py:171-173 | a lookup error that is not an AppError propagates, after the lookup alone, with the branch list unchanged |
| `PkgDB.AddEditNoOwner` | fedora/client/pkgdb.py:170-195 | an absent package without an owner raises the cannot-create error after the lookup alone |
| `PkgDB.AddEditCreates` | fedora/client/pkgdb.py:174-223 | an absent package with an owner and a branch list: the second request is the one create request with `{package, owner, summary}`; the branch list afterwards contains "devel"; after a successful create exactly one more request, the edit, carrying neither `owner` nor `summary`, whose reply decides the outcome; after a failed create nothing more is sent and the create error is raised |
| `PkgDB.AddEditNotAList` | fedora/client/pkgdb.py:176-177 | an absent package with an owner but no branch list (`None`) raises the `TypeError` of `'devel' in None` after the lookup alone |
| `PkgDB.CreateThenBareEdit` | fedora/client/pkgdb.py:176-219 | creating a package with an owner and an empty branch list sends lookup, create and an edit whose only parameter is `collections = ["devel"]` |
| `PkgDBClient.BranchList.Append` | fedora/client/pkgdb.py:179 | `list.append` adds one item at the end |
| `PkgDB.ReplyAt` | fedora/client/pkgdb.py:104-105 | the `i`-th request gets the `i`-th reply while there is one, and a transport failure after the replies have run out |
| `PkgDBClient.PackageDB.SendRequest` | fedora/client/pkgdb.py:104-105 | the request is appended to the log and takes the next scripted reply |
| `PkgDBClient.PackageDB.GetPackageInfo` | fedora/client/pkgdb.py:90-109 | a branch that does not resolve raises before anything is sent; otherwise one unauthenticated lookup of `/packages/name/<pkg>` with the branch parameters is logged, and its reply is screened |
| `PkgDBClient.PackageDB.GetOwners` | fedora/client/pkgdb.py:253-277 | one unauthenticated request of `OwnersPath` without parameters is logged, and its reply is screened |
| `PkgDBClient.PackageDB.RemoveUser` | fedora/client/pkgdb.py:279-297 | one authenticated request of `/packages/dispatcher/remove_user` with `RemoveUserParams` is logged, and its reply is returned unchecked |
| `PkgDBClient.PackageDB.ContinueAfterLookup` | fedora/client/pkgdb.py:171-223 | outcome, appended log and the caller's branch list afterwards are exactly those of `AfterLookup` on the lookup's answer and the next two replies |
| `PkgDBClient.PackageDB.AddMissingPackage` | fedora/client/pkgdb.py:173-223 | outcome, appended log and the caller's branch list afterwards are exactly those of `AddMissing` on the next two replies |
| `PkgDBClient.PackageDB.CreateAndEdit` | fedora/client/pkgdb.py:174-223 | "devel" is appended in place to the caller's list when absent; one authenticated create request is logged, and the edit only after a successful create; outcome and log are those of the create path of `AddEdit` |
| `PkgDBClient.PackageDB.EditPackage` | fedora/client/pkgdb.py:217-223 | one authenticated edit request with the given parameters is logged, and the outcome is `EditOutcome` of its reply |
| `PkgDBClient.PackageDB.AddEditPackage` | fedora/client/pkgdb.py:142-223 | outcome, appended log and the caller's branch list afterwards are exactly those of `AddEdit` on the next three replies |

## Left out

- The base client (`BaseClient`, `send_request`): HTTP transport, authentication, session cookies and retries. These are code that is not part of this model. They are represented only by the scripted replies and the request log. The base client's own error envelope shows up only as an `AppError` or a transport failure among the replies.
- `simplejson.dumps` of the list fields: the model uses the constructor `PEncoded(items)`, an injective stand-in for the JSON text.
- `clone_branch` and `mass_branch`: both pass their arguments straight to `send_request` with no local logic. The `extras` list of a partial mass-branch failure is produced by the base client.
- The text of error messages and their translation with `_()`: errors are tagged values that carry the package name, the prefix or the server's message.
- The constructor's user-agent default and the other construction options: configuration that is handed to the base client.
- A list passed both as `branches` and as `cc_list`, `comaintainers` or `groups`: the model takes those three as values fixed at the call, so the in-place append of "devel" does not show in that argument's JSON encoding, although in Python the same list object is encoded after the append.
- Arguments of other Python types: the package name, owner and tokens are strings, and the list arguments are lists of strings. `'devel' in branches` on a `None` list is the Python `TypeError`, modelled as the error `NotAList`. Tuples and other iterables are not modelled.
- Floating-point numbers among reply values: truthiness is modelled for None, booleans, integers, strings, lists and objects.
- The name `PackageDBError` that the client gives to its `AppError`s: every such error is tagged by where it arose (lookup, create, edit).
