/** The `PackageDB` client object. The base client's `send_request` is a
    scripted server: every request is appended to a log and takes the next
    scripted reply. */
module PkgDBClient {
  import opened Wrappers
  import opened PkgDB

  /** A caller's Python list of branch abbreviations, which
      `add_edit_package` may extend in place. */
  class BranchList {
    var items: seq<string>

    constructor (items: seq<string>)
      ensures this.items == items
    {
      this.items := items;
    }

    /** `list.append`. */
    method Append(x: string)
      modifies this
      ensures items == old(items) + [x]
    {
      items := items + [x];
    }
  }

  /** The items of an optional list (Python's `None` when `null`). */
  function ItemsOf(branches: BranchList?): Option<seq<string>>
    reads branches
  {
    if branches == null then None else Some(branches.items)
  }

  class PackageDB {
    /** The replies of the scripted server: the `n`-th request made gets
        the `n`-th reply. */
    const replies: seq<Reply>
    /** Every request made so far, in order. */
    var log: seq<Request>

    constructor (replies: seq<Reply>)
      ensures this.replies == replies && log == []
    {
      this.replies := replies;
      log := [];
    }

    /** `send_request`: record the request and take the next reply. */
    method SendRequest(path: string, params: Option<Params>, auth: bool) returns (reply: Reply)
      modifies this
      ensures reply == ReplyAt(replies, |old(log)|)
      ensures log == old(log) + [Request(path, params, auth)]
    {
      reply := ReplyAt(replies, |log|);
      log := log + [Request(path, params, auth)];
    }

    /** `get_package_info`: a bad branch raises before anything is sent;
        otherwise one unauthenticated lookup whose reply is screened. */
    method GetPackageInfo(pkg: string, branch: Option<string>) returns (r: Result<Response, Error>)
      modifies this
      ensures PackageInfoParams(branch).Failure? ==>
                r == Failure(PackageInfoParams(branch).error) && log == old(log)
      ensures PackageInfoParams(branch).Success? ==>
                log == old(log) + [Request(PackageInfoPath(pkg), PackageInfoParams(branch).value, false)] &&
                r == Screen(ReplyAt(replies, |old(log)|), Lookup)
    {
      var data := PackageInfoParams(branch);
      if data.Failure? {
        return Failure(data.error);
      }
      var reply := SendRequest(PackageInfoPath(pkg), data.value, false);
      r := Screen(reply, Lookup);
    }

    /** `get_owners`: one unauthenticated request without parameters. */
    method GetOwners(package: string, collection: Option<string>, collectionVer: Option<string>)
      returns (r: Result<Response, Error>)
      modifies this
      ensures log == old(log) + [Request(OwnersPath(package, collection, collectionVer), None, false)]
      ensures r == Screen(ReplyAt(replies, |old(log)|), Lookup)
    {
      var reply := SendRequest(OwnersPath(package, collection, collectionVer), None, false);
      r := Screen(reply, Lookup);
    }

    /** `remove_user`: one authenticated request whose reply is returned
        without the envelope check. */
    method RemoveUser(username: string, pkgName: string, collectnList: Option<seq<string>>)
      returns (r: Result<Response, Error>)
      modifies this
      ensures log == old(log) + [Request(RemoveUserPath, Some(RemoveUserParams(username, pkgName, collectnList)), true)]
      ensures r == Unchecked(ReplyAt(replies, |old(log)|))
    {
      var reply := SendRequest(RemoveUserPath, Some(RemoveUserParams(username, pkgName, collectnList)), true);
      r := Unchecked(reply);
    }

    /** The `except AppError` branch of `add_edit_package`: refuse without
        an owner, otherwise create the package and edit it. */
    method AddMissingPackage(pkg: string, owner: Option<string>, description: Option<string>, branches: BranchList?,
                             ccList: Option<seq<string>>, comaintainers: Option<seq<string>>,
                             groups: Option<seq<string>>)
      returns (outcome: Result<(), Error>)
      modifies this, branches
      ensures var run := AddMissing(pkg, owner, description, old(ItemsOf(branches)), ccList, comaintainers, groups,
                                    ReplyAt(replies, |old(log)|), ReplyAt(replies, |old(log)| + 1));
              && outcome == run.outcome
              && log == old(log) + run.sent
              && ItemsOf(branches) == run.branches
    {
      if !Truthy(owner) {
        return Failure(CannotCreate(pkg));
      }
      if branches == null {
        // `'devel' not in None` raises a TypeError
        return Failure(NotAList);
      }
      outcome := CreateAndEdit(pkg, owner.value, description, branches, ccList, comaintainers, groups);
    }

    /** The create path of `add_edit_package`: "devel" is appended to the
        caller's list when absent, one authenticated create request is sent,
        and the package is edited without owner and summary only if the
        create succeeded. */
    method CreateAndEdit(pkg: string, owner: string, description: Option<string>, branches: BranchList,
                         ccList: Option<seq<string>>, comaintainers: Option<seq<string>>, groups: Option<seq<string>>)
      returns (outcome: Result<(), Error>)
      modifies this, branches
      ensures var run := CreateThenEdit(pkg, owner, description, old(branches.items), ccList, comaintainers, groups,
                                        ReplyAt(replies, |old(log)|), ReplyAt(replies, |old(log)| + 1));
              && outcome == run.outcome
              && log == old(log) + run.sent
              && Some(branches.items) == run.branches
    {
      ghost var start := log;
      if "devel" !in branches.items {
        // a new package always gets a devel branch
        branches.Append("devel");
      }
      var create := CreateRequest(pkg, owner, description);
      var reply := SendRequest(AddPackagePath, Some(CreateParams(pkg, owner, description)), true);
      var created := Screen(reply, Creating(pkg));
      if created.Failure? {
        return Failure(created.error);
      }
      var data := EditParams(None, None, Some(branches.items), ccList, comaintainers, groups);
      outcome := EditPackage(pkg, data);
      AppendAssociative(start, [create], [EditRequest(pkg, data)]);
      assert [create] + [EditRequest(pkg, data)] == [create, EditRequest(pkg, data)];
    }

    /** The edit step of `add_edit_package`: one authenticated edit
        request, whose reply decides the outcome. */
    method EditPackage(pkg: string, data: Params) returns (outcome: Result<(), Error>)
      modifies this
      ensures log == old(log) + [EditRequest(pkg, data)]
      ensures outcome == EditOutcome(pkg, ReplyAt(replies, |old(log)|))
    {
      var reply := SendRequest(EditPackagePath(pkg), Some(data), true);
      outcome := EditOutcome(pkg, reply);
    }

    /** `add_edit_package`: look the package up, create it if it is absent
        and an owner is given, then edit it. Behaves as `AddEdit` on the
        replies its requests get. */
    method AddEditPackage(pkg: string, owner: Option<string>, description: Option<string>, branches: BranchList?,
                          ccList: Option<seq<string>>, comaintainers: Option<seq<string>>,
                          groups: Option<seq<string>>)
      returns (outcome: Result<(), Error>)
      modifies this, branches
      ensures var n := |old(log)|;
              var run := AddEdit(pkg, owner, description, old(ItemsOf(branches)), ccList, comaintainers, groups,
                                 ReplyAt(replies, n), ReplyAt(replies, n + 1), ReplyAt(replies, n + 2));
              && outcome == run.outcome
              && log == old(log) + run.sent
              && ItemsOf(branches) == run.branches
    {
      ghost var start := log;
      ghost var items := ItemsOf(branches);
      var info := GetPackageInfo(pkg, None);
      assert log == start + [LookupRequest(pkg)] && ItemsOf(branches) == items;
      outcome := ContinueAfterLookup(pkg, info, owner, description, branches, ccList, comaintainers, groups);
      ghost var after := AfterLookup(pkg, info, owner, description, items, ccList, comaintainers, groups,
                                     ReplyAt(replies, |start| + 1), ReplyAt(replies, |start| + 2));
      AppendAssociative(start, [LookupRequest(pkg)], after.sent);
    }

    /** The rest of `add_edit_package` once the lookup has answered `lookup`. */
    method ContinueAfterLookup(pkg: string, lookup: Result<Response, Error>, owner: Option<string>,
                               description: Option<string>, branches: BranchList?, ccList: Option<seq<string>>,
                               comaintainers: Option<seq<string>>, groups: Option<seq<string>>)
      returns (outcome: Result<(), Error>)
      modifies this, branches
      ensures var run := AfterLookup(pkg, lookup, owner, description, old(ItemsOf(branches)), ccList, comaintainers,
                                     groups, ReplyAt(replies, |old(log)|), ReplyAt(replies, |old(log)| + 1));
              && outcome == run.outcome
              && log == old(log) + run.sent
              && ItemsOf(branches) == run.branches
    {
      if lookup.Failure? {
        // the package does not exist yet, unless the error is not an AppError
        if !IsAppError(lookup.error) {
          return Failure(lookup.error);
        }
        outcome := AddMissingPackage(pkg, owner, description, branches, ccList, comaintainers, groups);
      } else {
        outcome := EditPackage(pkg, EditParams(owner, description, ItemsOf(branches), ccList, comaintainers, groups));
      }
    }
  }

  /** Appending to a log one part at a time gives the same log. */
  lemma AppendAssociative<T>(a: seq<T>, b: seq<T>, c: seq<T>)
    ensures a + b + c == a + (b + c)
  {
  }

  /** A lookup session: a passing body comes back unchanged, a rejected one
      raises an AppError carrying the server's message. */
  method LookupSession()
  {
    var found := map["status" := VBool(true), "name" := VStr("bash")];
    var absent := map["status" := VBool(false), "message" := VStr("no such package")];
    var db := new PackageDB([Answer(found), Answer(absent)]);
    var first := db.GetPackageInfo("bash", None);
    assert first == Success(found);
    var second := db.GetPackageInfo("bash", None);
    assert second == Failure(AppError(VStr("no such package")));
    assert db.log == [LookupRequest("bash"), LookupRequest("bash")];
  }

  /** An unknown branch prefix is refused before any request is made. */
  method UnknownBranchSession(replies: seq<Reply>)
  {
    var db := new PackageDB(replies);
    UnknownPrefixFails("ZZ", "1");
    assert "ZZ" + "-" + "1" == "ZZ-1";
    var r := db.GetPackageInfo("bash", Some("ZZ-1"));
    assert r == Failure(UnknownCollection("ZZ"));
    assert db.log == [];
  }

  /** A session against a scripted server: an absent package without an
      owner is refused after the lookup alone. */
  method NoOwnerSession(pkg: string, message: Value)
  {
    var db := new PackageDB([Answer(map["status" := VBool(false), "message" := message])]);
    var branches := new BranchList(["F-10"]);
    var outcome := db.AddEditPackage(pkg, None, None, branches, None, None, None);
    assert outcome == Failure(CannotCreate(pkg));
    assert db.log == [LookupRequest(pkg)];
    assert branches.items == ["F-10"];
  }

  /** A session that creates a package: "devel" is appended to the caller's
      list and the edit repeats neither the owner nor the summary. */
  method CreateSession(pkg: string, owner: string)
    requires owner != ""
  {
    var absent := Answer(map["status" := VBool(false), "message" := VStr("no such package")]);
    var ok := Answer(map["status" := VBool(true)]);
    var db := new PackageDB([absent, ok, ok]);
    var branches := new BranchList(["F-10"]);
    var outcome := db.AddEditPackage(pkg, Some(owner), None, branches, None, None, None);
    assert outcome == Success(());
    assert branches.items == ["F-10", "devel"];
    assert |db.log| == 3 && db.log[1] == CreateRequest(pkg, owner, None);
    assert db.log[2].params == Some(map[Collections := PList(["F-10", "devel"])]);
  }
}
