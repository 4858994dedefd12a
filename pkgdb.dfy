/** The decision layer of the package database client: branch abbreviations,
    the `{'status': False, 'message': ...}` error envelope, the request paths
    and parameters, and the create-or-edit flow, with the server replaced by a
    scripted sequence of replies. */
module PkgDB {
  import opened Wrappers
  import opened Strings

  // ---------------------------------------------------------------------
  // Values exchanged with the server

  /** A JSON value as the server's reply holds it. */
  datatype Value =
    | VNone
    | VBool(b: bool)
    | VInt(i: int)
    | VStr(s: string)
    | VList(items: seq<Value>)
    | VDict(fields: map<string, Value>)

  /** A reply body: a JSON object. */
  type Response = map<string, Value>

  /** Python truthiness of a reply value. */
  predicate ValueTruthy(v: Value)
  {
    match v
    case VNone => false
    case VBool(b) => b
    case VInt(i) => i != 0
    case VStr(s) => s != ""
    case VList(items) => items != []
    case VDict(fields) => fields != map[]
  }

  /** Python truthiness of an optional string or list argument: given and non-empty. */
  predicate Truthy<T>(o: Option<seq<T>>)
  {
    o.Some? && o.value != []
  }

  /** One request parameter. `PEncoded` stands for the JSON text that
      `simplejson.dumps` makes of a list of names; being a constructor it is
      injective, which is all the model needs of the encoding. */
  datatype Param =
    | PNull
    | PText(text: string)
    | PList(items: seq<string>)
    | PEncoded(items: seq<string>)

  /** The parameter names this client sends. */
  datatype Field =
    | Package | Owner | Summary | CcList | ComaintList | Groups | Collections
    | CollectionName | CollectionVersion | Username | PkgName | CollectnList

  /** The name a parameter has on the wire. */
  function WireName(f: Field): string
  {
    match f
    case Package => "package"
    case Owner => "owner"
    case Summary => "summary"
    case CcList => "ccList"
    case ComaintList => "comaintList"
    case Groups => "groups"
    case Collections => "collections"
    case CollectionName => "collectionName"
    case CollectionVersion => "collectionVersion"
    case Username => "username"
    case PkgName => "pkg_name"
    case CollectnList => "collectn_list"
  }

  /** Different fields have different wire names, so a parameter map keyed
      by fields is one keyed by names. */
  lemma WireNameInjective(f: Field, g: Field)
    requires WireName(f) == WireName(g)
    ensures f == g
  {
  }

  type Params = map<Field, Param>

  /** The argument `x` as a parameter: `None` stays `None`. */
  function OrNull(x: Option<string>): (p: Param)
    ensures p.PNull? <==> x.None?
    ensures x.Some? ==> p.PText? && p.text == x.value
  {
    if x.Some? then PText(x.value) else PNull
  }

  /** What `send_request` is asked to do: a path, the `req_params` (`None`
      when the call passes none) and whether authentication is required. */
  datatype Request = Request(path: string, params: Option<Params>, auth: bool)

  /** The errors this client raises or lets through. */
  datatype Error =
    | AppError(message: Value)                  // AppError(name='PackageDBError') for a failed envelope, or an AppError of the base client
    | CreateFailed(pkg: string, message: Value) // AppError raised when creating the package failed
    | EditFailed(pkg: string, message: Value)   // AppError raised when editing the package failed
    | CannotCreate(pkg: string)                 // PackageDBError: absent package and no owner
    | UnknownCollection(prefix: string)         // PackageDBError: prefix not in COLLECTIONMAP
    | MalformedBranch(pieces: nat)              // ValueError: the token is not two pieces around one dash
    | MissingKey(key: string)                   // KeyError: failed envelope without a 'message'
    | NotAList                                  // TypeError: `'devel' in None`
    | Transport                                 // any other failure of the base client

  /** The errors an `except AppError` clause catches. */
  predicate IsAppError(e: Error)
  {
    e.AppError? || e.CreateFailed? || e.EditFailed?
  }

  /** What the base client does with one request: return a reply body or raise. */
  datatype Reply = Answer(body: Response) | Raise(error: Error)

  /** The `i`-th scripted reply; a script that has run out stands for a
      transport failure. */
  function ReplyAt(script: seq<Reply>, i: nat): (r: Reply)
    ensures i < |script| ==> r == script[i]
    ensures i >= |script| ==> r == Raise(Transport)
  {
    if i < |script| then script[i] else Raise(Transport)
  }

  // ---------------------------------------------------------------------
  // Branch abbreviations

  /** COLLECTIONMAP: abbreviation prefixes and the collections they name. */
  const CollectionMap: map<string, string> :=
    map["F" := "Fedora",
        "FC" := "Fedora",
        "EL" := "Fedora EPEL",
        "EPEL" := "Fedora EPEL",
        "OLPC" := "Fedora OLPC",
        "RHL" := "Red Hat Linux"]

  /** A collection name and a version. */
  datatype Branch = Branch(collection: string, version: string)

  /** `canonical_branch_name`: "devel" is Fedora's development branch;
      every other token must be `prefix-version` with exactly one dash and a
      known prefix. */
  function CanonicalBranchName(branch: string): (r: Result<Branch, Error>)
    ensures branch == "devel" ==> r == Success(Branch("Fedora", "devel"))
    ensures r.Success? ==> r.value.collection in CollectionMap.Values
    ensures r.Success? ==> '-' !in r.value.version
    ensures r.Failure? ==> branch != "devel"
    ensures r.Failure? ==> r.error.MalformedBranch? || r.error.UnknownCollection?
    ensures r.Failure? && r.error.UnknownCollection? ==>
              r.error.prefix !in CollectionMap && '-' !in r.error.prefix
  {
    if branch == "devel" then
      assert "Fedora" == CollectionMap["F"];
      Success(Branch("Fedora", "devel"))
    else
      var pieces := Split(branch, '-');
      if |pieces| != 2 then Failure(MalformedBranch(|pieces|))
      else if pieces[0] in CollectionMap then Success(Branch(CollectionMap[pieces[0]], pieces[1]))
      else Failure(UnknownCollection(pieces[0]))
  }

  /** "devel" is not itself an abbreviation: its answer does not come from the table. */
  lemma DevelIsNotInTable()
    ensures "devel" !in CollectionMap
  {
  }

  /** `P-V` with a known prefix and dash-free parts resolves to `(COLLECTIONMAP[P], V)`. */
  lemma {:induction false} KnownPrefixResolves(prefix: string, version: string)
    requires prefix in CollectionMap
    requires '-' !in prefix && '-' !in version
    ensures CanonicalBranchName(prefix + "-" + version) == Success(Branch(CollectionMap[prefix], version))
  {
    var token := prefix + "-" + version;
    assert token[|prefix|] == '-';
    assert token != "devel" by {
      assert '-' !in "devel";
    }
    SplitAtFirst(prefix, '-', version);
    SplitWithoutSeparator(version, '-');
  }

  /** A `P-V` token with an unknown prefix fails naming that prefix. */
  lemma {:induction false} UnknownPrefixFails(prefix: string, version: string)
    requires prefix !in CollectionMap
    requires '-' !in prefix && '-' !in version
    ensures CanonicalBranchName(prefix + "-" + version) == Failure(UnknownCollection(prefix))
  {
    var token := prefix + "-" + version;
    assert token[|prefix|] == '-';
    assert token != "devel" by {
      assert '-' !in "devel";
    }
    SplitAtFirst(prefix, '-', version);
    SplitWithoutSeparator(version, '-');
  }

  /** The two-way unpacking fails exactly when the token does not hold
      exactly one dash. */
  lemma MalformedExactly(branch: string)
    ensures CanonicalBranchName(branch).Failure? && CanonicalBranchName(branch).error.MalformedBranch?
            <==> branch != "devel" && Count(branch, '-') != 1
  {
  }

  /** Every resolved token other than "devel" is `P-V` for a table key `P`
      mapped to the resolved collection. */
  lemma {:induction false} ResolvedTokenShape(branch: string)
    requires branch != "devel"
    requires CanonicalBranchName(branch).Success?
    ensures var b := CanonicalBranchName(branch).value;
            exists p :: p in CollectionMap && CollectionMap[p] == b.collection && '-' !in p &&
                        branch == p + "-" + b.version
  {
    var pieces := Split(branch, '-');
    JoinSplit(branch, '-');
    assert Join(pieces, '-') == pieces[0] + ['-'] + Join(pieces[1..], '-');
    assert pieces[1..] == [pieces[1]];
    assert pieces[0] in CollectionMap;
  }

  // ---------------------------------------------------------------------
  // The status envelope

  /** The verdict on a reply body: passed through, or rejected with the
      'message' entry if there is one. */
  datatype Envelope = Passed(payload: Response) | Rejected(message: Option<Value>)

  /** A reply body reports a failure: it has a `status` entry, and that
      entry is falsy. */
  predicate Rejects(resp: Response)
  {
    "status" in resp && !ValueTruthy(resp["status"])
  }

  function CheckStatus(resp: Response): (e: Envelope)
    ensures e.Rejected? <==> Rejects(resp)
    ensures e.Passed? ==> e.payload == resp
    ensures e.Rejected? ==> (e.message.Some? <==> "message" in resp)
    ensures e.Rejected? && "message" in resp ==> e.message == Some(resp["message"])
  {
    if Rejects(resp) then
      Rejected(if "message" in resp then Some(resp["message"]) else None)
    else Passed(resp)
  }

  /** Only the 'status' and 'message' entries decide the verdict. */
  lemma CheckStatusLocal(resp: Response, key: string, v: Value)
    requires key != "status" && key != "message"
    ensures CheckStatus(resp[key := v]).Rejected? == CheckStatus(resp).Rejected?
    ensures CheckStatus(resp).Rejected? ==> CheckStatus(resp[key := v]) == CheckStatus(resp)
  {
  }

  /** Which call a reply answers, for the error a failed envelope raises. */
  datatype Stage = Lookup | Creating(pkg: string) | Editing(pkg: string)

  function Complaint(stage: Stage, message: Value): (e: Error)
    ensures IsAppError(e)
  {
    match stage
    case Lookup => AppError(message)
    case Creating(pkg) => CreateFailed(pkg, message)
    case Editing(pkg) => EditFailed(pkg, message)
  }

  /** What the caller of `send_request` sees after the envelope check:
      raised errors propagate, a rejected body raises the stage's AppError
      (or KeyError when it lacks 'message'), any other body is returned. */
  function Screen(reply: Reply, stage: Stage): (r: Result<Response, Error>)
    ensures reply.Raise? ==> r == Failure(reply.error)
    ensures reply.Answer? && !Rejects(reply.body) ==> r == Success(reply.body)
    ensures reply.Answer? && Rejects(reply.body) && "message" in reply.body ==>
              r == Failure(Complaint(stage, reply.body["message"]))
    ensures reply.Answer? && Rejects(reply.body) && "message" !in reply.body ==>
              r == Failure(MissingKey("message"))
  {
    match reply
    case Raise(e) => Failure(e)
    case Answer(body) =>
      match CheckStatus(body)
      case Passed(payload) => Success(payload)
      case Rejected(m) => if m.Some? then Failure(Complaint(stage, m.value)) else Failure(MissingKey("message"))
  }

  /** A reply as returned without any envelope check. */
  function Unchecked(reply: Reply): (r: Result<Response, Error>)
    ensures r.Success? <==> reply.Answer?
    ensures reply.Answer? ==> r.value == reply.body
    ensures reply.Raise? ==> r.error == reply.error
  {
    match reply
    case Answer(body) => Success(body)
    case Raise(e) => Failure(e)
  }

  // ---------------------------------------------------------------------
  // Request paths and parameters

  function PackageInfoPath(pkg: string): string
  {
    "/packages/name/" + pkg
  }

  const AddPackagePath: string := "/packages/dispatcher/add_package"

  function EditPackagePath(pkg: string): string
  {
    "/packages/dispatcher/edit_package/" + pkg
  }

  const RemoveUserPath: string := "/packages/dispatcher/remove_user"

  /** The `req_params` of `get_package_info`: none without a branch, the
      resolved collection and version with one. A malformed branch raises
      before any request is made. */
  function PackageInfoParams(branch: Option<string>): (r: Result<Option<Params>, Error>)
    ensures !Truthy(branch) ==> r == Success(None)
    ensures Truthy(branch) && CanonicalBranchName(branch.value).Failure? ==>
              r == Failure(CanonicalBranchName(branch.value).error)
    ensures Truthy(branch) && CanonicalBranchName(branch.value).Success? ==>
              var b := CanonicalBranchName(branch.value).value;
              r == Success(Some(map[CollectionName := PText(b.collection), CollectionVersion := PText(b.version)]))
  {
    if Truthy(branch) then
      match CanonicalBranchName(branch.value)
      case Failure(e) => Failure(e)
      case Success(b) => Success(Some(map[CollectionName := PText(b.collection), CollectionVersion := PText(b.version)]))
    else Success(None)
  }

  /** The "devel" branch is looked up as collection "Fedora", version "devel". */
  lemma PackageInfoParamsOfDevel()
    ensures PackageInfoParams(Some("devel")) ==
            Success(Some(map[CollectionName := PText("Fedora"), CollectionVersion := PText("devel")]))
  {
  }

  /** For a known `P-V` branch, the lookup asks for collection
      COLLECTIONMAP[P] and version V. */
  lemma {:induction false} PackageInfoParamsOfKnownBranch(prefix: string, version: string)
    requires prefix in CollectionMap
    requires '-' !in prefix && '-' !in version
    ensures PackageInfoParams(Some(prefix + "-" + version)) ==
            Success(Some(map[CollectionName := PText(CollectionMap[prefix]), CollectionVersion := PText(version)]))
  {
    KnownPrefixResolves(prefix, version);
  }

  /** The path of `get_owners`: the collection is appended when given, its
      version only when the collection is given too. */
  function OwnersPath(package: string, collection: Option<string>, collectionVer: Option<string>): (path: string)
    ensures !Truthy(collection) ==> path == PackageInfoPath(package)
  {
    var base := "/packages/name/" + package;
    if Truthy(collection) then
      var withCollection := base + "/" + collection.value;
      if Truthy(collectionVer) then withCollection + "/" + collectionVer.value else withCollection
    else base
  }

  /** The '/'-separated segments the path is made of. */
  function OwnersSegments(package: string, collection: Option<string>, collectionVer: Option<string>): seq<string>
  {
    ["", "packages", "name", package] +
    (if Truthy(collection) then [collection.value] + (if Truthy(collectionVer) then [collectionVer.value] else [])
     else [])
  }

  /** With slash-free names, splitting the path on '/' recovers exactly the
      package, the collection if given, and the version if both are given. */
  lemma {:induction false} OwnersPathSegments(package: string, collection: Option<string>, collectionVer: Option<string>)
    requires '/' !in package
    requires collection.Some? ==> '/' !in collection.value
    requires collectionVer.Some? ==> '/' !in collectionVer.value
    ensures Split(OwnersPath(package, collection, collectionVer), '/') == OwnersSegments(package, collection, collectionVer)
  {
    var segs := OwnersSegments(package, collection, collectionVer);
    forall i | 0 <= i < |segs| ensures '/' !in segs[i] {
      assert '/' !in "packages" && '/' !in "name";
    }
    SplitJoin(segs, '/');
    OwnersPathIsJoin(package, collection, collectionVer);
  }

  lemma OwnersPathIsJoin(package: string, collection: Option<string>, collectionVer: Option<string>)
    ensures OwnersPath(package, collection, collectionVer) == Join(OwnersSegments(package, collection, collectionVer), '/')
  {
    var base := ["", "packages", "name", package];
    JoinAppend([""], '/', "packages");
    assert [""] + ["packages"] == ["", "packages"];
    JoinAppend(["", "packages"], '/', "name");
    assert ["", "packages"] + ["name"] == ["", "packages", "name"];
    JoinAppend(["", "packages", "name"], '/', package);
    assert ["", "packages", "name"] + [package] == base;
    assert "" + ['/'] + "packages" + ['/'] + "name" + ['/'] == "/packages/name/";
    assert Join(base, '/') == "/packages/name/" + package;
    if Truthy(collection) {
      JoinAppend(base, '/', collection.value);
      var withCollection := "/packages/name/" + package + "/" + collection.value;
      assert Join(base + [collection.value], '/') == withCollection;
      if !Truthy(collectionVer) {
        assert base + [collection.value] == OwnersSegments(package, collection, collectionVer);
      } else {
        JoinAppend(base + [collection.value], '/', collectionVer.value);
        assert base + [collection.value] + [collectionVer.value] ==
               OwnersSegments(package, collection, collectionVer);
      }
    } else {
      assert base == OwnersSegments(package, collection, collectionVer);
    }
  }

  /** Different arguments of `get_owners` (slash-free and as Python sees
      them) ask for different paths. */
  lemma OwnersPathInjective(p1: string, c1: Option<string>, v1: Option<string>,
                            p2: string, c2: Option<string>, v2: Option<string>)
    requires '/' !in p1 && (c1.Some? ==> '/' !in c1.value) && (v1.Some? ==> '/' !in v1.value)
    requires '/' !in p2 && (c2.Some? ==> '/' !in c2.value) && (v2.Some? ==> '/' !in v2.value)
    requires OwnersPath(p1, c1, v1) == OwnersPath(p2, c2, v2)
    ensures OwnersSegments(p1, c1, v1) == OwnersSegments(p2, c2, v2)
    ensures p1 == p2
  {
    OwnersPathSegments(p1, c1, v1);
    OwnersPathSegments(p2, c2, v2);
    assert OwnersSegments(p1, c1, v1)[3] == p1;
    assert OwnersSegments(p2, c2, v2)[3] == p2;
  }

  /** The parameters of `remove_user`: the list of collections is sent
      verbatim exactly when it is non-empty. */
  function RemoveUserParams(username: string, pkgName: string, collectnList: Option<seq<string>>): (params: Params)
    ensures Username in params && params[Username] == PText(username)
    ensures PkgName in params && params[PkgName] == PText(pkgName)
    ensures CollectnList in params <==> Truthy(collectnList)
    ensures Truthy(collectnList) ==> params[CollectnList] == PList(collectnList.value)
    ensures params.Keys <= {Username, PkgName, CollectnList}
  {
    if Truthy(collectnList) then
      map[Username := PText(username), PkgName := PText(pkgName), CollectnList := PList(collectnList.value)]
    else
      map[Username := PText(username), PkgName := PText(pkgName)]
  }

  /** The parameters of the create request. */
  function CreateParams(pkg: string, owner: string, description: Option<string>): (params: Params)
    ensures params.Keys == {Package, Owner, Summary}
    ensures params[Package] == PText(pkg) && params[Owner] == PText(owner)
    ensures params[Summary] == OrNull(description)
  {
    map[Package := PText(pkg), Owner := PText(owner), Summary := OrNull(description)]
  }

  /** The parameters of the edit request, built one field at a time: a key
      exactly for every field that is given and non-empty, and nothing else. */
  function EditParams(owner: Option<string>, description: Option<string>, branches: Option<seq<string>>,
                      ccList: Option<seq<string>>, comaintainers: Option<seq<string>>,
                      groups: Option<seq<string>>): (params: Params)
    ensures params.Keys <= {Owner, Summary, CcList, ComaintList, Groups, Collections}
    ensures (Owner in params <==> Truthy(owner)) && (Truthy(owner) ==> params[Owner] == PText(owner.value))
    ensures (Summary in params <==> Truthy(description)) &&
            (Truthy(description) ==> params[Summary] == PText(description.value))
    ensures (CcList in params <==> Truthy(ccList)) && (Truthy(ccList) ==> params[CcList] == PEncoded(ccList.value))
    ensures (ComaintList in params <==> Truthy(comaintainers)) &&
            (Truthy(comaintainers) ==> params[ComaintList] == PEncoded(comaintainers.value))
    ensures (Groups in params <==> Truthy(groups)) && (Truthy(groups) ==> params[Groups] == PEncoded(groups.value))
    ensures (Collections in params <==> Truthy(branches)) &&
            (Truthy(branches) ==> params[Collections] == PList(branches.value))
  {
    var d0: Params := map[];
    var d1 := if Truthy(owner) then d0[Owner := PText(owner.value)] else d0;
    var d2 := if Truthy(description) then d1[Summary := PText(description.value)] else d1;
    var d3 := if Truthy(ccList) then d2[CcList := PEncoded(ccList.value)] else d2;
    var d4 := if Truthy(comaintainers) then d3[ComaintList := PEncoded(comaintainers.value)] else d3;
    var d5 := if Truthy(groups) then d4[Groups := PEncoded(groups.value)] else d4;
    if Truthy(branches) then d5[Collections := PList(branches.value)] else d5
  }

  /** With nothing to change, the edit request carries no parameters. */
  lemma EditParamsEmpty(branches: Option<seq<string>>)
    requires !Truthy(branches)
    ensures EditParams(None, None, branches, None, None, None) == map[]
  {
  }

  // ---------------------------------------------------------------------
  // The create-or-edit flow

  function LookupRequest(pkg: string): Request
  {
    Request(PackageInfoPath(pkg), None, false)
  }

  function CreateRequest(pkg: string, owner: string, description: Option<string>): Request
  {
    Request(AddPackagePath, Some(CreateParams(pkg, owner, description)), true)
  }

  function EditRequest(pkg: string, data: Params): Request
  {
    Request(EditPackagePath(pkg), Some(data), true)
  }

  /** The branch list of a new package: "devel" is added when absent. */
  function WithDevel(branches: seq<string>): (r: seq<string>)
    ensures "devel" in r
    ensures |branches| <= |r| <= |branches| + 1 && r[..|branches|] == branches
    ensures |r| > |branches| ==> "devel" !in branches && r[|branches|] == "devel"
  {
    if "devel" in branches then branches else branches + ["devel"]
  }

  /** What one call of `add_edit_package` does: its outcome, the requests
      it sends in order and the
      caller's branch list afterwards. */
  datatype Run = Run(outcome: Result<(), Error>, sent: seq<Request>, branches: Option<seq<string>>)

  /** The lookup by `get_package_info(pkg)` raised the AppError that
      `add_edit_package` catches. */
  predicate LookupMissing(lookupReply: Reply)
  {
    var lookup := Screen(lookupReply, Lookup);
    lookup.Failure? && IsAppError(lookup.error)
  }

  /** The outcome of the final edit request: success exactly when its
      reply passes the envelope check, the edit error otherwise. */
  function EditOutcome(pkg: string, reply: Reply): (r: Result<(), Error>)
    ensures r.Success? <==> Screen(reply, Editing(pkg)).Success?
    ensures r.Failure? ==> r.error == Screen(reply, Editing(pkg)).error
  {
    var done := Screen(reply, Editing(pkg));
    if done.Success? then Success(()) else Failure(done.error)
  }

  /** `add_edit_package` when its requests get the replies `first`,
      `second` and `third` in turn: the lookup, then what follows from its
      answer. Its further properties are the lemmas below. */
  function AddEdit(pkg: string, owner: Option<string>, description: Option<string>, branches: Option<seq<string>>,
                   ccList: Option<seq<string>>, comaintainers: Option<seq<string>>, groups: Option<seq<string>>,
                   first: Reply, second: Reply, third: Reply): (run: Run)
    ensures 1 <= |run.sent| <= 3 && run.sent[0] == LookupRequest(pkg)
    ensures run.outcome.Success? ==>
              run.sent[|run.sent| - 1].path == EditPackagePath(pkg) &&
              Screen(if |run.sent| == 2 then second else third, Editing(pkg)).Success?
  {
    var after := AfterLookup(pkg, Screen(first, Lookup), owner, description, branches, ccList, comaintainers, groups,
                             second, third);
    Run(after.outcome, [LookupRequest(pkg)] + after.sent, after.branches)
  }

  /** What `add_edit_package` does once the lookup has answered: edit a
      package that exists, let an error other than AppError propagate, and
      otherwise take the `except AppError` branch. */
  function AfterLookup(pkg: string, lookup: Result<Response, Error>, owner: Option<string>, description: Option<string>,
                       branches: Option<seq<string>>, ccList: Option<seq<string>>, comaintainers: Option<seq<string>>,
                       groups: Option<seq<string>>, second: Reply, third: Reply): (run: Run)
    ensures |run.sent| <= 2
    ensures lookup.Failure? && !IsAppError(lookup.error) ==> run == Run(Failure(lookup.error), [], branches)
    ensures run.outcome.Success? ==>
              1 <= |run.sent| && run.sent[|run.sent| - 1].path == EditPackagePath(pkg) &&
              Screen(if |run.sent| == 1 then second else third, Editing(pkg)).Success?
  {
    if lookup.Success? then
      Run(EditOutcome(pkg, second), [EditRequest(pkg, EditParams(owner, description, branches, ccList, comaintainers, groups))],
          branches)
    else if !IsAppError(lookup.error) then
      Run(Failure(lookup.error), [], branches)
    else
      AddMissing(pkg, owner, description, branches, ccList, comaintainers, groups, second, third)
  }

  /** The `except AppError` branch of `add_edit_package`, after the lookup
      found no package: without an owner nothing more is sent; otherwise the
      branch list must be a list, and the package is created and edited. */
  function AddMissing(pkg: string, owner: Option<string>, description: Option<string>, branches: Option<seq<string>>,
                      ccList: Option<seq<string>>, comaintainers: Option<seq<string>>, groups: Option<seq<string>>,
                      createReply: Reply, editReply: Reply): (run: Run)
    ensures |run.sent| <= 2
    ensures run.sent == [] <==> !Truthy(owner) || branches.None?
    ensures !Truthy(owner) ==> run.outcome == Failure(CannotCreate(pkg))
    ensures run.outcome.Success? ==>
              |run.sent| == 2 && run.sent[1].path == EditPackagePath(pkg) &&
              Screen(editReply, Editing(pkg)).Success?
  {
    if !Truthy(owner) then
      Run(Failure(CannotCreate(pkg)), [], branches)
    else if branches.None? then
      Run(Failure(NotAList), [], branches)
    else
      CreateThenEdit(pkg, owner.value, description, branches.value, ccList, comaintainers, groups,
                     createReply, editReply)
  }

  /** The create path of `add_edit_package`, after the lookup found no
      package: "devel" joins the branches, the create request is sent, and
      only if it succeeds is the package edited, without owner and summary. */
  function CreateThenEdit(pkg: string, owner: string, description: Option<string>, branches: seq<string>,
                          ccList: Option<seq<string>>, comaintainers: Option<seq<string>>, groups: Option<seq<string>>,
                          createReply: Reply, editReply: Reply): (run: Run)
    ensures 1 <= |run.sent| <= 2 && run.sent[0] == CreateRequest(pkg, owner, description)
    ensures |run.sent| == 2 <==> Screen(createReply, Creating(pkg)).Success?
    ensures |run.sent| == 1 ==> run.outcome == Failure(Screen(createReply, Creating(pkg)).error)
    ensures |run.sent| == 2 ==> run.outcome == EditOutcome(pkg, editReply)
    ensures run.branches == Some(WithDevel(branches))
    ensures run.outcome.Success? ==>
              |run.sent| == 2 && run.sent[1].path == EditPackagePath(pkg) &&
              Screen(editReply, Editing(pkg)).Success?
  {
    var withDevel := WithDevel(branches);
    var create := CreateRequest(pkg, owner, description);
    var created := Screen(createReply, Creating(pkg));
    if created.Failure? then
      Run(Failure(created.error), [create], Some(withDevel))
    else
      Run(EditOutcome(pkg, editReply),
          [create, EditRequest(pkg, EditParams(None, None, Some(withDevel), ccList, comaintainers, groups))],
          Some(withDevel))
  }

  /** The caller's branch list is absent afterwards exactly when it was
      absent before, and it changes only by gaining "devel". */
  lemma AddEditBranchList(pkg: string, owner: Option<string>, description: Option<string>, branches: Option<seq<string>>,
                          ccList: Option<seq<string>>, comaintainers: Option<seq<string>>, groups: Option<seq<string>>,
                          first: Reply, second: Reply, third: Reply)
    ensures var run := AddEdit(pkg, owner, description, branches, ccList, comaintainers, groups, first, second, third);
            && (run.branches.Some? <==> branches.Some?)
            && (run.branches != branches ==>
                  branches.Some? && "devel" !in branches.value && run.branches == Some(branches.value + ["devel"]))
  {
  }

  /** A package that exists is edited once, with every given field, and
      the edit reply decides the outcome. */
  lemma AddEditExisting(pkg: string, owner: Option<string>, description: Option<string>, branches: Option<seq<string>>,
                        ccList: Option<seq<string>>, comaintainers: Option<seq<string>>, groups: Option<seq<string>>,
                        first: Reply, second: Reply, third: Reply)
    requires Screen(first, Lookup).Success?
    ensures var run := AddEdit(pkg, owner, description, branches, ccList, comaintainers, groups, first, second, third);
            && run.sent == [LookupRequest(pkg), EditRequest(pkg, EditParams(owner, description, branches, ccList, comaintainers, groups))]
            && run.branches == branches
            && run.outcome == EditOutcome(pkg, second)
  {
  }

  /** An error of the lookup other than AppError propagates. */
  lemma AddEditLookupError(pkg: string, owner: Option<string>, description: Option<string>, branches: Option<seq<string>>,
                           ccList: Option<seq<string>>, comaintainers: Option<seq<string>>, groups: Option<seq<string>>,
                           first: Reply, second: Reply, third: Reply)
    requires Screen(first, Lookup).Failure? && !LookupMissing(first)
    ensures AddEdit(pkg, owner, description, branches, ccList, comaintainers, groups, first, second, third) ==
            Run(Failure(Screen(first, Lookup).error), [LookupRequest(pkg)], branches)
  {
  }

  /** An absent package without an owner raises, and nothing but the lookup is sent. */
  lemma AddEditNoOwner(pkg: string, owner: Option<string>, description: Option<string>, branches: Option<seq<string>>,
                       ccList: Option<seq<string>>, comaintainers: Option<seq<string>>, groups: Option<seq<string>>,
                       first: Reply, second: Reply, third: Reply)
    requires LookupMissing(first) && !Truthy(owner)
    ensures AddEdit(pkg, owner, description, branches, ccList, comaintainers, groups, first, second, third) ==
            Run(Failure(CannotCreate(pkg)), [LookupRequest(pkg)], branches)
  {
  }

  /** An absent package with an owner but no branch list raises the
      `TypeError` of `'devel' in None`, after the lookup alone. */
  lemma AddEditNotAList(pkg: string, owner: Option<string>, description: Option<string>,
                        ccList: Option<seq<string>>, comaintainers: Option<seq<string>>, groups: Option<seq<string>>,
                        first: Reply, second: Reply, third: Reply)
    requires LookupMissing(first) && Truthy(owner)
    ensures AddEdit(pkg, owner, description, None, ccList, comaintainers, groups, first, second, third) ==
            Run(Failure(NotAList), [LookupRequest(pkg)], None)
  {
  }

  /** An absent package with an owner: exactly one create request with
      package, owner and summary; "devel" in the branch list afterwards; an
      edit without owner and summary after a successful create, whose reply
      decides the outcome, and none after a failed one. */
  lemma AddEditCreates(pkg: string, owner: Option<string>, description: Option<string>, branches: Option<seq<string>>,
                       ccList: Option<seq<string>>, comaintainers: Option<seq<string>>, groups: Option<seq<string>>,
                       first: Reply, second: Reply, third: Reply)
    requires LookupMissing(first) && Truthy(owner) && branches.Some?
    ensures var run := AddEdit(pkg, owner, description, branches, ccList, comaintainers, groups, first, second, third);
            var created := Screen(second, Creating(pkg));
            && |run.sent| >= 2 && run.sent[1] == CreateRequest(pkg, owner.value, description)
            && run.branches == Some(WithDevel(branches.value)) && "devel" in run.branches.value
            && (created.Success? ==>
                  |run.sent| == 3 &&
                  run.sent[2] == EditRequest(pkg, EditParams(None, None, Some(WithDevel(branches.value)), ccList, comaintainers, groups)) &&
                  Owner !in run.sent[2].params.value && Summary !in run.sent[2].params.value &&
                  run.outcome == EditOutcome(pkg, third))
            && (created.Failure? ==> |run.sent| == 2 && run.outcome == Failure(created.error))
  {
  }

  /** A package created from scratch with no other fields is still edited,
      with "devel" as its only collection when no branches were given. */
  lemma CreateThenBareEdit(pkg: string, owner: string, first: Reply, second: Reply, third: Reply)
    requires owner != ""
    requires LookupMissing(first) && Screen(second, Creating(pkg)).Success?
    ensures var run := AddEdit(pkg, Some(owner), None, Some([]), None, None, None, first, second, third);
            run.sent == [LookupRequest(pkg), CreateRequest(pkg, owner, None),
                         EditRequest(pkg, map[Collections := PList(["devel"])])] &&
            run.branches == Some(["devel"])
  {
  }
}
