/**
 * `prepareZepetoUpload`: gate on the dashboard session and the linked
 * account, log in, scan the candidate endpoints, and shape the result the
 * browser needs for the direct transfer.
 */
module Prepare {
  import opened Wrappers
  import opened Js
  import opened Exchange
  import opened Scanner
  import opened Categories

  /** The dashboard session; `userId` is absent when nobody is signed in. */
  datatype Session = Session(userId: Option<string>)

  /** The stored linked account, as the account store returns it. */
  datatype Account = Account(zepetoEmail: string, zepetoPassword: string, status: string)

  /** The candidate upload-initiation endpoints, most likely first. */
  const Candidates: seq<string> := [
    "https://world-service-api.world.zepeto.run/v2/files",
    "https://api-world-creator.zepeto.me/v2/files",
    "https://api-studio.zepeto.me/v2/files",
    "https://gw-napi.zepeto.io/files/v2"
  ]

  const SessionInvalid := "Sesi tidak valid."
  const AccountProblem := "Akun bermasalah."
  const LoginFailed := "Login gagal saat persiapan upload."
  const NoUploadUrl := "Server merespon OK tapi tidak ada uploadUrl. Response: "
  const BearerPrefix := "Bearer "

  /** `session.userId` is truthy. */
  predicate SignedIn(session: Session)
  {
    session.userId.Some? && session.userId.value != ""
  }

  /** The account exists and its status is exactly `CONNECTED`. */
  predicate AccountReady(account: Option<Account>)
  {
    account.Some? && account.value.status == "CONNECTED"
  }

  /** What a successful preparation hands back to the browser. */
  datatype Upload = Upload(uploadUrl: Prop, fileId: Prop, token: string, categoryId: Option<string>)

  /**
   * The login step: `Bearer ${loginData.authToken}`, or the message of
   * what was thrown on the way.
   */
  function BearerToken(login: Reply): (r: Result<string, string>)
    ensures r.Ok? <==>
      OkAnswer(login) && login.body.json.Ok? && !login.body.json.value.Null? &&
      !ConversionThrows(GetProp(login.body.json.value, AuthToken).prop)
    ensures r.Ok? ==> r.value == BearerPrefix + ToString(GetProp(login.body.json.value, AuthToken).prop).value
    ensures OkAnswer(login) && login.body.json.Ok? && login.body.json.value.Obj? &&
            ConversionThrows(Lookup(login.body.json.value.members, "authToken"))
      ==> r == Err(CannotConvert)
    ensures r.Ok? ==> |r.value| >= |BearerPrefix| && r.value[..|BearerPrefix|] == BearerPrefix
    ensures login.Threw? ==> r == Err(login.message)
    ensures ErrorAnswer(login) ==> r == Err(LoginFailed)
    ensures OkAnswer(login) && login.body.json.Err? ==> r == Err(login.body.json.error)
    ensures OkAnswer(login) && login.body.json.Ok? && login.body.json.value.Null? ==>
      r == Err("Cannot read properties of null (reading 'authToken')")
  {
    match login
    case Threw(m) => Err(m)
    case Answer(status, body) =>
      if !IsOk(status) then Err(LoginFailed)
      else
        match body.json
        case Err(m) => Err(m)
        case Ok(loginData) =>
          match GetProp(loginData, AuthToken)
          case TypeError(m) =>
            assert "Cannot read properties of null (reading '" + FieldName(AuthToken) + "')"
              == "Cannot read properties of null (reading 'authToken')";
            Err(m)
          case Got(authToken) =>
            match ToString(authToken)
            case Err(m) => Err(m)
            case Ok(t) => Ok(BearerPrefix + t)
  }

  /**
   * The result shaping after a scan: an upload target is present only when
   * `uploadUrl` is truthy; `fileId` falls back to `id`; the category comes
   * from the fixed table.
   */
  function ShapeResult(initData: Value, token: string, categoryKey: string): (r: Result<Upload, string>)
    ensures initData.Null? ==> r == Err("Cannot read properties of null (reading 'uploadUrl')")
    ensures r.Ok? <==> initData.Obj? && Truthy(Lookup(initData.members, "uploadUrl"))
    ensures !initData.Null? && r.Err? ==> r.error == NoUploadUrl + Stringify(initData)
    ensures r.Ok? ==>
      r.value.uploadUrl == Lookup(initData.members, "uploadUrl") &&
      r.value.token == token &&
      r.value.categoryId == CategoryId(categoryKey)
    ensures r.Ok? ==>
      var fileId := Lookup(initData.members, "fileId");
      (Truthy(fileId) ==> r.value.fileId == fileId) &&
      (!Truthy(fileId) ==> r.value.fileId == Lookup(initData.members, "id"))
  {
    match GetProp(initData, UploadUrl)
    case TypeError(m) =>
      assert "Cannot read properties of null (reading '" + FieldName(UploadUrl) + "')"
        == "Cannot read properties of null (reading 'uploadUrl')";
      Err(m)
    case Got(uploadUrl) =>
      if !Truthy(uploadUrl) then Err(NoUploadUrl + Stringify(initData))
      else
        Ok(Upload(
          uploadUrl,
          Or(GetProp(initData, FileId).prop, GetProp(initData, Id).prop),
          token,
          CategoryId(categoryKey)))
  }

  /**
   * The whole action. `login` is the login exchange and `scan[i]` what
   * `Candidates[i]` answers if it is requested; `calls` lists the requests
   * made.
   */
  method PrepareUpload(session: Session, account: Option<Account>, login: Reply, scan: seq<Reply>, categoryKey: string)
    returns (result: Result<Upload, string>, calls: seq<Call>)
    requires |scan| == |Candidates|
    ensures !SignedIn(session) ==> result == Err(SessionInvalid) && calls == []
    ensures SignedIn(session) && !AccountReady(account) ==> result == Err(AccountProblem) && calls == []
    ensures calls == [] <==> !(SignedIn(session) && AccountReady(account))
    ensures SignedIn(session) && AccountReady(account) && BearerToken(login).Err? ==>
      result == Err(BearerToken(login).error) && calls == [Login]
    ensures SignedIn(session) && AccountReady(account) && BearerToken(login).Ok? ==>
      var token := BearerToken(login).value;
      |calls| == 1 + ScanLength(scan) && calls[0] == Login &&
      (forall i :: 1 <= i < |calls| ==> calls[i] == Scan(Candidates[i - 1], token)) &&
      result == match ScanOutcome(scan)
                case Ok(initData) => ShapeResult(initData, token, categoryKey)
                case Err(m) => Err(m)
    ensures result.Ok? ==>
      SignedIn(session) && AccountReady(account) && BearerToken(login).Ok? &&
      result.value.token == BearerToken(login).value &&
      forall c :: c in calls && c.Scan? ==> c.authorization == result.value.token
  {
    calls := [];
    if !SignedIn(session) {
      return Err(SessionInvalid), calls;
    }
    if !AccountReady(account) {
      return Err(AccountProblem), calls;
    }
    calls := calls + [Login];
    var token := BearerToken(login);
    if token.Err? {
      return Err(token.error), calls;
    }
    var bearerToken := token.value;
    var initData, scanCalls := TryEndpoints(Candidates, bearerToken, scan);
    calls := calls + scanCalls;
    assert forall i :: 1 <= i < |calls| ==> calls[i] == scanCalls[i - 1];
    assert forall c :: c in calls && c.Scan? ==> c.authorization == bearerToken;
    match initData {
      case Err(m) =>
        result := Err(m);
      case Ok(v) =>
        result := ShapeResult(v, bearerToken, categoryKey);
    }
  }

  /**
   * The scan result is read directly, not through a `result` envelope: a
   * body `{"result": {...}}` carries no top-level `uploadUrl` and fails.
   */
  lemma EnvelopeIsNotUnwrapped(inner: seq<Member>, token: string, categoryKey: string)
    ensures var initData := Obj([Member("result", Obj(inner))]);
      ShapeResult(initData, token, categoryKey) == Err(NoUploadUrl + Stringify(initData))
  {
  }

  /** A 2xx login whose `authToken` has an own `toString` member throws while building the token. */
  lemma TokenWithOwnToStringThrows(status: nat)
    requires IsOk(status)
    ensures var loginData := Obj([Member("authToken", Obj([Member("toString", Num(1))]))]);
      BearerToken(Answer(status, Body(Ok("{}"), Ok(loginData)))) == Err(CannotConvert)
  {
    var loginData := Obj([Member("authToken", Obj([Member("toString", Num(1))]))]);
    assert Lookup(loginData.members, "authToken") == Defined(Obj([Member("toString", Num(1))]));
    assert Obj([Member("toString", Num(1))]).members[0].key == "toString";
  }
}
