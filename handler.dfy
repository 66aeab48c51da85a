/**
 * The HTTP handlers of the minder service. A body handler validates the decoded request
 * and answers 400 without calling the use case when validation fails; a path handler
 * reads its id from the first path parameter and answers 400 for id 0; otherwise the
 * use case runs and its answer is written with status 500 when it returned an error and
 * with the envelope's own status when it did not. JSON decoding is not modelled: a body
 * handler receives the struct the decoder left, complete or not, since a decode error is
 * only logged.
 */
module Handler {
  import opened Wrappers
  import Model
  import C = Common
  import N = Numbers
  import opened Repository
  import U = Usecase
  import R = Router

  /** The five handler functions, as the route table holds them. */
  datatype Endpoint = RegisterEndpoint | LoginEndpoint | UpgradeAccountEndpoint | GetTargetUserEndpoint | SwipeEndpoint

  /** What a handler writes: the status line's code and the envelope. */
  datatype Written = Written(status: int, body: C.HTTPResponse)

  /** One request through a handler: what it wrote, the tables after it, and the repository calls. */
  datatype Outcome = Outcome(written: Written, tables: Tables, calls: seq<Call>)

  const BadRequest: Written := Written(C.StatusBadRequest, C.BadRequestResponse())

  /** The route table `NewMinderHandler` registers, in order. */
  const MinderRoutes: seq<(string, string, Endpoint, string)> := [
    ("POST", "/register", RegisterEndpoint, "Register"),
    ("POST", "/login", LoginEndpoint, "Login"),
    ("PUT", "/upgrade-account/([0-9]+)", UpgradeAccountEndpoint, "Upgrade Account"),
    ("GET", "/get-target-user/([0-9]+)", GetTargetUserEndpoint, "GetTargetUser"),
    ("PUT", "/swipe", SwipeEndpoint, "Swipe")
  ]

  /**
   * `getParamUint64`: the first path parameter read by `strconv.ParseUint` with base 0,
   * so a leading '0' means octal and "0x", "0o", "0b" prefixes are honoured; any parse
   * error gives 0.
   */
  function GetParamUint64(params: Option<seq<string>>): (id: nat)
    requires params.Some? ==> |params.value| > 0
    ensures id <= N.MaxUint64
    ensures N.ParseUint(R.Param(params, 0), 0).err.Some? ==> id == 0
    ensures N.ParseUint(R.Param(params, 0), 0).err.None? ==> id == N.ParseUint(R.Param(params, 0), 0).value
  {
    var r := N.ParseUint(R.Param(params, 0), 0);
    if r.err.Some? then 0 else r.value
  }

  /** The status a handler writes for a use-case answer: 500 on an error, else the envelope's. */
  function Respond(a: U.Answer): (w: Written)
    ensures w.body == a.res
    ensures a.err.Some? ==> w.status == C.StatusInternalServerError
    ensures a.err.None? ==> w.status == a.res.httpStatus
  {
    if a.err.Some? then Written(C.StatusInternalServerError, a.res) else Written(a.res.httpStatus, a.res)
  }

  function HandleRegister(t: Tables, req: Model.RegisterReq): Outcome
  {
    if !Model.RegisterValid(req) then Outcome(BadRequest, t, [])
    else
      var step := InsertUser(t, req);
      Outcome(Respond(U.RowsAnswer(step.reply)), step.tables, [CallRegister(req)])
  }

  function HandleLogin(t: Tables, req: Model.LoginReq): Outcome
  {
    if !Model.LoginValid(req) then Outcome(BadRequest, t, [])
    else Outcome(Respond(U.LoginAnswer(SelectLogin(t, req))), t, [CallLogin(req)])
  }

  function HandleUpgradeAccount(t: Tables, params: Option<seq<string>>): Outcome
    requires params.Some? ==> |params.value| > 0
  {
    var id := GetParamUint64(params);
    if id == 0 then Outcome(BadRequest, t, [])
    else
      var step := UpdateUpgraded(t, id);
      Outcome(Respond(U.RowsAnswer(step.reply)), step.tables, [CallUpgradeAccount(id)])
  }

  function HandleGetTargetUser(t: Tables, params: Option<seq<string>>): Outcome
    requires params.Some? ==> |params.value| > 0
  {
    var id := GetParamUint64(params);
    if id == 0 then Outcome(BadRequest, t, [])
    else
      var d := U.Discover(t, id);
      Outcome(Respond(d.answer), d.tables, d.calls)
  }

  function HandleSwipe(t: Tables, req: Model.SwipeReq): Outcome
  {
    if !Model.SwipeValid(req) then Outcome(BadRequest, t, [])
    else
      var step := UpdateSwipeRows(t, req);
      Outcome(Respond(U.RowsAnswer(step.reply)), step.tables, [CallUpdateSwipe(req)])
  }

  /** `MinderHandler` over one use case. */
  class MinderHandler {
    const usecase: U.MinderUsecase

    constructor (usecase: U.MinderUsecase)
      ensures this.usecase == usecase
    {
      this.usecase := usecase;
    }

    method Register(req: Model.RegisterReq) returns (w: Written)
      requires usecase.repo.Valid()
      modifies usecase.repo`users, usecase.repo`nextId, usecase.repo`calls
      ensures usecase.repo.Valid()
      ensures var o := HandleRegister(old(usecase.repo.State()), req);
        w == o.written && usecase.repo.State() == o.tables && usecase.repo.calls == old(usecase.repo.calls) + o.calls
    {
      if !Model.RegisterValid(req) {
        return BadRequest;
      }
      var result, err := usecase.Register(req);
      w := Respond(U.Answer(result, err));
    }

    method Login(req: Model.LoginReq) returns (w: Written)
      modifies usecase.repo`calls
      ensures var o := HandleLogin(usecase.repo.State(), req);
        w == o.written && usecase.repo.calls == old(usecase.repo.calls) + o.calls
    {
      if !Model.LoginValid(req) {
        return BadRequest;
      }
      var result, err := usecase.Login(req);
      w := Respond(U.Answer(result, err));
    }

    method UpgradeAccount(params: Option<seq<string>>) returns (w: Written)
      requires params.Some? ==> |params.value| > 0
      requires usecase.repo.Valid()
      modifies usecase.repo`users, usecase.repo`calls
      ensures usecase.repo.Valid()
      ensures var o := HandleUpgradeAccount(old(usecase.repo.State()), params);
        w == o.written && usecase.repo.State() == o.tables && usecase.repo.calls == old(usecase.repo.calls) + o.calls
    {
      var id := GetParamUint64(params);
      if id == 0 {
        return BadRequest;
      }
      var result, err := usecase.UpgradeAccount(id);
      w := Respond(U.Answer(result, err));
    }

    method GetTargetUser(params: Option<seq<string>>) returns (w: Written)
      requires params.Some? ==> |params.value| > 0
      requires usecase.repo.Valid()
      modifies usecase.repo`swipes, usecase.repo`calls
      ensures usecase.repo.Valid()
      ensures var o := HandleGetTargetUser(old(usecase.repo.State()), params);
        w == o.written && usecase.repo.State() == o.tables && usecase.repo.calls == old(usecase.repo.calls) + o.calls
    {
      var id := GetParamUint64(params);
      if id == 0 {
        return BadRequest;
      }
      var result, err := usecase.GetTargetUser(id);
      w := Respond(U.Answer(result, err));
    }

    method Swipe(req: Model.SwipeReq) returns (w: Written)
      requires usecase.repo.Valid()
      modifies usecase.repo`swipes, usecase.repo`calls
      ensures usecase.repo.Valid()
      ensures var o := HandleSwipe(old(usecase.repo.State()), req);
        w == o.written && usecase.repo.State() == o.tables && usecase.repo.calls == old(usecase.repo.calls) + o.calls
    {
      if !Model.SwipeValid(req) {
        return BadRequest;
      }
      var result, err := usecase.Swipe(req);
      w := Respond(U.Answer(result, err));
    }
  }

  /** `NewMinderHandler`: register the five routes, in order, after any already present. */
  method NewMinderHandler(router: R.Router<Endpoint>)
    modifies router`routes
    ensures |router.routes| == |old(router.routes)| + |MinderRoutes|
    ensures router.routes[..|old(router.routes)|] == old(router.routes)
    ensures forall k :: 0 <= k < |MinderRoutes| ==>
      router.routes[|old(router.routes)| + k]
        == R.RouteEntry(MinderRoutes[k].0, R.RoutePattern(MinderRoutes[k].1), MinderRoutes[k].2, MinderRoutes[k].3)
  {
    router.Route("POST", "/register", RegisterEndpoint, "Register");
    router.Route("POST", "/login", LoginEndpoint, "Login");
    router.Route("PUT", "/upgrade-account/([0-9]+)", UpgradeAccountEndpoint, "Upgrade Account");
    router.Route("GET", "/get-target-user/([0-9]+)", GetTargetUserEndpoint, "GetTargetUser");
    router.Route("PUT", "/swipe", SwipeEndpoint, "Swipe");
  }

  // ------------------------------------------------------------------ properties

  /** A body that fails validation is answered 400, and the use case is not reached. */
  lemma InvalidBodiesRejected(t: Tables, register: Model.RegisterReq, login: Model.LoginReq, swipe: Model.SwipeReq)
    ensures !Model.RegisterValid(register) ==> HandleRegister(t, register) == Outcome(BadRequest, t, [])
    ensures !Model.LoginValid(login) ==> HandleLogin(t, login) == Outcome(BadRequest, t, [])
    ensures !Model.SwipeValid(swipe) ==> HandleSwipe(t, swipe) == Outcome(BadRequest, t, [])
  {
  }

  /** A path id that does not parse, or parses as 0, is answered 400 without any repository call. */
  lemma ZeroIdRejected(t: Tables, params: Option<seq<string>>)
    requires params.Some? ==> |params.value| > 0
    requires N.ParseUint(R.Param(params, 0), 0).err.Some? || N.ParseUint(R.Param(params, 0), 0).value == 0
    ensures HandleUpgradeAccount(t, params) == Outcome(BadRequest, t, [])
    ensures HandleGetTargetUser(t, params) == Outcome(BadRequest, t, [])
  {
  }

  /** Base 0 reads a leading '0' as octal: "010" is user 8, and "09" does not parse, so it is a 400. */
  lemma OctalPathIds()
    ensures GetParamUint64(Some(["010"])) == 8
    ensures GetParamUint64(Some(["09"])) == 0
    ensures GetParamUint64(Some(["0"])) == 0
    ensures GetParamUint64(Some(["12"])) == 12
    ensures GetParamUint64(None) == 0
  {
    assert N.BasePrefix("010") == ("10", 8);
    assert N.DigitValue('1') == 1 && N.DigitValue('0') == 0 && N.DigitValue('9') == 9 && N.DigitValue('2') == 2;
    assert N.ScanDigits("10", 8, true, 0, false) == N.Scanned(8, false) by {
      assert "10"[1..] == "0" && "0"[1..] == "";
    }
    assert N.BasePrefix("09") == ("9", 8);
    assert N.ScanDigits("9", 8, true, 0, false) == N.SyntaxStop;
    assert N.BasePrefix("0") == ("", 8);
    assert N.ScanDigits("", 8, true, 0, false) == N.Scanned(0, false);
    assert N.BasePrefix("12") == ("12", 10);
    assert N.ScanDigits("12", 10, true, 0, false) == N.Scanned(12, false) by {
      assert "12"[1..] == "2" && "2"[1..] == "";
    }
  }

  /** A written response is 200 with the success envelope, 400 with the bad-request one, or 500. */
  predicate WellWritten(w: Written)
  {
    (w.status == C.StatusOK && w.body == C.OkResponse(w.body.data))
    || w == BadRequest
    || w.status == C.StatusInternalServerError
  }

  lemma RespondWellWritten(a: U.Answer)
    requires U.Enveloped(a)
    ensures WellWritten(Respond(a))
  {
  }

  /** The handlers that decode a body write 200, 400 or 500, and 200 only with the success envelope. */
  lemma BodyHandlerStatuses(t: Tables, register: Model.RegisterReq, login: Model.LoginReq, swipe: Model.SwipeReq)
    ensures WellWritten(HandleRegister(t, register).written)
    ensures WellWritten(HandleLogin(t, login).written)
    ensures WellWritten(HandleSwipe(t, swipe).written)
  {
    RespondWellWritten(U.RowsAnswer(InsertUser(t, register).reply));
    RespondWellWritten(U.LoginAnswer(SelectLogin(t, login)));
    RespondWellWritten(U.RowsAnswer(UpdateSwipeRows(t, swipe).reply));
  }

  /** The handlers that read a path id write 200, 400 or 500, and 200 only with the success envelope. */
  lemma PathHandlerStatuses(t: Tables, params: Option<seq<string>>)
    requires params.Some? ==> |params.value| > 0
    ensures WellWritten(HandleUpgradeAccount(t, params).written)
    ensures WellWritten(HandleGetTargetUser(t, params).written)
  {
    var id := GetParamUint64(params);
    RespondWellWritten(U.RowsAnswer(UpdateUpgraded(t, id).reply));
    U.DiscoverShape(t, id);
    RespondWellWritten(U.Discover(t, id).answer);
  }

  /** Every handler writes 200, 400 or 500, and 200 only with the success envelope. */
  lemma HandlerStatuses(t: Tables, register: Model.RegisterReq, login: Model.LoginReq, swipe: Model.SwipeReq,
                        params: Option<seq<string>>)
    requires params.Some? ==> |params.value| > 0
    ensures WellWritten(HandleRegister(t, register).written)
    ensures WellWritten(HandleLogin(t, login).written)
    ensures WellWritten(HandleUpgradeAccount(t, params).written)
    ensures WellWritten(HandleGetTargetUser(t, params).written)
    ensures WellWritten(HandleSwipe(t, swipe).written)
  {
    BodyHandlerStatuses(t, register, login, swipe);
    PathHandlerStatuses(t, params);
  }

  /**
   * A discovery that writes 200 returns a candidate of the other gender who had not been
   * shown to the viewer today, and records exactly that pending swipe.
   */
  lemma DiscoveryWritten(t: Tables, params: Option<seq<string>>)
    requires params.Some? ==> |params.value| > 0
    requires ValidTables(t)
    requires HandleGetTargetUser(t, params).written.status == C.StatusOK
    ensures var id := GetParamUint64(params);
      id != 0 && SelectTargetUser(t, id).data.Some?
      && HandleGetTargetUser(t, params).written.body == C.OkResponse(C.TargetPayload(SelectTargetUser(t, id).data.value))
      && SelectTargetUser(t, id).data.value.userId !in ShownToday(t, id)
      && SelectTargetUser(t, id).data.value.gender != ViewerGender(t, id).value
      && HandleGetTargetUser(t, params).tables.swipes
         == t.swipes + [SwipeRow(id, SelectTargetUser(t, id).data.value.userId, None, t.today)]
  {
    var id := GetParamUint64(params);
    U.DiscoverShape(t, id);
    U.SuccessIsRecordedCandidate(t, id);
    TargetNeverViewer(t, id);
  }
}
