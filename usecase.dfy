/**
 * The minder use case: each method makes a fixed sequence of repository calls with
 * early returns, and maps what came back to a response envelope and an error. The
 * envelope mapping is pure (the gate functions); the call sequence is the class
 * `MinderUsecase`, proved to follow the specification functions over the tables.
 */
module Usecase {
  import opened Wrappers
  import Model
  import C = Common
  import opened Repository

  /** Views a non-upgraded user may have per day before discovery is refused. */
  const ViewQuota := 10

  /** A use-case method's Go result `(res, err)`; `err` is whatever the last repository call returned. */
  datatype Answer = Answer(res: C.HTTPResponse, err: Option<Error>)

  /** Every answer is the success envelope or the internal-error envelope. */
  predicate Enveloped(a: Answer)
  {
    a.res == C.OkResponse(a.res.data) || a.res == C.InternalServerErrorResponse()
  }

  /** `Register`, `UpgradeAccount` and `Swipe`: success needs no error and a non-zero row count. */
  function RowsAnswer(r: Reply<int>): (a: Answer)
    ensures a.err == r.err
    ensures a.res.httpStatus == C.StatusOK <==> r.err.None? && r.data != 0
    ensures a.res.httpStatus == C.StatusOK ==> a.res == C.OkResponse(C.NoData)
    ensures a.res.httpStatus != C.StatusOK ==> a.res == C.InternalServerErrorResponse()
  {
    if r.err.Some? || r.data == 0 then Answer(C.InternalServerErrorResponse(), r.err)
    else Answer(C.OkResponse(C.NoData), r.err)
  }

  /** `Login`: success needs no error and a user, who becomes the envelope's data. */
  function LoginAnswer(r: Reply<Option<Model.UserData>>): (a: Answer)
    ensures a.err == r.err
    ensures a.res.httpStatus == C.StatusOK <==> r.err.None? && r.data.Some?
    ensures a.res.httpStatus == C.StatusOK ==> a.res == C.OkResponse(C.UserPayload(r.data.value))
    ensures a.res.httpStatus != C.StatusOK ==> a.res == C.InternalServerErrorResponse()
  {
    if r.err.Some? || r.data.None? then Answer(C.InternalServerErrorResponse(), r.err)
    else Answer(C.OkResponse(C.UserPayload(r.data.value)), r.err)
  }

  /** The quota gate: a failed count, a missing count or a count at the quota refuses discovery. */
  predicate QuotaRefuses(count: Reply<Option<int>>)
  {
    count.err.Some? || count.data.None? || count.data.value >= ViewQuota
  }

  /** One discovery request: its answer, the tables afterwards and the repository calls it made. */
  datatype Discovery = Discovery(answer: Answer, tables: Tables, calls: seq<Call>)

  /**
   * `GetTargetUser`: read the upgrade status; for a non-upgraded viewer read today's view
   * count and stop at the quota, answering with the count's own error (which the inner
   * `:=` declares afresh, so it is nil when only the quota refused); then pick a
   * candidate, record a pending swipe of it and return it.
   */
  function Discover(t: Tables, id: int): Discovery
  {
    var status := SelectUpgradeStatus(t, id);
    var afterStatus := [CallGetUserUpgradeStatus(id)];
    if status.err.Some? then Discovery(Answer(C.InternalServerErrorResponse(), status.err), t, afterStatus)
    else if status.data then Continued(afterStatus, DiscoverTarget(t, id))
    else
      var count := SelectViewCount(t, id);
      var afterCount := afterStatus + [CallGetUserViewCount(id)];
      if QuotaRefuses(count) then Discovery(Answer(C.InternalServerErrorResponse(), count.err), t, afterCount)
      else Continued(afterCount, DiscoverTarget(t, id))
  }

  /** A discovery's later stage, after the calls `before`. */
  function Continued(before: seq<Call>, d: Discovery): Discovery
  {
    d.(calls := before + d.calls)
  }

  /** The rest of a discovery once the gates let it through: pick a candidate and record it. */
  function DiscoverTarget(t: Tables, id: int): Discovery
  {
    var target := SelectTargetUser(t, id);
    if target.err.Some? || target.data.None? then
      Discovery(Answer(C.InternalServerErrorResponse(), target.err), t, [CallGetTargetUser(id)])
    else
      var candidate := target.data.value;
      var inserted := InsertSwipeRow(t, id, candidate.userId);
      var calls := [CallGetTargetUser(id), CallInsertSwipe(id, candidate.userId)];
      if inserted.reply.err.Some? || inserted.reply.data == 0 then
        Discovery(Answer(C.InternalServerErrorResponse(), inserted.reply.err), inserted.tables, calls)
      else
        Discovery(Answer(C.OkResponse(C.TargetPayload(candidate)), inserted.reply.err), inserted.tables, calls)
  }

  /** Appending call logs regroups freely. */
  lemma AppendAssoc(a: seq<Call>, b: seq<Call>, c: seq<Call>)
    ensures a + (b + c) == (a + b) + c
  {
  }

  /** The use case over one store. */
  class MinderUsecase {
    const repo: MinderStore

    constructor (repo: MinderStore)
      ensures this.repo == repo
    {
      this.repo := repo;
    }

    method Register(req: Model.RegisterReq) returns (res: C.HTTPResponse, err: Option<Error>)
      requires repo.Valid()
      modifies repo`users, repo`nextId, repo`calls
      ensures repo.Valid()
      ensures var step := InsertUser(old(repo.State()), req);
        Answer(res, err) == RowsAnswer(step.reply) && repo.State() == step.tables
      ensures repo.calls == old(repo.calls) + [CallRegister(req)]
    {
      var data;
      data, err := repo.Register(req);
      if err.Some? || data == 0 {
        return C.InternalServerErrorResponse(), err;
      }
      res := C.OkResponse(C.NoData);
    }

    method Login(req: Model.LoginReq) returns (res: C.HTTPResponse, err: Option<Error>)
      modifies repo`calls
      ensures Answer(res, err) == LoginAnswer(SelectLogin(repo.State(), req))
      ensures repo.calls == old(repo.calls) + [CallLogin(req)]
    {
      var data;
      data, err := repo.Login(req);
      if err.Some? || data.None? {
        return C.InternalServerErrorResponse(), err;
      }
      res := C.OkResponse(C.UserPayload(data.value));
    }

    method UpgradeAccount(id: int) returns (res: C.HTTPResponse, err: Option<Error>)
      requires repo.Valid()
      modifies repo`users, repo`calls
      ensures repo.Valid()
      ensures var step := UpdateUpgraded(old(repo.State()), id);
        Answer(res, err) == RowsAnswer(step.reply) && repo.State() == step.tables
      ensures repo.calls == old(repo.calls) + [CallUpgradeAccount(id)]
    {
      var data;
      data, err := repo.UpgradeAccount(id);
      if err.Some? || data == 0 {
        return C.InternalServerErrorResponse(), err;
      }
      res := C.OkResponse(C.NoData);
    }

    method GetTargetUser(id: int) returns (res: C.HTTPResponse, err: Option<Error>)
      requires repo.Valid()
      modifies repo`swipes, repo`calls
      ensures repo.Valid()
      ensures var d := Discover(old(repo.State()), id);
        Answer(res, err) == d.answer && repo.State() == d.tables && repo.calls == old(repo.calls) + d.calls
    {
      ghost var t := repo.State();
      ghost var before := repo.calls;
      var upgradeStatus;
      upgradeStatus, err := repo.GetUserUpgradeStatus(id);
      assert repo.State() == t;
      ghost var status := SelectUpgradeStatus(t, id);
      assert Reply(upgradeStatus, err) == status;
      if err.Some? {
        StatusFailureStops(t, id);
        return C.InternalServerErrorResponse(), err;
      }
      ghost var gate := [CallGetUserUpgradeStatus(id)];
      if !upgradeStatus {
        var viewCount, innerErr := repo.GetUserViewCount(id);
        assert repo.State() == t;
        assert Reply(viewCount, innerErr) == SelectViewCount(t, id);
        AppendAssoc(before, gate, [CallGetUserViewCount(id)]);
        gate := gate + [CallGetUserViewCount(id)];
        if innerErr.Some? || viewCount.None? || viewCount.value >= ViewQuota {
          QuotaDenies(t, id);
          return C.InternalServerErrorResponse(), innerErr;
        }
      }
      ghost var rest := DiscoverTarget(t, id);
      assert Discover(t, id) == Continued(gate, rest);
      res, err := ServeCandidate(id);
      AppendAssoc(before, gate, rest.calls);
    }

    /** The second half of `GetTargetUser`: look up a candidate, record it, return it. */
    method ServeCandidate(id: int) returns (res: C.HTTPResponse, err: Option<Error>)
      requires repo.Valid()
      modifies repo`swipes, repo`calls
      ensures repo.Valid()
      ensures var d := DiscoverTarget(old(repo.State()), id);
        Answer(res, err) == d.answer && repo.State() == d.tables && repo.calls == old(repo.calls) + d.calls
    {
      var data;
      data, err := repo.GetTargetUser(id);
      if err.Some? || data.None? {
        return C.InternalServerErrorResponse(), err;
      }
      var total;
      total, err := repo.InsertSwipe(id, data.value.userId);
      if err.Some? || total == 0 {
        return C.InternalServerErrorResponse(), err;
      }
      res := C.OkResponse(C.TargetPayload(data.value));
    }

    method Swipe(req: Model.SwipeReq) returns (res: C.HTTPResponse, err: Option<Error>)
      requires repo.Valid()
      modifies repo`swipes, repo`calls
      ensures repo.Valid()
      ensures var step := UpdateSwipeRows(old(repo.State()), req);
        Answer(res, err) == RowsAnswer(step.reply) && repo.State() == step.tables
      ensures repo.calls == old(repo.calls) + [CallUpdateSwipe(req)]
    {
      var data;
      data, err := repo.UpdateSwipe(req);
      if err.Some? || data == 0 {
        return C.InternalServerErrorResponse(), err;
      }
      res := C.OkResponse(C.NoData);
    }
  }

  // ------------------------------------------------------------------ properties of discovery

  /** Every discovery answers with one of the two envelopes and changes no user. */
  lemma DiscoverShape(t: Tables, id: int)
    ensures Enveloped(Discover(t, id).answer)
    ensures Discover(t, id).tables.users == t.users && Discover(t, id).tables.today == t.today
    ensures |Discover(t, id).calls| >= 1 && Discover(t, id).calls[0] == CallGetUserUpgradeStatus(id)
  {
  }

  /** A failed upgrade-status lookup answers 500 with that error and makes no other call. */
  lemma StatusFailureStops(t: Tables, id: int)
    requires SelectUpgradeStatus(t, id).err.Some?
    ensures Discover(t, id) == Discovery(Answer(C.InternalServerErrorResponse(), SelectUpgradeStatus(t, id).err),
                                         t, [CallGetUserUpgradeStatus(id)])
  {
  }

  /** An upgraded viewer's count is never read, so the quota never refuses them. */
  lemma UpgradedSkipsQuota(t: Tables, id: int)
    requires SelectUpgradeStatus(t, id) == Reply(true, None)
    ensures CallGetUserViewCount(id) !in Discover(t, id).calls
    ensures |Discover(t, id).calls| >= 2 && Discover(t, id).calls[1] == CallGetTargetUser(id)
  {
  }

  /**
   * A non-upgraded viewer whose count fails, is missing or has reached the quota gets 500,
   * no candidate is looked up and nothing is recorded; the error is the count's own.
   */
  lemma QuotaDenies(t: Tables, id: int)
    requires SelectUpgradeStatus(t, id) == Reply(false, None)
    requires QuotaRefuses(SelectViewCount(t, id))
    ensures Discover(t, id) == Discovery(Answer(C.InternalServerErrorResponse(), SelectViewCount(t, id).err),
                                         t, [CallGetUserUpgradeStatus(id), CallGetUserViewCount(id)])
  {
  }

  /** On a reachable database the quota refusal carries no error at all, yet the envelope says 500. */
  lemma QuotaDenialHasNoError(t: Tables, id: int)
    requires t.online
    requires SelectUpgradeStatus(t, id) == Reply(false, None)
    requires CountShown(t.swipes, id, t.today) >= ViewQuota
    ensures Discover(t, id).answer == Answer(C.InternalServerErrorResponse(), None)
    ensures Discover(t, id).tables == t
  {
  }

  /** Once the gates let a discovery through, its calls are the gate's calls and then the target stage's. */
  lemma PassedGates(t: Tables, id: int) returns (gate: seq<Call>)
    requires SelectUpgradeStatus(t, id).err.None?
    requires SelectUpgradeStatus(t, id).data || !QuotaRefuses(SelectViewCount(t, id))
    ensures Discover(t, id) == Continued(gate, DiscoverTarget(t, id))
    ensures gate == if SelectUpgradeStatus(t, id).data then [CallGetUserUpgradeStatus(id)]
                    else [CallGetUserUpgradeStatus(id), CallGetUserViewCount(id)]
    ensures forall j :: 0 <= j < |gate| ==> !Discover(t, id).calls[j].CallInsertSwipe?
  {
    gate := if SelectUpgradeStatus(t, id).data then [CallGetUserUpgradeStatus(id)]
            else [CallGetUserUpgradeStatus(id), CallGetUserViewCount(id)];
    if !SelectUpgradeStatus(t, id).data {
      assert [CallGetUserUpgradeStatus(id)] + [CallGetUserViewCount(id)] == gate;
    }
  }

  /** The target stage looks the candidate up, then may insert a pending swipe for exactly that candidate. */
  lemma TargetStageCalls(t: Tables, id: int)
    ensures var rest := DiscoverTarget(t, id).calls;
      && 1 <= |rest| <= 2 && rest[0] == CallGetTargetUser(id)
      && (|rest| == 2 ==> SelectTargetUser(t, id).data.Some?
                          && rest[1] == CallInsertSwipe(id, SelectTargetUser(t, id).data.value.userId))
  {
  }

  /**
   * A swipe is recorded only for the candidate the lookup returned, under the viewer's id,
   * and right after that lookup.
   */
  lemma InsertOnlyForCandidate(t: Tables, id: int)
    ensures var calls := Discover(t, id).calls;
      forall k :: 0 <= k < |calls| && calls[k].CallInsertSwipe? ==>
        SelectTargetUser(t, id).data.Some?
        && calls[k] == CallInsertSwipe(id, SelectTargetUser(t, id).data.value.userId)
        && k >= 1 && calls[k - 1] == CallGetTargetUser(id)
  {
    var status := SelectUpgradeStatus(t, id);
    if status.err.Some? {
      StatusFailureStops(t, id);
    } else if !status.data && QuotaRefuses(SelectViewCount(t, id)) {
      QuotaDenies(t, id);
    } else {
      var gate := PassedGates(t, id);
      var calls := Discover(t, id).calls;
      var rest := DiscoverTarget(t, id).calls;
      TargetStageCalls(t, id);
      assert calls == gate + rest;
      forall k | 0 <= k < |calls| && calls[k].CallInsertSwipe?
        ensures SelectTargetUser(t, id).data.Some?
        ensures calls[k] == CallInsertSwipe(id, SelectTargetUser(t, id).data.value.userId)
        ensures k >= 1 && calls[k - 1] == CallGetTargetUser(id)
      {
        assert calls[k] == rest[k - |gate|];
        assert k - |gate| == 1;
        assert calls[k - 1] == rest[0];
      }
    }
  }

  /** A successful discovery found a candidate on a reachable database, and its tables are the insert's. */
  lemma SuccessfulDiscovery(t: Tables, id: int)
    requires Discover(t, id).answer.res.httpStatus == C.StatusOK
    ensures SelectTargetUser(t, id).data.Some? && t.online
    ensures Discover(t, id).tables == InsertSwipeRow(t, id, SelectTargetUser(t, id).data.value.userId).tables
  {
    var status := SelectUpgradeStatus(t, id);
    if status.err.Some? {
      StatusFailureStops(t, id);
    } else if !status.data && QuotaRefuses(SelectViewCount(t, id)) {
      QuotaDenies(t, id);
    } else {
      var gate := PassedGates(t, id);
    }
  }

  /**
   * A 200 answer carries exactly the candidate that was recorded: it was not shown to the
   * viewer today, it is of the other gender, and the tables gained exactly that pending row.
   */
  lemma SuccessIsRecordedCandidate(t: Tables, id: int)
    requires ValidTables(t)
    requires Discover(t, id).answer.res.httpStatus == C.StatusOK
    ensures SelectTargetUser(t, id).data.Some?
    ensures var c := SelectTargetUser(t, id).data.value;
      Discover(t, id).answer == Answer(C.OkResponse(C.TargetPayload(c)), None)
      && Discover(t, id).tables == t.(swipes := t.swipes + [SwipeRow(id, c.userId, None, t.today)])
      && c.userId !in ShownToday(t, id) && c.userId != id
  {
    TargetNeverViewer(t, id);
  }

  /**
   * The quota holds: a successful discovery by a non-upgraded viewer started below the quota
   * and leaves the viewer's count raised by exactly one, so at most at the quota.
   */
  lemma DiscoveryKeepsQuota(t: Tables, id: int)
    requires SelectUpgradeStatus(t, id) == Reply(false, None)
    requires Discover(t, id).answer.res.httpStatus == C.StatusOK
    ensures CountShown(t.swipes, id, t.today) < ViewQuota
    ensures CountShown(Discover(t, id).tables.swipes, id, t.today) == CountShown(t.swipes, id, t.today) + 1
    ensures CountShown(Discover(t, id).tables.swipes, id, t.today) <= ViewQuota
  {
    var c := SelectTargetUser(t, id).data.value;
    InsertCountsOnce(t, id, c.userId, id);
  }

  /** A candidate returned once is not offered again the same day. */
  lemma NoRepeatSameDay(t: Tables, id: int)
    requires Discover(t, id).answer.res.httpStatus == C.StatusOK
    ensures SelectTargetUser(t, id).data.Some?
    ensures var t2 := Discover(t, id).tables;
      SelectTargetUser(t2, id).data.Some? ==>
        SelectTargetUser(t2, id).data.value.userId != SelectTargetUser(t, id).data.value.userId
  {
    SuccessfulDiscovery(t, id);
    InsertExcludesTarget(t, id, SelectTargetUser(t, id).data.value.userId);
  }

  // ------------------------------------------------------------------ row-count consequences

  /** A decision on a pair never shown answers 500 and, on a reachable database, with no error. */
  lemma SwipeWithoutRowFails(t: Tables, req: Model.SwipeReq)
    requires t.online
    requires forall k :: 0 <= k < |t.swipes| ==> !Decides(t.swipes[k], req)
    ensures RowsAnswer(UpdateSwipeRows(t, req).reply) == Answer(C.InternalServerErrorResponse(), None)
  {
    DecisionWithoutRow(t, req);
  }

  /** Sending the same decision twice: the second answers 500, because no row changes. */
  lemma RepeatedSwipeFails(t: Tables, req: Model.SwipeReq)
    requires t.online
    ensures var t2 := UpdateSwipeRows(t, req).tables;
      RowsAnswer(UpdateSwipeRows(t2, req).reply) == Answer(C.InternalServerErrorResponse(), None)
  {
    RepeatedDecision(t, req);
  }

  /** Changing a recorded decision succeeds. */
  lemma ChangedSwipeSucceeds(t: Tables, req: Model.SwipeReq, k: nat)
    requires t.online
    requires k < |t.swipes| && Decides(t.swipes[k], req) && t.swipes[k].swipeAction != Some(req.action)
    ensures RowsAnswer(UpdateSwipeRows(t, req).reply) == Answer(C.OkResponse(C.NoData), None)
  {
    DecisionOverwrites(t, req, k);
  }

  /** Upgrading a user succeeds once; upgrading them again answers 500. */
  lemma UpgradeOnce(t: Tables, id: int, k: nat)
    requires ValidTables(t) && t.online
    requires k < |t.users| && t.users[k].userId == id && !t.users[k].isUpgraded
    ensures RowsAnswer(UpdateUpgraded(t, id).reply) == Answer(C.OkResponse(C.NoData), None)
    ensures RowsAnswer(UpdateUpgraded(UpdateUpgraded(t, id).tables, id).reply)
         == Answer(C.InternalServerErrorResponse(), None)
  {
    UpgradeCountsOnce(t, id, k);
    UpgradeEffect(t, id);
  }

  /** Registration on a reachable database always succeeds. */
  lemma RegisterSucceeds(t: Tables, req: Model.RegisterReq)
    requires t.online
    ensures RowsAnswer(InsertUser(t, req).reply) == Answer(C.OkResponse(C.NoData), None)
  {
  }
}
