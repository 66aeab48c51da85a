/**
 * The MySQL repository of the minder service as an in-memory store. The two tables are
 * sequences of rows in table order; each SELECT is a function over them and each INSERT
 * or UPDATE a method that appends to or rewrites them. The current calendar day
 * (`CURDATE()`) is the store's `today`, and `online` says whether the database can be
 * reached at all: when it cannot, every statement fails as a failed prepare or exec does.
 * Affected-row counts follow MySQL's default, which counts the rows an UPDATE actually
 * changed, not the rows it matched.
 */
module Repository {
  import opened Wrappers
  import Model

  /** A row of `Users`. `isUpgraded` is the column's default, false, until an upgrade. */
  datatype User = User(
    userId: int, username: string, email: string, phoneNumber: string, password: string,
    fullName: string, gender: string, dateOfBirth: string, profilePicture: string, isUpgraded: bool)

  /**
   * A row of `Swipes`: who was shown whom, on which day (`DATE(created_at)`), and the
   * decision, which is `None` (SQL NULL) while the swipe is pending.
   */
  datatype SwipeRow = SwipeRow(userId: int, targetUserId: int, swipeAction: Option<string>, day: int)

  /** The errors the repository returns. */
  datatype Error =
    | DbUnavailable   // preparing or executing a statement failed
    | NoUserFound     // "no user found with the given credentials"
    | NoDataFound     // "no data found"

  /** A repository method's Go result pair `(data, err)`. */
  datatype Reply<T> = Reply(data: T, err: Option<Error>)

  /** The database: both tables, the next auto-increment id, the current day and reachability. */
  datatype Tables = Tables(users: seq<User>, swipes: seq<SwipeRow>, nextId: int, today: int, online: bool)

  /** What a write statement reports, and the tables after it. */
  datatype Step = Step(reply: Reply<int>, tables: Tables)

  /** The repository methods, as recorded in the store's call log. */
  datatype Call =
    | CallRegister(registerReq: Model.RegisterReq)
    | CallLogin(loginReq: Model.LoginReq)
    | CallUpgradeAccount(upgradeId: int)
    | CallGetUserUpgradeStatus(statusId: int)
    | CallGetUserViewCount(countId: int)
    | CallGetTargetUser(viewerId: int)
    | CallInsertSwipe(swipeId: int, swipeTargetId: int)
    | CallUpdateSwipe(swipeReq: Model.SwipeReq)

  /** `user_id` is the auto-increment primary key: ids are positive, ascending, below `nextId`. */
  predicate ValidTables(t: Tables)
  {
    t.nextId >= 1
    && (forall i :: 0 <= i < |t.users| ==> 1 <= t.users[i].userId < t.nextId)
    && (forall i, j :: 0 <= i < j < |t.users| ==> t.users[i].userId < t.users[j].userId)
  }

  /** The position of the first user, in table order, that satisfies `p`. */
  function FirstWhere(users: seq<User>, p: User -> bool): (r: Option<nat>)
    ensures r.Some? ==> r.value < |users| && p(users[r.value])
    ensures r.Some? ==> forall j :: 0 <= j < r.value ==> !p(users[j])
    ensures r.None? ==> forall j :: 0 <= j < |users| ==> !p(users[j])
  {
    if users == [] then None
    else if p(users[0]) then Some(0)
    else match FirstWhere(users[1..], p)
      case None => None
      case Some(k) => Some(k + 1)
  }

  /** A user's columns as login returns them: everything but the password. */
  function ToUserData(u: User): Model.UserData
  {
    Model.UserData(u.userId, u.username, u.email, u.phoneNumber, u.fullName, u.gender,
                   u.dateOfBirth, u.isUpgraded, u.profilePicture)
  }

  /** A user's columns as discovery returns them: no password and no upgrade flag. */
  function ToTargetUserData(u: User): Model.TargetUserData
  {
    Model.TargetUserData(u.userId, u.username, u.email, u.phoneNumber, u.fullName, u.gender,
                         u.dateOfBirth, u.profilePicture)
  }

  // ------------------------------------------------------------------ queries

  /** The login query's condition: username and password, compared exactly. */
  predicate Matches(u: User, req: Model.LoginReq)
  {
    u.username == req.username && u.password == req.password
  }

  /** `getUsersLoginData`: the first user whose username and password both match exactly. */
  function SelectLogin(t: Tables, req: Model.LoginReq): (r: Reply<Option<Model.UserData>>)
    ensures r.data.Some? <==> r.err.None?
    ensures r.data.Some? ==> (exists i :: 0 <= i < |t.users| && Matches(t.users[i], req)
                                          && r.data.value == ToUserData(t.users[i]))
    ensures t.online && r.data.None? ==> r.err == Some(NoUserFound)
    ensures t.online && r.data.None? ==> (forall i :: 0 <= i < |t.users| ==> !Matches(t.users[i], req))
  {
    if !t.online then Reply(None, Some(DbUnavailable))
    else match FirstWhere(t.users, (u: User) => Matches(u, req))
      case None => Reply(None, Some(NoUserFound))
      case Some(i) => Reply(Some(ToUserData(t.users[i])), None)
  }

  /** `getUserUpgradeStatus`: the user's `is_upgraded`, or "no data found" for an unknown id. */
  function SelectUpgradeStatus(t: Tables, id: int): (r: Reply<bool>)
    ensures r.err.None? <==> t.online && exists i :: 0 <= i < |t.users| && t.users[i].userId == id
    ensures r.err.None? ==> exists i :: 0 <= i < |t.users| && t.users[i].userId == id && r.data == t.users[i].isUpgraded
  {
    if !t.online then Reply(false, Some(DbUnavailable))
    else match FirstWhere(t.users, (u: User) => u.userId == id)
      case None => Reply(false, Some(NoDataFound))
      case Some(i) => Reply(t.users[i].isUpgraded, None)
  }

  /** Today's swipes by `id`: the rows viewer `id` created on `day`, decided or not. */
  predicate ShownOn(r: SwipeRow, id: int, day: int)
  {
    r.userId == id && r.day == day
  }

  /** The number of rows of `rows` that `ShownOn(_, id, day)` selects. */
  function CountShown(rows: seq<SwipeRow>, id: int, day: int): nat
  {
    if rows == [] then 0
    else CountShown(rows[..|rows| - 1], id, day) + (if ShownOn(rows[|rows| - 1], id, day) then 1 else 0)
  }

  /** `getUserViewCount`: `COUNT(1)` of today's rows by the viewer; a COUNT always yields a row. */
  function SelectViewCount(t: Tables, id: int): (r: Reply<Option<int>>)
    ensures r.err.None? <==> t.online
    ensures r.err.None? ==> r.data == Some(CountShown(t.swipes, id, t.today))
    ensures r.err.Some? ==> r.data.None?
  {
    if !t.online then Reply(None, Some(DbUnavailable))
    else Reply(Some(CountShown(t.swipes, id, t.today)), None)
  }

  /** The targets the viewer has been shown today, whatever was decided about them. */
  function ShownToday(t: Tables, id: int): set<int>
  {
    set r | r in t.swipes && ShownOn(r, id, t.today) :: r.targetUserId
  }

  /** A user the viewer may be offered: not shown today and of a different gender. */
  predicate Eligible(u: User, shown: set<int>, viewerGender: string)
  {
    u.userId !in shown && u.gender != viewerGender
  }

  /** The subquery `SELECT gender FROM Users WHERE user_id = ?`: NULL for an unknown viewer. */
  function ViewerGender(t: Tables, id: int): (g: Option<string>)
    ensures g.None? <==> forall v :: 0 <= v < |t.users| ==> t.users[v].userId != id
    ensures g.Some? ==> exists v :: 0 <= v < |t.users| && t.users[v].userId == id && t.users[v].gender == g.value
  {
    match FirstWhere(t.users, (u: User) => u.userId == id)
    case None => None
    case Some(v) => Some(t.users[v].gender)
  }

  /**
   * `getTargetUser`: the first user, in table order, who is not among today's targets of
   * the viewer and whose gender differs from the viewer's (`LIMIT 1`). For an unknown
   * viewer the gender subquery is NULL, no row compares unequal to it, and the result is
   * "no data found", as it is when nobody is eligible.
   */
  function SelectTargetUser(t: Tables, id: int): (r: Reply<Option<Model.TargetUserData>>)
    ensures r.data.Some? <==> r.err.None?
    ensures t.online && r.data.None? ==> r.err == Some(NoDataFound)
    ensures r.data.Some? ==> ViewerGender(t, id).Some?
    ensures r.data.Some? ==>
      (exists c :: 0 <= c < |t.users|
                   && Eligible(t.users[c], ShownToday(t, id), ViewerGender(t, id).value)
                   && (forall j :: 0 <= j < c ==> !Eligible(t.users[j], ShownToday(t, id), ViewerGender(t, id).value))
                   && r.data.value == ToTargetUserData(t.users[c]))
    ensures t.online && r.data.None? && ViewerGender(t, id).Some? ==>
      (forall c :: 0 <= c < |t.users| ==> !Eligible(t.users[c], ShownToday(t, id), ViewerGender(t, id).value))
  {
    if !t.online then Reply(None, Some(DbUnavailable))
    else match ViewerGender(t, id)
      case None => Reply(None, Some(NoDataFound))
      case Some(gender) =>
        match FirstWhere(t.users, (u: User) => Eligible(u, ShownToday(t, id), gender))
        case None => Reply(None, Some(NoDataFound))
        case Some(c) => Reply(Some(ToTargetUserData(t.users[c])), None)
  }

  // ------------------------------------------------------------------ writes

  function NewUser(id: int, req: Model.RegisterReq): User
  {
    User(id, req.username, req.email, req.phoneNumber, req.password, req.fullName, req.gender,
         req.dateOfBirth, req.profilePicture, false)
  }

  /** `insertUsers`: one new row with the next id and `is_upgraded` left at its default. */
  function InsertUser(t: Tables, req: Model.RegisterReq): Step
  {
    if !t.online then Step(Reply(0, Some(DbUnavailable)), t)
    else Step(Reply(1, None), t.(users := t.users + [NewUser(t.nextId, req)], nextId := t.nextId + 1))
  }

  function Upgraded(u: User, id: int): User
  {
    if u.userId == id then u.(isUpgraded := true) else u
  }

  /** The `Users` table after `upgradeAccount`: row by row, the flag set where the id matches. */
  function UpgradeAll(users: seq<User>, id: int): (r: seq<User>)
    ensures |r| == |users|
  {
    seq(|users|, i requires 0 <= i < |users| => Upgraded(users[i], id))
  }

  /** The number of users with that id whose flag `UPDATE ... is_upgraded=true` changes. */
  function CountUpgradable(users: seq<User>, id: int): nat
  {
    if users == [] then 0
    else (CountUpgradable(users[..|users| - 1], id)
          + if users[|users| - 1].userId == id && !users[|users| - 1].isUpgraded then 1 else 0)
  }

  /** `upgradeAccount`: that user's `is_upgraded` becomes true; the changed-row count is reported. */
  function UpdateUpgraded(t: Tables, id: int): Step
  {
    if !t.online then Step(Reply(0, Some(DbUnavailable)), t)
    else
      Step(Reply(CountUpgradable(t.users, id), None), t.(users := UpgradeAll(t.users, id)))
  }

  /** The upgrade keeps the ids, so valid tables stay valid. */
  lemma UpgradeKeepsValid(t: Tables, id: int)
    requires ValidTables(t)
    ensures ValidTables(UpdateUpgraded(t, id).tables)
  {
    var r := UpdateUpgraded(t, id).tables;
    assert forall i :: 0 <= i < |r.users| ==> r.users[i].userId == t.users[i].userId;
  }

  /** The row-by-row pass of the upgrade statement over the `Users` table. */
  method UpgradeRows(rows: seq<User>, id: int) returns (updated: seq<User>, changed: nat)
    ensures updated == UpgradeAll(rows, id) && changed == CountUpgradable(rows, id)
  {
    updated, changed := [], 0;
    var i := 0;
    while i < |rows|
      invariant 0 <= i <= |rows|
      invariant |updated| == i
      invariant forall k :: 0 <= k < i ==> updated[k] == Upgraded(rows[k], id)
      invariant changed == CountUpgradable(rows[..i], id)
    {
      assert rows[..i + 1][..i] == rows[..i];
      if rows[i].userId == id && !rows[i].isUpgraded {
        changed := changed + 1;
      }
      updated := updated + [Upgraded(rows[i], id)];
      i := i + 1;
    }
    assert rows[..i] == rows;
  }

  /** `insertSwipeLog`: one pending row for (viewer, target) dated today, with no duplicate check. */
  function InsertSwipeRow(t: Tables, id: int, targetId: int): Step
  {
    if !t.online then Step(Reply(0, Some(DbUnavailable)), t)
    else Step(Reply(1, None), t.(swipes := t.swipes + [SwipeRow(id, targetId, None, t.today)]))
  }

  predicate Decides(r: SwipeRow, req: Model.SwipeReq)
  {
    r.userId == req.id && r.targetUserId == req.targetId
  }

  function Decided(r: SwipeRow, req: Model.SwipeReq): SwipeRow
  {
    if Decides(r, req) then r.(swipeAction := Some(req.action)) else r
  }

  /** The `Swipes` table after `updateSwipeLog`: row by row, the action set where the pair matches. */
  function DecideAll(rows: seq<SwipeRow>, req: Model.SwipeReq): (r: seq<SwipeRow>)
    ensures |r| == |rows|
  {
    seq(|rows|, i requires 0 <= i < |rows| => Decided(rows[i], req))
  }

  /** The rows `updateSwipeLog` changes: those of the pair whose action is not already this one. */
  function CountDecidable(rows: seq<SwipeRow>, req: Model.SwipeReq): nat
  {
    if rows == [] then 0
    else (CountDecidable(rows[..|rows| - 1], req)
          + if Decides(rows[|rows| - 1], req) && rows[|rows| - 1].swipeAction != Some(req.action) then 1 else 0)
  }

  /**
   * `updateSwipeLog`: every row of the (viewer, target) pair gets the action, whatever its
   * day and whatever was decided before; the changed-row count is reported.
   */
  function UpdateSwipeRows(t: Tables, req: Model.SwipeReq): Step
  {
    if !t.online then Step(Reply(0, Some(DbUnavailable)), t)
    else
      Step(Reply(CountDecidable(t.swipes, req), None), t.(swipes := DecideAll(t.swipes, req)))
  }

  /** The row-by-row pass of the swipe update statement over the `Swipes` table. */
  method DecideRows(rows: seq<SwipeRow>, req: Model.SwipeReq) returns (updated: seq<SwipeRow>, changed: nat)
    ensures updated == DecideAll(rows, req) && changed == CountDecidable(rows, req)
  {
    updated, changed := [], 0;
    var i := 0;
    while i < |rows|
      invariant 0 <= i <= |rows|
      invariant |updated| == i
      invariant forall k :: 0 <= k < i ==> updated[k] == Decided(rows[k], req)
      invariant changed == CountDecidable(rows[..i], req)
    {
      assert rows[..i + 1][..i] == rows[..i];
      if Decides(rows[i], req) && rows[i].swipeAction != Some(req.action) {
        changed := changed + 1;
      }
      updated := updated + [Decided(rows[i], req)];
      i := i + 1;
    }
    assert rows[..i] == rows;
  }

  // ------------------------------------------------------------------ the store

  /**
   * The database the repository talks to. Its fields are the two tables and the values
   * the statements depend on; `calls` records, in order, which repository method ran.
   */
  class MinderStore {
    var users: seq<User>
    var swipes: seq<SwipeRow>
    var nextId: int
    var today: int
    var online: bool
    ghost var calls: seq<Call>

    function State(): Tables
      reads this`users, this`swipes, this`nextId, this`today, this`online
    {
      Tables(users, swipes, nextId, today, online)
    }

    ghost predicate Valid()
      reads this`users, this`swipes, this`nextId, this`today, this`online
    {
      ValidTables(State())
    }

    /** Empty tables, reachable, on the given day. */
    constructor (day: int)
      ensures Valid()
      ensures State() == Tables([], [], 1, day, true) && calls == []
    {
      users, swipes, nextId, today, online := [], [], 1, day, true;
      calls := [];
    }

    /** The clock moves on: `CURDATE()` is now `day`. */
    method SetToday(day: int)
      requires Valid()
      modifies this`today
      ensures Valid()
      ensures State() == old(State()).(today := day)
    {
      today := day;
    }

    /** The database becomes reachable or unreachable. */
    method SetOnline(up: bool)
      requires Valid()
      modifies this`online
      ensures Valid()
      ensures State() == old(State()).(online := up)
    {
      online := up;
    }

    method Register(req: Model.RegisterReq) returns (rowsAffected: int, err: Option<Error>)
      requires Valid()
      modifies this`users, this`nextId, this`calls
      ensures Valid()
      ensures Step(Reply(rowsAffected, err), State()) == InsertUser(old(State()), req)
      ensures calls == old(calls) + [CallRegister(req)]
    {
      calls := calls + [CallRegister(req)];
      if !online {
        return 0, Some(DbUnavailable);
      }
      users := users + [NewUser(nextId, req)];
      nextId := nextId + 1;
      rowsAffected, err := 1, None;
    }

    method Login(req: Model.LoginReq) returns (data: Option<Model.UserData>, err: Option<Error>)
      modifies this`calls
      ensures Reply(data, err) == SelectLogin(State(), req)
      ensures calls == old(calls) + [CallLogin(req)]
      ensures State() == old(State())
    {
      calls := calls + [CallLogin(req)];
      var r := SelectLogin(State(), req);
      data, err := r.data, r.err;
    }

    method UpgradeAccount(id: int) returns (rowsAffected: int, err: Option<Error>)
      requires Valid()
      modifies this`users, this`calls
      ensures Valid()
      ensures Step(Reply(rowsAffected, err), State()) == UpdateUpgraded(old(State()), id)
      ensures calls == old(calls) + [CallUpgradeAccount(id)]
    {
      calls := calls + [CallUpgradeAccount(id)];
      if !online {
        return 0, Some(DbUnavailable);
      }
      var updated, changed := UpgradeRows(users, id);
      UpgradeKeepsValid(State(), id);
      users := updated;
      rowsAffected, err := changed, None;
    }

    method GetUserUpgradeStatus(id: int) returns (isUpgraded: bool, err: Option<Error>)
      modifies this`calls
      ensures Reply(isUpgraded, err) == SelectUpgradeStatus(State(), id)
      ensures calls == old(calls) + [CallGetUserUpgradeStatus(id)]
      ensures State() == old(State())
    {
      calls := calls + [CallGetUserUpgradeStatus(id)];
      var r := SelectUpgradeStatus(State(), id);
      isUpgraded, err := r.data, r.err;
    }

    method GetUserViewCount(id: int) returns (total: Option<int>, err: Option<Error>)
      modifies this`calls
      ensures Reply(total, err) == SelectViewCount(State(), id)
      ensures calls == old(calls) + [CallGetUserViewCount(id)]
      ensures State() == old(State())
    {
      calls := calls + [CallGetUserViewCount(id)];
      var r := SelectViewCount(State(), id);
      total, err := r.data, r.err;
    }

    method GetTargetUser(id: int) returns (data: Option<Model.TargetUserData>, err: Option<Error>)
      modifies this`calls
      ensures Reply(data, err) == SelectTargetUser(State(), id)
      ensures calls == old(calls) + [CallGetTargetUser(id)]
      ensures State() == old(State())
    {
      calls := calls + [CallGetTargetUser(id)];
      var r := SelectTargetUser(State(), id);
      data, err := r.data, r.err;
    }

    method InsertSwipe(id: int, targetId: int) returns (rowsAffected: int, err: Option<Error>)
      requires Valid()
      modifies this`swipes, this`calls
      ensures Valid()
      ensures Step(Reply(rowsAffected, err), State()) == InsertSwipeRow(old(State()), id, targetId)
      ensures calls == old(calls) + [CallInsertSwipe(id, targetId)]
    {
      calls := calls + [CallInsertSwipe(id, targetId)];
      if !online {
        return 0, Some(DbUnavailable);
      }
      swipes := swipes + [SwipeRow(id, targetId, None, today)];
      rowsAffected, err := 1, None;
    }

    method UpdateSwipe(req: Model.SwipeReq) returns (rowsAffected: int, err: Option<Error>)
      requires Valid()
      modifies this`swipes, this`calls
      ensures Valid()
      ensures Step(Reply(rowsAffected, err), State()) == UpdateSwipeRows(old(State()), req)
      ensures calls == old(calls) + [CallUpdateSwipe(req)]
    {
      calls := calls + [CallUpdateSwipe(req)];
      if !online {
        return 0, Some(DbUnavailable);
      }
      var updated, changed := DecideRows(swipes, req);
      swipes := updated;
      rowsAffected, err := changed, None;
    }
  }

  // ------------------------------------------------------------------ properties

  /** A candidate is never the target of any of the viewer's rows dated today. */
  lemma TargetNotShownToday(t: Tables, id: int)
    ensures SelectTargetUser(t, id).data.Some? ==>
      (forall k :: 0 <= k < |t.swipes| && ShownOn(t.swipes[k], id, t.today) ==>
         t.swipes[k].targetUserId != SelectTargetUser(t, id).data.value.userId)
  {
    var r := SelectTargetUser(t, id);
    if r.data.Some? {
      var c :| 0 <= c < |t.users| && Eligible(t.users[c], ShownToday(t, id), ViewerGender(t, id).value)
               && r.data.value == ToTargetUserData(t.users[c]);
      forall k | 0 <= k < |t.swipes| && ShownOn(t.swipes[k], id, t.today)
        ensures t.swipes[k].targetUserId != r.data.value.userId
      {
        assert t.swipes[k] in t.swipes;
        assert t.swipes[k].targetUserId in ShownToday(t, id);
      }
    }
  }

  /** With unique ids, a candidate differs in gender from the viewer and so is never the viewer. */
  lemma TargetNeverViewer(t: Tables, id: int)
    requires ValidTables(t)
    ensures SelectTargetUser(t, id).data.Some? ==>
      SelectTargetUser(t, id).data.value.userId != id
      && SelectTargetUser(t, id).data.value.gender != ViewerGender(t, id).value
  {
    var r := SelectTargetUser(t, id);
    if r.data.Some? {
      var g := ViewerGender(t, id).value;
      var c :| 0 <= c < |t.users| && Eligible(t.users[c], ShownToday(t, id), g)
               && r.data.value == ToTargetUserData(t.users[c]);
      var v :| 0 <= v < |t.users| && t.users[v].userId == id && t.users[v].gender == g;
      assert t.users[c].gender != t.users[v].gender;
    }
  }

  /** After recording a swipe of `targetId`, that user is not offered again the same day. */
  lemma InsertExcludesTarget(t: Tables, id: int, targetId: int)
    requires t.online
    ensures var t2 := InsertSwipeRow(t, id, targetId).tables;
      SelectTargetUser(t2, id).data.Some? ==> SelectTargetUser(t2, id).data.value.userId != targetId
  {
    var t2 := InsertSwipeRow(t, id, targetId).tables;
    assert t2.swipes[|t.swipes|] == SwipeRow(id, targetId, None, t.today);
    TargetNotShownToday(t2, id);
  }

  /** Appending one row raises the viewer's count by one and leaves every other count alone. */
  lemma CountShownAppend(rows: seq<SwipeRow>, r: SwipeRow, id: int, day: int)
    ensures CountShown(rows + [r], id, day) == CountShown(rows, id, day) + (if ShownOn(r, id, day) then 1 else 0)
  {
    assert (rows + [r])[..|rows|] == rows;
  }

  /** A recorded swipe counts once towards the viewer's quota, and towards no one else's. */
  lemma InsertCountsOnce(t: Tables, id: int, targetId: int, viewer: int)
    requires t.online
    ensures SelectViewCount(InsertSwipeRow(t, id, targetId).tables, viewer).data
         == Some(CountShown(t.swipes, viewer, t.today) + (if viewer == id then 1 else 0))
  {
    CountShownAppend(t.swipes, SwipeRow(id, targetId, None, t.today), viewer, t.today);
  }

  lemma {:induction false} CountShownDecideAll(rows: seq<SwipeRow>, req: Model.SwipeReq, id: int, day: int)
    ensures CountShown(DecideAll(rows, req), id, day) == CountShown(rows, id, day)
    decreases |rows|
  {
    if rows != [] {
      var n := |rows| - 1;
      assert DecideAll(rows, req)[..n] == DecideAll(rows[..n], req);
      CountShownDecideAll(rows[..n], req, id, day);
    }
  }

  /** Deciding a swipe does not change anyone's view count: pending and decided rows both count. */
  lemma DecisionKeepsViewCount(t: Tables, req: Model.SwipeReq, viewer: int)
    ensures SelectViewCount(UpdateSwipeRows(t, req).tables, viewer) == SelectViewCount(t, viewer)
  {
    CountShownDecideAll(t.swipes, req, viewer, t.today);
  }

  /**
   * `updateSwipeLog` touches only the swipe table: every row of the pair carries the new
   * action, whatever its day or earlier action, and every other row is as it was.
   */
  lemma UpdateSwipeEffect(t: Tables, req: Model.SwipeReq)
    requires t.online
    ensures var t2 := UpdateSwipeRows(t, req).tables;
      t2.users == t.users && t2.nextId == t.nextId && t2.today == t.today && |t2.swipes| == |t.swipes|
      && (forall k :: 0 <= k < |t.swipes| && Decides(t.swipes[k], req) ==>
            t2.swipes[k] == t.swipes[k].(swipeAction := Some(req.action)))
      && (forall k :: 0 <= k < |t.swipes| && !Decides(t.swipes[k], req) ==> t2.swipes[k] == t.swipes[k])
  {
  }

  lemma {:induction false} CountDecidableZero(rows: seq<SwipeRow>, req: Model.SwipeReq)
    requires forall k :: 0 <= k < |rows| && Decides(rows[k], req) ==> rows[k].swipeAction == Some(req.action)
    ensures CountDecidable(rows, req) == 0
    decreases |rows|
  {
    if rows != [] {
      CountDecidableZero(rows[..|rows| - 1], req);
    }
  }

  lemma {:induction false} CountDecidablePositive(rows: seq<SwipeRow>, req: Model.SwipeReq, k: nat)
    requires k < |rows| && Decides(rows[k], req) && rows[k].swipeAction != Some(req.action)
    ensures CountDecidable(rows, req) >= 1
    decreases |rows|
  {
    if k < |rows| - 1 {
      CountDecidablePositive(rows[..|rows| - 1], req, k);
    }
  }

  /** With no row for the pair, the decision changes nothing and reports zero rows. */
  lemma DecisionWithoutRow(t: Tables, req: Model.SwipeReq)
    requires t.online
    requires forall k :: 0 <= k < |t.swipes| ==> !Decides(t.swipes[k], req)
    ensures UpdateSwipeRows(t, req) == Step(Reply(0, None), t)
  {
    CountDecidableZero(t.swipes, req);
    assert DecideAll(t.swipes, req) == t.swipes;
  }

  /** Repeating the same decision changes nothing and reports zero rows. */
  lemma RepeatedDecision(t: Tables, req: Model.SwipeReq)
    requires t.online
    ensures var t2 := UpdateSwipeRows(t, req).tables;
      UpdateSwipeRows(t2, req) == Step(Reply(0, None), t2)
  {
    var t2 := UpdateSwipeRows(t, req).tables;
    CountDecidableZero(t2.swipes, req);
    assert DecideAll(t2.swipes, req) == t2.swipes;
  }

  /** A different decision on a recorded pair overwrites it and reports at least one row. */
  lemma DecisionOverwrites(t: Tables, req: Model.SwipeReq, k: nat)
    requires t.online
    requires k < |t.swipes| && Decides(t.swipes[k], req) && t.swipes[k].swipeAction != Some(req.action)
    ensures UpdateSwipeRows(t, req).reply.data >= 1
    ensures UpdateSwipeRows(t, req).tables.swipes[k].swipeAction == Some(req.action)
  {
    CountDecidablePositive(t.swipes, req, k);
  }

  lemma {:induction false} CountUpgradableZero(users: seq<User>, id: int)
    requires forall k :: 0 <= k < |users| && users[k].userId == id ==> users[k].isUpgraded
    ensures CountUpgradable(users, id) == 0
    decreases |users|
  {
    if users != [] {
      CountUpgradableZero(users[..|users| - 1], id);
    }
  }

  lemma {:induction false} CountUpgradableUnique(users: seq<User>, id: int, k: nat)
    requires k < |users| && users[k].userId == id
    requires forall j :: 0 <= j < |users| && j != k ==> users[j].userId != id
    ensures CountUpgradable(users, id) == if users[k].isUpgraded then 0 else 1
    decreases |users|
  {
    var n := |users| - 1;
    if k == n {
      CountUpgradableZero(users[..n], id);
    } else {
      CountUpgradableUnique(users[..n], id, k);
    }
  }

  /** Upgrading a known user who is not yet upgraded reports exactly one changed row. */
  lemma UpgradeCountsOnce(t: Tables, id: int, k: nat)
    requires ValidTables(t) && t.online
    requires k < |t.users| && t.users[k].userId == id && !t.users[k].isUpgraded
    ensures UpdateUpgraded(t, id).reply == Reply(1, None)
  {
    forall j | 0 <= j < |t.users| && j != k
      ensures t.users[j].userId != id
    {
      if j < k {
        assert t.users[j].userId < t.users[k].userId;
      } else {
        assert t.users[k].userId < t.users[j].userId;
      }
    }
    CountUpgradableUnique(t.users, id, k);
  }

  /**
   * After an upgrade the user reads as upgraded and no other row changed; a second upgrade
   * of the same user changes nothing and reports zero rows.
   */
  lemma UpgradeEffect(t: Tables, id: int)
    requires t.online
    ensures var t2 := UpdateUpgraded(t, id).tables;
      t2.swipes == t.swipes && |t2.users| == |t.users|
      && (forall k :: 0 <= k < |t.users| && t.users[k].userId != id ==> t2.users[k] == t.users[k])
      && (forall k :: 0 <= k < |t.users| && t.users[k].userId == id ==> t2.users[k] == t.users[k].(isUpgraded := true))
      && ((exists k :: 0 <= k < |t.users| && t.users[k].userId == id) ==> SelectUpgradeStatus(t2, id) == Reply(true, None))
      && UpdateUpgraded(t2, id) == Step(Reply(0, None), t2)
  {
    var t2 := UpdateUpgraded(t, id).tables;
    CountUpgradableZero(t2.users, id);
    assert UpgradeAll(t2.users, id) == t2.users;
  }

  /**
   * Registration appends one user with a fresh id and `is_upgraded` false, keeps the ids
   * unique, and the new credentials then log in: as that user when no earlier row has them.
   */
  lemma RegisterEffect(t: Tables, req: Model.RegisterReq)
    requires ValidTables(t) && t.online
    ensures var t2 := InsertUser(t, req).tables;
      ValidTables(t2) && t2.users == t.users + [NewUser(t.nextId, req)] && t2.swipes == t.swipes
      && !NewUser(t.nextId, req).isUpgraded
      && (forall k :: 0 <= k < |t.users| ==> t.users[k].userId != t.nextId)
      && SelectLogin(t2, Model.LoginReq(req.username, req.password)).data.Some?
  {
    var t2 := InsertUser(t, req).tables;
    var login := Model.LoginReq(req.username, req.password);
    assert Matches(t2.users[|t.users|], login);
  }

  /** The registered user is the one who logs in when the credentials were not used before. */
  lemma RegisterThenLogin(t: Tables, req: Model.RegisterReq)
    requires t.online
    requires forall k :: 0 <= k < |t.users| ==> !Matches(t.users[k], Model.LoginReq(req.username, req.password))
    ensures SelectLogin(InsertUser(t, req).tables, Model.LoginReq(req.username, req.password))
         == Reply(Some(ToUserData(NewUser(t.nextId, req))), None)
  {
    var t2 := InsertUser(t, req).tables;
    var login := Model.LoginReq(req.username, req.password);
    assert Matches(t2.users[|t.users|], login);
    var i := FirstWhere(t2.users, (u: User) => Matches(u, login));
    assert i == Some(|t.users|);
  }
}
