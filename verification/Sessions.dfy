/**
 * Refresh-token families: login, rotation, replay detection, logout, workspace switch, password change.
 *
 * The table only grows, and a session's id is its place in it, so later rows are newer. A token is known
 * to the table by its digest; digests and family ids drawn for a new row are fresh. Requests are served
 * one at a time. `Serve` is what a request leaves committed; the class `RequestSession` is the
 * transaction the service works in, with the commit it makes before raising.
 */
module Sessions {
  import opened Prelude

  type UserId = nat
  type SessionId = nat
  type FamilyId = nat
  type Digest = nat
  type TenantId = nat

  datatype Reason = Rotated | LoggedOut | ReuseDetected | PasswordChanged | RevokedByUser

  datatype Row = Row(
    user: UserId,
    family: FamilyId,
    digest: Digest,
    tenant: Option<TenantId>,
    revoked: bool,
    reason: Option<Reason>,
    revokedAt: Option<real>,
    expiresAt: real)

  datatype User = User(active: bool, password: nat)

  /** `members` are the active memberships; `open` the active workspaces. */
  datatype Db = Db(
    users: map<UserId, User>,
    members: set<(UserId, TenantId)>,
    open: set<TenantId>,
    rows: seq<Row>)

  datatype Failure =
    | InvalidCredentials | InactiveUser | TenantAccess | UnknownToken | TokenRevoked | TokenExpired
    | SessionInvalid | TargetRequired | WeakPassword | PasswordUnchanged

  datatype Outcome = Issued(session: SessionId) | Revoked(count: nat) | Switched | Done | Failed(failure: Failure)

  // ---------------------------------------------------------------- the sessions table

  function RevokeRow(r: Row, reason: Reason, now: real): Row {
    r.(revoked := true, reason := Some(reason), revokedAt := Some(now))
  }

  predicate LiveIn(r: Row, f: FamilyId) {
    r.family == f && !r.revoked
  }

  predicate LiveOf(r: Row, u: UserId) {
    r.user == u && !r.revoked
  }

  function KillFamily(rows: seq<Row>, f: FamilyId, reason: Reason, now: real): seq<Row> {
    seq(|rows|, i requires 0 <= i < |rows| => if LiveIn(rows[i], f) then RevokeRow(rows[i], reason, now) else rows[i])
  }

  function KillUser(rows: seq<Row>, u: UserId, reason: Reason, now: real): seq<Row> {
    seq(|rows|, i requires 0 <= i < |rows| => if LiveOf(rows[i], u) then RevokeRow(rows[i], reason, now) else rows[i])
  }

  function CountFamily(rows: seq<Row>, f: FamilyId): nat {
    |set i | 0 <= i < |rows| && LiveIn(rows[i], f)|
  }

  function CountUser(rows: seq<Row>, u: UserId): nat {
    |set i | 0 <= i < |rows| && LiveOf(rows[i], u)|
  }

  /** The row with this digest, if there is one. */
  function Find(rows: seq<Row>, d: Digest): (r: Option<SessionId>)
    ensures r.Some? ==> r.value < |rows| && rows[r.value].digest == d
    ensures r.None? ==> forall i :: 0 <= i < |rows| ==> rows[i].digest != d
  {
    if rows == [] then None
    else if rows[|rows| - 1].digest == d then Some(|rows| - 1)
    else Find(rows[..|rows| - 1], d)
  }

  predicate Owns(rows: seq<Row>, s: SessionId, u: UserId) {
    s < |rows| && rows[s].user == u
  }

  // ---------------------------------------------------------------- what each service call does

  function Opened(u: UserId, f: FamilyId, d: Digest, tenant: Option<TenantId>, expiresAt: real): Row {
    Row(u, f, d, tenant, false, None, None, expiresAt)
  }

  predicate MayEnter(db: Db, u: UserId, t: TenantId) {
    (u, t) in db.members && t in db.open
  }

  function Workspaces(db: Db, u: UserId): set<TenantId> {
    set m | m in db.members && m.0 == u :: m.1
  }

  /** The workspace of a session opened without naming one: the user's only one, if it is active. */
  function DefaultTenant(db: Db, u: UserId): Option<TenantId> {
    var mine := Workspaces(db, u);
    if exists t :: t in mine && mine == {t} then
      var t :| t in mine && mine == {t};
      if t in db.open then Some(t) else None
    else None
  }

  function Login(db: Db, u: UserId, password: nat, requested: Option<TenantId>, f: FamilyId, d: Digest, expiresAt: real): (Db, Outcome) {
    if u !in db.users || db.users[u].password != password then (db, Failed(InvalidCredentials))
    else if !db.users[u].active then (db, Failed(InactiveUser))
    else if requested.Some? && !MayEnter(db, u, requested.value) then (db, Failed(TenantAccess))
    else
      var tenant := if requested.Some? then requested else DefaultTenant(db, u);
      (db.(rows := db.rows + [Opened(u, f, d, tenant, expiresAt)]), Issued(|db.rows|))
  }

  /** The remembered workspace, dropped once the membership behind it is gone. */
  function Remembered(db: Db, r: Row): Option<TenantId> {
    if r.tenant.Some? && (r.user, r.tenant.value) in db.members then r.tenant else None
  }

  function Refresh(db: Db, presented: Digest, d: Digest, expiresAt: real, now: real): (Db, Outcome) {
    match Find(db.rows, presented)
    case None => (db, Failed(UnknownToken))
    case Some(i) =>
      var r := db.rows[i];
      if r.revoked then (db.(rows := KillFamily(db.rows, r.family, ReuseDetected, now)), Failed(TokenRevoked))
      else if r.expiresAt <= now then (db, Failed(TokenExpired))
      else if r.user !in db.users || !db.users[r.user].active then
        (db.(rows := KillFamily(db.rows, r.family, LoggedOut, now)), Failed(InactiveUser))
      else
        (db.(rows := db.rows[i := RevokeRow(r, Rotated, now)] + [Opened(r.user, r.family, d, Remembered(db, r), expiresAt)]),
         Issued(|db.rows|))
  }

  function Logout(db: Db, u: UserId, session: Option<SessionId>, token: Option<Digest>, all: bool, now: real): (Db, Outcome) {
    if all then (db.(rows := KillUser(db.rows, u, LoggedOut, now)), Revoked(CountUser(db.rows, u)))
    else if token.Some? then
      var found := Find(db.rows, token.value);
      if found.None? || db.rows[found.value].user != u then (db, Revoked(0))
      else
        var f := db.rows[found.value].family;
        (db.(rows := KillFamily(db.rows, f, LoggedOut, now)), Revoked(CountFamily(db.rows, f)))
    else if session.Some? then RevokeSession(db, u, session.value, LoggedOut, now)
    else (db, Failed(TargetRequired))
  }

  function RevokeSession(db: Db, u: UserId, target: SessionId, reason: Reason, now: real): (Db, Outcome) {
    if !Owns(db.rows, target, u) then (db, Revoked(0))
    else
      var f := db.rows[target].family;
      (db.(rows := KillFamily(db.rows, f, reason, now)), Revoked(CountFamily(db.rows, f)))
  }

  function SelectTenant(db: Db, u: UserId, session: SessionId, t: TenantId): (Db, Outcome) {
    if !MayEnter(db, u, t) then (db, Failed(TenantAccess))
    else if !Owns(db.rows, session, u) || db.rows[session].revoked then (db, Failed(SessionInvalid))
    else (db.(rows := db.rows[session := db.rows[session].(tenant := Some(t))]), Switched)
  }

  /** All of the user's rows are revoked, then the calling session's row is put back. */
  function SignOutOthers(rows: seq<Row>, u: UserId, current: Option<SessionId>, now: real): seq<Row> {
    var killed := KillUser(rows, u, PasswordChanged, now);
    if current.Some? && Owns(killed, current.value, u) then
      killed[current.value := killed[current.value].(revoked := false, reason := None, revokedAt := None)]
    else killed
  }

  function ChangePassword(db: Db, u: UserId, oldPassword: nat, newPassword: nat, strong: bool, others: bool, current: Option<SessionId>, now: real): (Db, Outcome) {
    if u !in db.users || db.users[u].password != oldPassword then (db, Failed(InvalidCredentials))
    else if !strong then (db, Failed(WeakPassword))
    else if newPassword == oldPassword then (db, Failed(PasswordUnchanged))
    else
      var users := db.users[u := db.users[u].(password := newPassword)];
      if !others then (db.(users := users), Revoked(0))
      else
        var count := CountUser(db.rows, u);
        var spared := current.Some? && Owns(db.rows, current.value, u);
        (db.(users := users, rows := SignOutOthers(db.rows, u, current, now)),
         Revoked(if spared then (if count >= 1 then count - 1 else 0) else count))
  }

  // ---------------------------------------------------------------- requests

  /** What an access token claims. Signature and lifetime are checked before a request reaches us. */
  datatype Claims = Claims(user: UserId, session: SessionId)

  datatype Request =
    | LoginReq(user: UserId, password: nat, requested: Option<TenantId>, family: FamilyId, digest: Digest)
    | RefreshReq(presented: Digest, digest: Digest)
    | LogoutReq(claims: Claims, token: Option<Digest>, all: bool)
    | RevokeReq(claims: Claims, target: SessionId)
    | SelectReq(claims: Claims, tenant: TenantId)
    | PasswordReq(claims: Claims, oldPassword: nat, newPassword: nat, strong: bool, others: bool)
    | Environment(users: map<UserId, User>, members: set<(UserId, TenantId)>, open: set<TenantId>)

  /** A request, when it is served, and when a session it opens would expire. */
  datatype Timed = Timed(req: Request, now: real, expiresAt: real)

  /** The bearer of an access token: its session must be live and its user active. */
  function Principal(db: Db, c: Claims): Option<Failure> {
    if !Owns(db.rows, c.session, c.user) || db.rows[c.session].revoked then Some(SessionInvalid)
    else if c.user !in db.users then Some(SessionInvalid)
    else if !db.users[c.user].active then Some(InactiveUser)
    else None
  }

  /** The committed database and the answer after one request. */
  function Serve(db: Db, t: Timed): (Db, Outcome) {
    var r := t.req;
    if (r.LogoutReq? || r.RevokeReq? || r.SelectReq? || r.PasswordReq?) && Principal(db, r.claims).Some? then
      (db, Failed(Principal(db, r.claims).value))
    else
      match r
      case LoginReq(u, password, requested, f, d) => Login(db, u, password, requested, f, d, t.expiresAt)
      case RefreshReq(presented, d) => Refresh(db, presented, d, t.expiresAt, t.now)
      case LogoutReq(c, token, all) => Logout(db, c.user, Some(c.session), token, all, t.now)
      case RevokeReq(c, target) => RevokeSession(db, c.user, target, RevokedByUser, t.now)
      case SelectReq(c, tenant) => SelectTenant(db, c.user, c.session, tenant)
      case PasswordReq(c, oldPassword, newPassword, strong, others) =>
        ChangePassword(db, c.user, oldPassword, newPassword, strong, others, Some(c.session), t.now)
      case Environment(users, members, open) => (db.(users := users, members := members, open := open), Done)
  }

  /** New digests and families are drawn at random: nothing in the table has them yet. */
  ghost predicate Fresh(db: Db, t: Timed) {
    (t.req.LoginReq? ==>
       forall i :: 0 <= i < |db.rows| ==> db.rows[i].family != t.req.family && db.rows[i].digest != t.req.digest)
    && (t.req.RefreshReq? ==> forall i :: 0 <= i < |db.rows| ==> db.rows[i].digest != t.req.digest)
  }

  function Run(init: Db, ts: seq<Timed>): Db {
    if ts == [] then init else Serve(Run(init, ts[..|ts| - 1]), ts[|ts| - 1]).0
  }

  function Answer(init: Db, ts: seq<Timed>, i: nat): Outcome
    requires i < |ts|
  {
    Serve(Run(init, ts[..i]), ts[i]).1
  }

  ghost predicate Legal(init: Db, ts: seq<Timed>) {
    Inv(init.rows) && forall i :: 0 <= i < |ts| ==> Fresh(Run(init, ts[..i]), ts[i])
  }

  // ---------------------------------------------------------------- the invariant

  /** Every row but the newest of its family is revoked, and a family belongs to one user. */
  ghost predicate OnlyNewestLive(rows: seq<Row>) {
    forall i, j :: 0 <= i < j < |rows| && rows[i].family == rows[j].family ==> rows[i].revoked && rows[i].user == rows[j].user
  }

  ghost predicate DigestsDiffer(rows: seq<Row>) {
    forall i, j :: 0 <= i < j < |rows| ==> rows[i].digest != rows[j].digest
  }

  ghost predicate ReasonsMatch(rows: seq<Row>) {
    forall i :: 0 <= i < |rows| ==> (rows[i].revoked <==> rows[i].reason.Some?) && (rows[i].revoked <==> rows[i].revokedAt.Some?)
  }

  ghost predicate Inv(rows: seq<Row>) {
    OnlyNewestLive(rows) && DigestsDiffer(rows) && ReasonsMatch(rows)
  }

  /** Rows are never dropped, reassigned or prolonged, and a revoked row stays revoked. */
  ghost predicate Extends(old_: seq<Row>, rows: seq<Row>) {
    |old_| <= |rows|
    && forall i :: 0 <= i < |old_| ==>
         rows[i].user == old_[i].user && rows[i].family == old_[i].family && rows[i].digest == old_[i].digest
         && rows[i].expiresAt == old_[i].expiresAt
         && (old_[i].revoked ==> rows[i].revoked)
  }

  /** A row added to an existing family continues one that was alive. */
  ghost predicate GrowsLiveOnly(old_: seq<Row>, rows: seq<Row>) {
    forall j :: |old_| <= j < |rows| ==>
      (forall i :: 0 <= i < |old_| ==> rows[i].family != rows[j].family)
      || (exists i :: 0 <= i < |old_| && old_[i].family == rows[j].family && !old_[i].revoked)
  }

  ghost predicate Good(old_: seq<Row>, rows: seq<Row>) {
    Inv(rows) && Extends(old_, rows) && |rows| <= |old_| + 1 && GrowsLiveOnly(old_, rows)
  }

  lemma KillKeeps(rows: seq<Row>, killed: seq<Row>)
    requires Inv(rows) && |killed| == |rows|
    requires forall i :: 0 <= i < |rows| ==>
      killed[i] == rows[i] || exists reason, now :: killed[i] == RevokeRow(rows[i], reason, now)
    ensures Good(rows, killed)
  {
  }

  lemma LoginKeeps(db: Db, t: Timed)
    requires Inv(db.rows) && t.req.LoginReq? && Fresh(db, t)
    ensures Good(db.rows, Serve(db, t).0.rows)
  {
  }

  /** The one live row of its family is its newest: nothing of that family comes after it. */
  lemma LiveIsNewest(rows: seq<Row>, i: nat, j: nat)
    requires OnlyNewestLive(rows) && i < |rows| && j < |rows|
    requires !rows[i].revoked && rows[i].family == rows[j].family
    ensures j <= i && (rows[j].revoked || j == i)
  {
  }

  lemma RotationKeeps(rows: seq<Row>, i: nat, d: Digest, tenant: Option<TenantId>, expiresAt: real, now: real)
    requires Inv(rows) && i < |rows| && !rows[i].revoked
    requires forall k :: 0 <= k < |rows| ==> rows[k].digest != d
    ensures
      var r := rows[i];
      Good(rows, rows[i := RevokeRow(r, Rotated, now)] + [Opened(r.user, r.family, d, tenant, expiresAt)])
  {
    var r := rows[i];
    var rows' := rows[i := RevokeRow(r, Rotated, now)] + [Opened(r.user, r.family, d, tenant, expiresAt)];
    forall a, b | 0 <= a < b < |rows'| && rows'[a].family == rows'[b].family
      ensures rows'[a].revoked && rows'[a].user == rows'[b].user
    {
      if b == |rows| {
        LiveIsNewest(rows, i, a);
      }
    }
  }

  lemma PasswordKeeps(rows: seq<Row>, u: UserId, current: SessionId, now: real)
    requires Inv(rows) && Owns(rows, current, u) && !rows[current].revoked
    ensures Good(rows, SignOutOthers(rows, u, Some(current), now))
  {
    assert ReasonsMatch(rows);
    assert SignOutOthers(rows, u, Some(current), now)[current] == rows[current];
    KillKeeps(rows, SignOutOthers(rows, u, Some(current), now));
  }

  lemma SelectKeeps(rows: seq<Row>, s: SessionId, tenant: TenantId)
    requires Inv(rows) && s < |rows|
    ensures Good(rows, rows[s := rows[s].(tenant := Some(tenant))])
  {
  }

  lemma UnchangedKeeps(rows: seq<Row>)
    requires Inv(rows)
    ensures Good(rows, rows)
  {
  }

  lemma UserKeeps(rows: seq<Row>, u: UserId, now: real)
    requires Inv(rows)
    ensures Good(rows, KillUser(rows, u, LoggedOut, now))
  {
    KillKeeps(rows, KillUser(rows, u, LoggedOut, now));
  }

  lemma FamiliesKeep(rows: seq<Row>, reason: Reason, now: real)
    requires Inv(rows)
    ensures forall f :: Good(rows, KillFamily(rows, f, reason, now))
  {
    forall f
      ensures Good(rows, KillFamily(rows, f, reason, now))
    {
      KillKeeps(rows, KillFamily(rows, f, reason, now));
    }
  }

  lemma ServeKeeps(db: Db, t: Timed)
    requires Inv(db.rows) && Fresh(db, t)
    ensures Good(db.rows, Serve(db, t).0.rows)
  {
    hide Inv, Good, CountUser, CountFamily, DefaultTenant, SignOutOthers, KillFamily, KillUser;
    UnchangedKeeps(db.rows);
    match t.req {
      case LoginReq(u, password, requested, f, d) => LoginKeeps(db, t);
      case RefreshReq(presented, d) =>
        match Find(db.rows, presented) {
          case None =>
          case Some(i) =>
            FamiliesKeep(db.rows, ReuseDetected, t.now);
            FamiliesKeep(db.rows, LoggedOut, t.now);
            if !db.rows[i].revoked {
              RotationKeeps(db.rows, i, d, Remembered(db, db.rows[i]), t.expiresAt, t.now);
            }
        }
      case LogoutReq(c, token, all) =>
        UserKeeps(db.rows, c.user, t.now);
        FamiliesKeep(db.rows, LoggedOut, t.now);
      case RevokeReq(c, target) =>
        FamiliesKeep(db.rows, RevokedByUser, t.now);
      case SelectReq(c, tenant) =>
        if c.session < |db.rows| {
          SelectKeeps(db.rows, c.session, tenant);
        }
      case PasswordReq(c, oldPassword, newPassword, strong, others) =>
        if Principal(db, c).None? {
          PasswordKeeps(db.rows, c.user, c.session, t.now);
        }
      case Environment(users, members, open) =>
    }
  }


  // ---------------------------------------------------------------- whole runs

  lemma RunStep(init: Db, ts: seq<Timed>, i: nat)
    requires i < |ts|
    ensures Run(init, ts[..i + 1]) == Serve(Run(init, ts[..i]), ts[i]).0
  {
    assert ts[..i + 1][..i] == ts[..i];
  }

  lemma {:induction false} InvRun(init: Db, ts: seq<Timed>, i: nat)
    requires Legal(init, ts) && i <= |ts|
    ensures Inv(Run(init, ts[..i]).rows)
    ensures i < |ts| ==> Good(Run(init, ts[..i]).rows, Run(init, ts[..i + 1]).rows)
  {
    hide Inv, Good, Serve, Fresh;
    if i > 0 {
      InvRun(init, ts, i - 1);
      RunStep(init, ts, i - 1);
      ServeKeeps(Run(init, ts[..i - 1]), ts[i - 1]);
      GoodGivesInv(Run(init, ts[..i - 1]).rows, Run(init, ts[..i]).rows);
    }
    if i < |ts| {
      RunStep(init, ts, i);
      ServeKeeps(Run(init, ts[..i]), ts[i]);
    }
  }

  lemma GoodGivesInv(old_: seq<Row>, rows: seq<Row>)
    requires Good(old_, rows)
    ensures Inv(rows)
  {
  }

  /** At every moment each family has at most one live row, and it is the family's newest. */
  lemma OneLiveRowPerFamily(init: Db, ts: seq<Timed>, n: nat, i: SessionId, j: SessionId)
    requires Legal(init, ts) && n <= |ts|
    requires i < |Run(init, ts[..n]).rows| && j < |Run(init, ts[..n]).rows|
    requires !Run(init, ts[..n]).rows[i].revoked && Run(init, ts[..n]).rows[i].family == Run(init, ts[..n]).rows[j].family
    ensures j <= i && (j < i ==> Run(init, ts[..n]).rows[j].revoked)
  {
    InvRun(init, ts, n);
    LiveIsNewest(Run(init, ts[..n]).rows, i, j);
  }

  lemma {:induction false} Later(init: Db, ts: seq<Timed>, i: nat, j: nat)
    requires Legal(init, ts) && i <= j <= |ts|
    ensures Extends(Run(init, ts[..i]).rows, Run(init, ts[..j]).rows)
    decreases j
  {
    hide Run, Legal;
    if i < j {
      Later(init, ts, i, j - 1);
      InvRun(init, ts, j - 1);
    }
  }

  lemma FindIs(rows: seq<Row>, i: SessionId)
    requires DigestsDiffer(rows) && i < |rows|
    ensures Find(rows, rows[i].digest) == Some(i)
  {
    hide Find;
  }

  lemma RefreshIssues(db: Db, t: Timed)
    requires t.req.RefreshReq? && Serve(db, t).1.Issued?
    ensures
      var i := Find(db.rows, t.req.presented);
      i.Some? && !db.rows[i.value].revoked && Serve(db, t).0.rows[i.value].revoked
  {
  }

  lemma RefreshRefuses(db: Db, t: Timed)
    requires t.req.RefreshReq? && Find(db.rows, t.req.presented).Some?
    requires db.rows[Find(db.rows, t.req.presented).value].revoked
    ensures Serve(db, t).1 == Failed(TokenRevoked)
    ensures
      var f := db.rows[Find(db.rows, t.req.presented).value].family;
      Serve(db, t).0.rows == KillFamily(db.rows, f, ReuseDetected, t.now)
  {
  }

  /** A refresh token is rotated successfully at most once: presented again, it is recognised as a replay. */
  lemma RotatedOnce(init: Db, ts: seq<Timed>, i: nat, j: nat)
    requires Legal(init, ts) && i < j < |ts|
    requires ts[i].req.RefreshReq? && ts[j].req.RefreshReq? && ts[i].req.presented == ts[j].req.presented
    requires Answer(init, ts, i).Issued?
    ensures Answer(init, ts, j) == Failed(TokenRevoked)
  {
    hide Serve, Find, Run;
    var before, after, later := Run(init, ts[..i]), Run(init, ts[..i + 1]), Run(init, ts[..j]);
    RefreshIssues(before, ts[i]);
    RunStep(init, ts, i);
    InvRun(init, ts, i);
    InvRun(init, ts, j);
    Later(init, ts, i + 1, j);
    var k := Find(before.rows, ts[i].req.presented).value;
    assert after.rows[k].revoked && later.rows[k].digest == ts[j].req.presented;
    FindIs(later.rows, k);
    RefreshRefuses(later, ts[j]);
  }

  ghost predicate Dead(rows: seq<Row>, f: FamilyId) {
    (exists i :: 0 <= i < |rows| && rows[i].family == f)
    && forall i :: 0 <= i < |rows| && rows[i].family == f ==> rows[i].revoked
  }

  lemma DeadStep(old_: seq<Row>, rows: seq<Row>, f: FamilyId)
    requires Good(old_, rows) && Dead(old_, f)
    ensures Dead(rows, f)
  {
    var i :| 0 <= i < |old_| && old_[i].family == f;
    assert rows[i].family == f;
    assert forall j :: |old_| <= j < |rows| ==> rows[j].family != old_[i].family;
  }

  /** Once a family has no live row, it never has one again. */
  lemma {:induction false} DeadStaysDead(init: Db, ts: seq<Timed>, i: nat, j: nat, f: FamilyId)
    requires Legal(init, ts) && i <= j <= |ts|
    requires Dead(Run(init, ts[..i]).rows, f)
    ensures Dead(Run(init, ts[..j]).rows, f)
    decreases j
  {
    hide Good, Dead, Run, Legal;
    if i < j {
      DeadStaysDead(init, ts, i, j - 1, f);
      InvRun(init, ts, j - 1);
      DeadStep(Run(init, ts[..j - 1]).rows, Run(init, ts[..j]).rows, f);
    }
  }

  lemma KilledIsDead(rows: seq<Row>, i: SessionId, reason: Reason, now: real)
    requires i < |rows|
    ensures Dead(KillFamily(rows, rows[i].family, reason, now), rows[i].family)
  {
    assert KillFamily(rows, rows[i].family, reason, now)[i].family == rows[i].family;
  }

  /**
   * Replaying a token that was already used kills its whole family for good, although that very request
   * fails and its own transaction is rolled back.
   */
  lemma ReplayKillsForGood(init: Db, ts: seq<Timed>, i: nat, j: nat)
    requires Legal(init, ts) && i < j <= |ts| && ts[i].req.RefreshReq?
    requires
      var k := Find(Run(init, ts[..i]).rows, ts[i].req.presented);
      k.Some? && Run(init, ts[..i]).rows[k.value].revoked
    ensures
      var k := Find(Run(init, ts[..i]).rows, ts[i].req.presented).value;
      Answer(init, ts, i) == Failed(TokenRevoked)
      && Dead(Run(init, ts[..j]).rows, Run(init, ts[..i]).rows[k].family)
  {
    hide Serve, Find, Run, Dead, KillFamily;
    var db := Run(init, ts[..i]);
    var k := Find(db.rows, ts[i].req.presented).value;
    RefreshRefuses(db, ts[i]);
    RunStep(init, ts, i);
    KilledIsDead(db.rows, k, ReuseDetected, ts[i].now);
    DeadStaysDead(init, ts, i + 1, j, db.rows[k].family);
  }

  /**
   * A successful login or refresh leaves exactly one live row in the family of the session it issues,
   * namely that session, scoped to a workspace only if its user is an active member of it.
   */
  lemma IssuedSessionIsTheLiveOne(init: Db, ts: seq<Timed>, i: nat, j: SessionId)
    requires Legal(init, ts) && i < |ts| && Answer(init, ts, i).Issued?
    ensures
      var s, rows := Answer(init, ts, i).session, Run(init, ts[..i + 1]).rows;
      s < |rows| && !rows[s].revoked
      && (rows[s].tenant.Some? ==> (rows[s].user, rows[s].tenant.value) in Run(init, ts[..i]).members)
      && (j < |rows| && rows[j].family == rows[s].family && !rows[j].revoked ==> j == s)
  {
    RunStep(init, ts, i);
    InvRun(init, ts, i);
    IssueScoped(Run(init, ts[..i]), ts[i]);
    hide Serve, Run;
    var rows := Run(init, ts[..i + 1]).rows;
    assert Inv(rows);
    var s := Answer(init, ts, i).session;
    if j < |rows| && rows[j].family == rows[s].family && !rows[j].revoked {
      LiveIsNewest(rows, j, s);
    }
  }

  lemma IssueScoped(db: Db, t: Timed)
    requires Serve(db, t).1.Issued?
    ensures
      var (db', o) := Serve(db, t);
      o.session == |db.rows| && |db'.rows| == |db.rows| + 1 && !db'.rows[o.session].revoked
      && (db'.rows[o.session].tenant.Some? ==> (db'.rows[o.session].user, db'.rows[o.session].tenant.value) in db.members)
  {
    if t.req.LoginReq? {
      DefaultIsMember(db, t.req.user);
      hide DefaultTenant;
    }
  }

  lemma DefaultIsMember(db: Db, u: UserId)
    ensures DefaultTenant(db, u).Some? ==> (u, DefaultTenant(db, u).value) in db.members
  {
    var mine := Workspaces(db, u);
    assert forall t :: t in mine ==> (u, t) in db.members;
  }

  /**
   * Signing out the other sessions brings no revoked session back exactly when the session put back was
   * live, which is what the access-token check establishes before the service is called.
   */
  lemma SignOutRevivesNothingExactlyWhen(rows: seq<Row>, u: UserId, current: SessionId, now: real)
    requires Owns(rows, current, u)
    ensures Extends(rows, SignOutOthers(rows, u, Some(current), now)) <==> !rows[current].revoked
  {
  }

  // ---------------------------------------------------------------- the service and its transaction

  /**
   * One request's database session: `working` is what the request sees, `committed` what others see.
   * Leaving normally commits; an error rolls back, so only what was committed explicitly survives it.
   */
  class RequestSession {
    var committed: Db
    var working: Db

    constructor (db: Db)
      ensures committed == db && working == db
    {
      committed, working := db, db;
    }

    method Commit()
      modifies this`committed
      ensures committed == working
    {
      committed := working;
    }

    method Rollback()
      modifies this`working
      ensures working == committed
    {
      working := committed;
    }

    // ---- repository

    method GetByTokenHash(d: Digest) returns (r: Option<SessionId>)
      ensures r == Find(working.rows, d)
    {
      var i := |working.rows|;
      assert working.rows[..i] == working.rows;
      while i > 0
        invariant 0 <= i <= |working.rows|
        invariant Find(working.rows, d) == Find(working.rows[..i], d)
      {
        assert working.rows[..i][..i - 1] == working.rows[..i - 1];
        i := i - 1;
        if working.rows[i].digest == d {
          return Some(i);
        }
      }
      return None;
    }

    method Revoke(s: SessionId, reason: Reason, now: real)
      requires s < |working.rows|
      modifies this`working
      ensures working == old(working).(rows := old(working).rows[s := RevokeRow(old(working).rows[s], reason, now)])
    {
      var row := working.rows[s];
      row := row.(revoked := true);
      row := row.(reason := Some(reason));
      row := row.(revokedAt := Some(now));
      working := working.(rows := working.rows[s := row]);
    }

    method RevokeFamily(f: FamilyId, reason: Reason, now: real) returns (count: nat)
      modifies this`working
      ensures working == old(working).(rows := KillFamily(old(working).rows, f, reason, now))
      ensures count == CountFamily(old(working).rows, f)
    {
      count := |set i | 0 <= i < |working.rows| && LiveIn(working.rows[i], f)|;
      working := working.(rows := KillFamily(working.rows, f, reason, now));
    }

    method RevokeAllForUser(u: UserId, reason: Reason, now: real) returns (count: nat)
      modifies this`working
      ensures working == old(working).(rows := KillUser(old(working).rows, u, reason, now))
      ensures count == CountUser(old(working).rows, u)
    {
      count := |set i | 0 <= i < |working.rows| && LiveOf(working.rows[i], u)|;
      working := working.(rows := KillUser(working.rows, u, reason, now));
    }

    // ---- service

    method LoginUser(u: UserId, password: nat, requested: Option<TenantId>, f: FamilyId, d: Digest, expiresAt: real) returns (o: Outcome)
      modifies this`working
      ensures (working, o) == Login(old(working), u, password, requested, f, d, expiresAt)
    {
      if u !in working.users || working.users[u].password != password {
        return Failed(InvalidCredentials);
      }
      if !working.users[u].active {
        return Failed(InactiveUser);
      }
      var tenant: Option<TenantId>;
      if requested.Some? {
        if !MayEnter(working, u, requested.value) {
          return Failed(TenantAccess);
        }
        tenant := requested;
      } else {
        tenant := DefaultTenant(working, u);
      }
      var row := Row(u, f, d, tenant, false, None, None, expiresAt);
      working := working.(rows := working.rows + [row]);
      return Issued(|working.rows| - 1);
    }

    /** Rotation. The two branches that revoke a family commit before they raise. */
    method RefreshToken(presented: Digest, d: Digest, expiresAt: real, now: real) returns (o: Outcome)
      requires working == committed
      modifies this
      ensures (if o.Failed? then committed else working, o) == Refresh(old(working), presented, d, expiresAt, now)
      ensures o.Issued? ==> committed == old(committed)
    {
      var found := GetByTokenHash(presented);
      if found.None? {
        return Failed(UnknownToken);
      }
      var row := working.rows[found.value];
      if row.revoked {
        var killed := RevokeFamily(row.family, ReuseDetected, now);
        Commit();
        return Failed(TokenRevoked);
      }
      if row.expiresAt <= now {
        return Failed(TokenExpired);
      }
      if row.user !in working.users || !working.users[row.user].active {
        var killed := RevokeFamily(row.family, LoggedOut, now);
        Commit();
        return Failed(InactiveUser);
      }
      var tenant := row.tenant;
      if tenant.Some? && (row.user, tenant.value) !in working.members {
        tenant := None;
      }
      Revoke(found.value, Rotated, now);
      var rotated := Row(row.user, row.family, d, tenant, false, None, None, expiresAt);
      working := working.(rows := working.rows + [rotated]);
      return Issued(|working.rows| - 1);
    }

    method LogoutUser(u: UserId, session: Option<SessionId>, token: Option<Digest>, all: bool, now: real) returns (o: Outcome)
      modifies this`working
      ensures (working, o) == Logout(old(working), u, session, token, all, now)
    {
      var count := 0;
      if all {
        count := RevokeAllForUser(u, LoggedOut, now);
      } else if token.Some? {
        var found := GetByTokenHash(token.value);
        if found.None? || working.rows[found.value].user != u {
          count := 0;
        } else {
          count := RevokeFamily(working.rows[found.value].family, LoggedOut, now);
        }
      } else if session.Some? {
        if Owns(working.rows, session.value, u) {
          count := RevokeFamily(working.rows[session.value].family, LoggedOut, now);
        }
      } else {
        return Failed(TargetRequired);
      }
      return Revoked(count);
    }

    method RevokeDevice(u: UserId, target: SessionId, now: real) returns (o: Outcome)
      modifies this`working
      ensures (working, o) == RevokeSession(old(working), u, target, RevokedByUser, now)
    {
      if !Owns(working.rows, target, u) {
        return Revoked(0);
      }
      var count := RevokeFamily(working.rows[target].family, RevokedByUser, now);
      return Revoked(count);
    }

    method SwitchTenant(u: UserId, session: SessionId, t: TenantId) returns (o: Outcome)
      modifies this`working
      ensures (working, o) == SelectTenant(old(working), u, session, t)
    {
      if !MayEnter(working, u, t) {
        return Failed(TenantAccess);
      }
      if !Owns(working.rows, session, u) || working.rows[session].revoked {
        return Failed(SessionInvalid);
      }
      var row := working.rows[session];
      row := row.(tenant := Some(t));
      working := working.(rows := working.rows[session := row]);
      return Switched;
    }

    method ChangeUserPassword(u: UserId, oldPassword: nat, newPassword: nat, strong: bool, others: bool, current: Option<SessionId>, now: real) returns (o: Outcome)
      modifies this`working
      ensures (working, o) == ChangePassword(old(working), u, oldPassword, newPassword, strong, others, current, now)
    {
      if u !in working.users || working.users[u].password != oldPassword {
        return Failed(InvalidCredentials);
      }
      if !strong {
        return Failed(WeakPassword);
      }
      if newPassword == oldPassword {
        return Failed(PasswordUnchanged);
      }
      working := working.(users := working.users[u := working.users[u].(password := newPassword)]);
      var count := 0;
      if others {
        count := RevokeAllForUser(u, PasswordChanged, now);
        if current.Some? && Owns(working.rows, current.value, u) {
          var row := working.rows[current.value];
          row := row.(revoked := false);
          row := row.(reason := None);
          row := row.(revokedAt := None);
          working := working.(rows := working.rows[current.value := row]);
          count := if count >= 1 then count - 1 else 0;
        }
      }
      return Revoked(count);
    }

    // ---- request

    method GetPrincipal(c: Claims) returns (f: Option<Failure>)
      ensures f == Principal(working, c)
    {
      if !Owns(working.rows, c.session, c.user) || working.rows[c.session].revoked {
        return Some(SessionInvalid);
      }
      if c.user !in working.users {
        return Some(SessionInvalid);
      }
      if !working.users[c.user].active {
        return Some(InactiveUser);
      }
      return None;
    }

    /** One whole request: principal, service, then commit or rollback. */
    method Handle(t: Timed) returns (o: Outcome)
      requires working == committed
      modifies this
      ensures (committed, o) == Serve(old(committed), t) && working == committed
    {
      o := Done;
      var denied: Option<Failure> := None;
      match t.req {
        case LogoutReq(c, _, _) => denied := GetPrincipal(c);
        case RevokeReq(c, _) => denied := GetPrincipal(c);
        case SelectReq(c, _) => denied := GetPrincipal(c);
        case PasswordReq(c, _, _, _, _) => denied := GetPrincipal(c);
        case LoginReq(_, _, _, _, _) =>
        case RefreshReq(_, _) =>
        case Environment(_, _, _) =>
      }
      if denied.Some? {
        o := Failed(denied.value);
      } else {
        match t.req {
          case LoginReq(u, password, requested, f, d) => o := LoginUser(u, password, requested, f, d, t.expiresAt);
          case RefreshReq(presented, d) => o := RefreshToken(presented, d, t.expiresAt, t.now);
          case LogoutReq(c, token, all) => o := LogoutUser(c.user, Some(c.session), token, all, t.now);
          case RevokeReq(c, target) => o := RevokeDevice(c.user, target, t.now);
          case SelectReq(c, tenant) => o := SwitchTenant(c.user, c.session, tenant);
          case PasswordReq(c, oldPassword, newPassword, strong, others) =>
            o := ChangeUserPassword(c.user, oldPassword, newPassword, strong, others, Some(c.session), t.now);
          case Environment(users, members, open) =>
            working := working.(users := users, members := members, open := open);
        }
      }
      if o.Failed? {
        Rollback();
      } else {
        Commit();
      }
    }
  }
}
