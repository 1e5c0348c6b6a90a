/**
 * What each request of a run does, stated on the rows of the table before and after it: when a token is
 * accepted and until when, what a refused request leaves, and exactly which sessions a logout, a revocation
 * and a password change end.
 */
module SessionLaws {
  import opened Prelude
  import opened Sessions

  /** Exactly the live rows among `picked` are revoked, for this reason and now; every other row is as it was. */
  ghost predicate Revokes(rows: seq<Row>, rows': seq<Row>, picked: set<SessionId>, reason: Reason, now: real) {
    |rows'| == |rows|
    && forall j :: 0 <= j < |rows| ==>
         rows'[j] == if j in picked && !rows[j].revoked
                     then rows[j].(revoked := true, reason := Some(reason), revokedAt := Some(now))
                     else rows[j]
  }

  function OfFamily(rows: seq<Row>, f: FamilyId): set<SessionId> {
    set j: SessionId | j < |rows| && rows[j].family == f
  }

  function OfUser(rows: seq<Row>, u: UserId): set<SessionId> {
    set j: SessionId | j < |rows| && rows[j].user == u
  }

  function Changed(rows: seq<Row>, rows': seq<Row>): set<SessionId>
    requires |rows| == |rows'|
  {
    set j: SessionId | j < |rows| && rows[j] != rows'[j]
  }

  // ---------------------------------------------------------------- when a token is accepted

  /** A refresh is granted exactly when the token is one of a live, unexpired session of an active user. */
  lemma RefreshGrantedExactlyWhen(init: Db, ts: seq<Timed>, i: nat)
    requires Legal(init, ts) && i < |ts| && ts[i].req.RefreshReq?
    ensures
      var db := Run(init, ts[..i]);
      Answer(init, ts, i).Issued?
      <==> exists k :: 0 <= k < |db.rows| && db.rows[k].digest == ts[i].req.presented && !db.rows[k].revoked
                       && db.rows[k].expiresAt > ts[i].now
                       && db.rows[k].user in db.users && db.users[db.rows[k].user].active
  {
    var db := Run(init, ts[..i]);
    InvRun(init, ts, i);
    hide Run, Serve, Legal, Inv, Revokes, OfFamily;
    if k :| 0 <= k < |db.rows| && db.rows[k].digest == ts[i].req.presented {
      assert Inv(db.rows);
      DigestIsOf(db.rows, k);
      RefreshEffect(init, ts, i, k);
    } else {
      UnknownTokenChangesNothing(init, ts, i);
    }
  }

  lemma DigestIsOf(rows: seq<Row>, k: SessionId)
    requires Inv(rows) && k < |rows|
    ensures forall j :: 0 <= j < |rows| && rows[j].digest == rows[k].digest ==> j == k
  {
  }

  /** A token that is no row's is refused and nothing changes. */
  lemma UnknownTokenChangesNothing(init: Db, ts: seq<Timed>, i: nat)
    requires Legal(init, ts) && i < |ts| && ts[i].req.RefreshReq?
    requires forall k :: 0 <= k < |Run(init, ts[..i]).rows| ==> Run(init, ts[..i]).rows[k].digest != ts[i].req.presented
    ensures Answer(init, ts, i) == Failed(UnknownToken) && Run(init, ts[..i + 1]) == Run(init, ts[..i])
  {
    RunStep(init, ts, i);
    hide Run, Find;
  }

  /**
   * What a refresh does when the token is that of row `k`, in order: a revoked row is a replay and kills the family,
   * an expired one changes nothing, an inactive user ends the family, and otherwise the row is replaced by a new one.
   */
  lemma RefreshEffect(init: Db, ts: seq<Timed>, i: nat, k: SessionId)
    requires Legal(init, ts) && i < |ts| && ts[i].req.RefreshReq?
    requires k < |Run(init, ts[..i]).rows| && Run(init, ts[..i]).rows[k].digest == ts[i].req.presented
    ensures
      var db, db', o, now := Run(init, ts[..i]), Run(init, ts[..i + 1]), Answer(init, ts, i), ts[i].now;
      var r := db.rows[k];
      var active := r.user in db.users && db.users[r.user].active;
      db'.users == db.users && db'.members == db.members && db'.open == db.open
      && (r.revoked ==>
            o == Failed(TokenRevoked) && Revokes(db.rows, db'.rows, OfFamily(db.rows, r.family), ReuseDetected, now))
      && (!r.revoked && r.expiresAt <= now ==> o == Failed(TokenExpired) && db' == db)
      && (!r.revoked && r.expiresAt > now && !active ==>
            o == Failed(InactiveUser) && Revokes(db.rows, db'.rows, OfFamily(db.rows, r.family), LoggedOut, now))
      && (!r.revoked && r.expiresAt > now && active ==>
            o == Issued(|db.rows|) && |db'.rows| == |db.rows| + 1
            && Revokes(db.rows, db'.rows[..|db.rows|], {k}, Rotated, now)
            && var next := db'.rows[|db.rows|];
               next.user == r.user && next.family == r.family && next.digest == ts[i].req.digest && !next.revoked
               && next.expiresAt == ts[i].expiresAt
               && next.tenant == (if r.tenant.Some? && (r.user, r.tenant.value) in db.members then r.tenant else None))
  {
    hide Run, Find, Legal, Serve;
    InvRun(init, ts, i);
    RunStep(init, ts, i);
    RefreshOf(Run(init, ts[..i]), ts[i], k);
  }

  lemma RefreshOf(db: Db, t: Timed, k: SessionId)
    requires Inv(db.rows) && t.req.RefreshReq? && k < |db.rows| && db.rows[k].digest == t.req.presented
    ensures
      var (db', o) := Serve(db, t);
      var r := db.rows[k];
      var active := r.user in db.users && db.users[r.user].active;
      db'.users == db.users && db'.members == db.members && db'.open == db.open
      && (r.revoked ==>
            o == Failed(TokenRevoked) && Revokes(db.rows, db'.rows, OfFamily(db.rows, r.family), ReuseDetected, t.now))
      && (!r.revoked && r.expiresAt <= t.now ==> o == Failed(TokenExpired) && db' == db)
      && (!r.revoked && r.expiresAt > t.now && !active ==>
            o == Failed(InactiveUser) && Revokes(db.rows, db'.rows, OfFamily(db.rows, r.family), LoggedOut, t.now))
      && (!r.revoked && r.expiresAt > t.now && active ==>
            o == Issued(|db.rows|)
            && db'.rows == db.rows[k := RevokeRow(r, Rotated, t.now)] + [Opened(r.user, r.family, t.req.digest, Remembered(db, r), t.expiresAt)])
  {
    hide Find, KillFamily, Revokes, OfFamily, CountUser, CountFamily, KillUser, SignOutOthers, DefaultTenant;
    FindIs(db.rows, k);
    FamilyEnds(db.rows, db.rows[k].family, ReuseDetected, t.now);
    FamilyEnds(db.rows, db.rows[k].family, LoggedOut, t.now);
  }

  /**
   * A token dies no later than its expiry: the one drawn at step `i` is never accepted at or after the expiry it was
   * given, however many requests come between.
   */
  lemma TokenDiesAtExpiry(init: Db, ts: seq<Timed>, i: nat, j: nat)
    requires Legal(init, ts) && i < j < |ts|
    requires (ts[i].req.LoginReq? || ts[i].req.RefreshReq?) && Answer(init, ts, i).Issued?
    requires ts[j].req.RefreshReq? && ts[j].req.presented == ts[i].req.digest && Answer(init, ts, j).Issued?
    ensures ts[j].now < ts[i].expiresAt
  {
    var before, after, later := Run(init, ts[..i]), Run(init, ts[..i + 1]), Run(init, ts[..j]);
    RunStep(init, ts, i);
    IssuedRow(before, ts[i]);
    var s := |before.rows|;
    hide Serve, Run, Find;
    Later(init, ts, i + 1, j);
    InvRun(init, ts, j);
    RefreshGrantedExactlyWhen(init, ts, j);
    var k :| 0 <= k < |later.rows| && later.rows[k].digest == ts[j].req.presented && later.rows[k].expiresAt > ts[j].now;
    assert later.rows[s].digest == ts[j].req.presented;
    assert k == s;
  }

  lemma IssuedRow(db: Db, t: Timed)
    requires (t.req.LoginReq? || t.req.RefreshReq?) && Serve(db, t).1.Issued?
    ensures
      var db' := Serve(db, t).0;
      |db'.rows| == |db.rows| + 1 && db'.rows[|db.rows|].expiresAt == t.expiresAt
      && db'.rows[|db.rows|].digest == t.req.digest
  {
    hide Find, DefaultTenant, CountUser, CountFamily, SignOutOthers, KillUser, KillFamily;
  }

  // ---------------------------------------------------------------- logging in

  /** The checks of a login, in order, and the session a login that passes them opens. */
  lemma LoginEffect(init: Db, ts: seq<Timed>, i: nat)
    requires Legal(init, ts) && i < |ts| && ts[i].req.LoginReq?
    ensures
      var db, db', o, r := Run(init, ts[..i]), Run(init, ts[..i + 1]), Answer(init, ts, i), ts[i].req;
      var known := r.user in db.users && db.users[r.user].password == r.password;
      var barred := r.requested.Some? && !((r.user, r.requested.value) in db.members && r.requested.value in db.open);
      (o == Failed(InvalidCredentials) <==> !known)
      && (o == Failed(InactiveUser) <==> known && !db.users[r.user].active)
      && (o == Failed(TenantAccess) <==> known && db.users[r.user].active && barred)
      && (o.Issued? <==> known && db.users[r.user].active && !barred)
      && (!o.Issued? ==> db' == db)
      && (o.Issued? ==>
            o.session == |db.rows| && |db'.rows| == |db.rows| + 1 && db'.rows[..|db.rows|] == db.rows
            && db'.users == db.users && db'.members == db.members && db'.open == db.open
            && var s := db'.rows[|db.rows|];
               s.user == r.user && s.family == r.family && s.digest == r.digest && !s.revoked && s.expiresAt == ts[i].expiresAt
               && (r.requested.Some? ==> s.tenant == r.requested))
  {
    RunStep(init, ts, i);
    hide Run, DefaultTenant;
  }

  /** Without a request, a new session gets a workspace exactly when the user has one membership only and it is open. */
  lemma OnlyMembershipIsEntered(init: Db, ts: seq<Timed>, i: nat, t: TenantId)
    requires Legal(init, ts) && i < |ts| && ts[i].req.LoginReq? && ts[i].req.requested.None? && Answer(init, ts, i).Issued?
    ensures
      var db, db', u := Run(init, ts[..i]), Run(init, ts[..i + 1]), ts[i].req.user;
      |db'.rows| == |db.rows| + 1
      && (db'.rows[|db.rows|].tenant == Some(t)
          <==> (u, t) in db.members && t in db.open && forall other :: (u, other) in db.members ==> other == t)
  {
    RunStep(init, ts, i);
    hide Run;
    OnlyWorkspace(Run(init, ts[..i]), ts[i].req.user, t);
    hide DefaultTenant;
  }

  lemma OnlyWorkspace(db: Db, u: UserId, t: TenantId)
    ensures DefaultTenant(db, u) == Some(t)
      <==> (u, t) in db.members && t in db.open && forall other :: (u, other) in db.members ==> other == t
  {
    var mine := Workspaces(db, u);
    assert forall other :: other in mine <==> (u, other) in db.members;
    if (u, t) in db.members && forall other :: (u, other) in db.members ==> other == t {
      assert mine == {t};
    }
    if mine == {t} {
      assert forall other :: (u, other) in db.members ==> other in {t};
    }
  }

  // ---------------------------------------------------------------- requests that need an access token

  predicate NeedsBearer(r: Request) {
    r.LogoutReq? || r.RevokeReq? || r.SelectReq? || r.PasswordReq?
  }

  /** The bearer's own session is live and the bearer an active user. */
  predicate BearerIsGood(db: Db, c: Claims) {
    c.session < |db.rows| && db.rows[c.session].user == c.user && !db.rows[c.session].revoked
    && c.user in db.users && db.users[c.user].active
  }

  /** Without a live session of one's own and an active user, nothing is changed and nothing granted. */
  lemma BadBearerIsRefused(init: Db, ts: seq<Timed>, i: nat)
    requires Legal(init, ts) && i < |ts| && NeedsBearer(ts[i].req) && !BearerIsGood(Run(init, ts[..i]), ts[i].req.claims)
    ensures Answer(init, ts, i).Failed? && Run(init, ts[..i + 1]) == Run(init, ts[..i])
    ensures Answer(init, ts, i).failure == SessionInvalid || Answer(init, ts, i).failure == InactiveUser
  {
    RunStep(init, ts, i);
    hide Run, Find, SignOutOthers, KillUser, KillFamily;
  }

  /** An access token outlives its session by nothing: once the session is revoked, every later request with it is refused. */
  lemma RevokedBearerStaysRefused(init: Db, ts: seq<Timed>, i: nat, j: nat)
    requires Legal(init, ts) && i <= j < |ts| && NeedsBearer(ts[j].req)
    requires ts[j].req.claims.session < |Run(init, ts[..i]).rows| && Run(init, ts[..i]).rows[ts[j].req.claims.session].revoked
    ensures Answer(init, ts, j).Failed? && Run(init, ts[..j + 1]) == Run(init, ts[..j])
  {
    hide Run;
    Later(init, ts, i, j);
    BadBearerIsRefused(init, ts, j);
  }

  /** The sessions a logout names: all of the user's, the family of the token if it is the user's, or the own family. */
  ghost function LogoutNames(rows: seq<Row>, c: Claims, token: Option<Digest>, all: bool): set<SessionId>
    requires c.session < |rows|
  {
    if all then OfUser(rows, c.user)
    else if token.Some? then
      set j: SessionId, k: SessionId | j < |rows| && k < |rows| && rows[k].digest == token.value && rows[k].user == c.user && rows[j].family == rows[k].family :: j
    else OfFamily(rows, rows[c.session].family)
  }

  /** A logout revokes exactly the live sessions it names, and answers how many those were. */
  lemma LogoutEnds(init: Db, ts: seq<Timed>, i: nat)
    requires Legal(init, ts) && i < |ts| && ts[i].req.LogoutReq? && BearerIsGood(Run(init, ts[..i]), ts[i].req.claims)
    ensures
      var db, db', r := Run(init, ts[..i]), Run(init, ts[..i + 1]), ts[i].req;
      Revokes(db.rows, db'.rows, LogoutNames(db.rows, r.claims, r.token, r.all), LoggedOut, ts[i].now)
      && Answer(init, ts, i) == Revoked(|Changed(db.rows, db'.rows)|)
      && db'.users == db.users && db'.members == db.members && db'.open == db.open
  {
    var db, r := Run(init, ts[..i]), ts[i].req;
    InvRun(init, ts, i);
    RunStep(init, ts, i);
    hide Run, Find, Revokes, KillUser, KillFamily, CountUser, CountFamily, Changed;
    if r.all {
      UserEnds(db.rows, r.claims.user, LoggedOut, ts[i].now);
    } else if r.token.Some? {
      TokenNames(db.rows, r.claims, r.token.value);
      if Find(db.rows, r.token.value).Some? {
        FamilyEnds(db.rows, db.rows[Find(db.rows, r.token.value).value].family, LoggedOut, ts[i].now);
      }
      NothingEnds(db.rows, LoggedOut, ts[i].now);
    } else {
      FamilyEnds(db.rows, db.rows[r.claims.session].family, LoggedOut, ts[i].now);
    }
  }

  lemma UserEnds(rows: seq<Row>, u: UserId, reason: Reason, now: real)
    ensures Revokes(rows, KillUser(rows, u, reason, now), OfUser(rows, u), reason, now)
    ensures CountUser(rows, u) == |Changed(rows, KillUser(rows, u, reason, now))|
  {
    assert Changed(rows, KillUser(rows, u, reason, now)) == set i | 0 <= i < |rows| && LiveOf(rows[i], u);
  }

  lemma FamilyEnds(rows: seq<Row>, f: FamilyId, reason: Reason, now: real)
    ensures Revokes(rows, KillFamily(rows, f, reason, now), OfFamily(rows, f), reason, now)
    ensures CountFamily(rows, f) == |Changed(rows, KillFamily(rows, f, reason, now))|
  {
    assert Changed(rows, KillFamily(rows, f, reason, now)) == set i | 0 <= i < |rows| && LiveIn(rows[i], f);
  }

  lemma NothingEnds(rows: seq<Row>, reason: Reason, now: real)
    ensures Revokes(rows, rows, {}, reason, now) && |Changed(rows, rows)| == 0
  {
    assert Changed(rows, rows) == {};
  }

  lemma TokenNames(rows: seq<Row>, c: Claims, d: Digest)
    requires DigestsDiffer(rows) && c.session < |rows|
    ensures
      var k := Find(rows, d);
      LogoutNames(rows, c, Some(d), false)
      == if k.Some? && rows[k.value].user == c.user then OfFamily(rows, rows[k.value].family) else {}
  {
    if k :| 0 <= k < |rows| && rows[k].digest == d {
      FindIs(rows, k);
    }
    hide Find;
  }

  /** A revocation ends exactly the live sessions of the target's family, if the target is the bearer's own. */
  lemma RevocationEnds(init: Db, ts: seq<Timed>, i: nat)
    requires Legal(init, ts) && i < |ts| && ts[i].req.RevokeReq? && BearerIsGood(Run(init, ts[..i]), ts[i].req.claims)
    ensures
      var db, db', r := Run(init, ts[..i]), Run(init, ts[..i + 1]), ts[i].req;
      var own := r.target < |db.rows| && db.rows[r.target].user == r.claims.user;
      Revokes(db.rows, db'.rows, if own then OfFamily(db.rows, db.rows[r.target].family) else {}, RevokedByUser, ts[i].now)
      && Answer(init, ts, i) == Revoked(|Changed(db.rows, db'.rows)|)
      && db'.users == db.users && db'.members == db.members && db'.open == db.open
  {
    var db, r := Run(init, ts[..i]), ts[i].req;
    RunStep(init, ts, i);
    hide Run, Revokes, KillFamily, CountFamily, Changed;
    if r.target < |db.rows| {
      FamilyEnds(db.rows, db.rows[r.target].family, RevokedByUser, ts[i].now);
    }
    NothingEnds(db.rows, RevokedByUser, ts[i].now);
  }

  /** A workspace switch is granted exactly to a member of an open one, and changes the own session's workspace only. */
  lemma SwitchEffect(init: Db, ts: seq<Timed>, i: nat)
    requires Legal(init, ts) && i < |ts| && ts[i].req.SelectReq? && BearerIsGood(Run(init, ts[..i]), ts[i].req.claims)
    ensures
      var db, db', o, r := Run(init, ts[..i]), Run(init, ts[..i + 1]), Answer(init, ts, i), ts[i].req;
      var may := (r.claims.user, r.tenant) in db.members && r.tenant in db.open;
      (may ==> o == Switched && db' == db.(rows := db.rows[r.claims.session := db.rows[r.claims.session].(tenant := Some(r.tenant))]))
      && (!may ==> o == Failed(TenantAccess) && db' == db)
  {
    RunStep(init, ts, i);
    hide Run;
  }

  /**
   * A password change is granted exactly for the right old password and a strong, different new one. It then changes
   * that one password and, if asked to, revokes exactly the user's other live sessions, and answers how many.
   */
  lemma PasswordChangeEnds(init: Db, ts: seq<Timed>, i: nat)
    requires Legal(init, ts) && i < |ts| && ts[i].req.PasswordReq? && BearerIsGood(Run(init, ts[..i]), ts[i].req.claims)
    ensures
      var db, db', o, r := Run(init, ts[..i]), Run(init, ts[..i + 1]), Answer(init, ts, i), ts[i].req;
      var u := r.claims.user;
      var right := db.users[u].password == r.oldPassword;
      (o == Failed(InvalidCredentials) <==> !right)
      && (o == Failed(WeakPassword) <==> right && !r.strong)
      && (o == Failed(PasswordUnchanged) <==> right && r.strong && r.newPassword == r.oldPassword)
      && (o.Failed? ==> db' == db)
      && (!o.Failed? <==> right && r.strong && r.newPassword != r.oldPassword)
      && (!o.Failed? ==>
            db'.users == db.users[u := User(true, r.newPassword)] && db'.members == db.members && db'.open == db.open
            && Revokes(db.rows, db'.rows, if r.others then OfUser(db.rows, u) - {r.claims.session} else {}, PasswordChanged, ts[i].now)
            && o == Revoked(|Changed(db.rows, db'.rows)|))
  {
    var db, r := Run(init, ts[..i]), ts[i].req;
    InvRun(init, ts, i);
    RunStep(init, ts, i);
    hide Run, Revokes, SignOutOthers, CountUser, Changed;
    OthersEnd(db.rows, r.claims.user, r.claims.session, ts[i].now);
    NothingEnds(db.rows, PasswordChanged, ts[i].now);
  }

  lemma OthersEnd(rows: seq<Row>, u: UserId, current: SessionId, now: real)
    requires ReasonsMatch(rows) && current < |rows| && rows[current].user == u && !rows[current].revoked
    ensures Revokes(rows, SignOutOthers(rows, u, Some(current), now), OfUser(rows, u) - {current}, PasswordChanged, now)
    ensures CountUser(rows, u) == |Changed(rows, SignOutOthers(rows, u, Some(current), now))| + 1
  {
    var after := SignOutOthers(rows, u, Some(current), now);
    assert after[current] == rows[current];
    assert Changed(rows, after) + {current} == set i | 0 <= i < |rows| && LiveOf(rows[i], u);
  }
}
