/** What the submission service keeps over whole runs of calls, in any order. */
module SubmissionRuns {
  import opened Prelude
  import opened SubmissionWorkflow
  import opened Submissions
  import O = OpportunityWorkflow

  const EMPTY := State(Db(map[], map[], map[]), [], map[])

  function Run(ops: seq<Op>): State {
    if ops == [] then EMPTY else Apply(Run(ops[..|ops| - 1]), ops[|ops| - 1]).0
  }

  /** New rows get ids of their own. */
  predicate Fresh(st: State, op: Op) {
    op.Create? ==> op.id !in st.db.subs
  }

  ghost predicate IsRun(ops: seq<Op>) {
    ops == [] || (IsRun(ops[..|ops| - 1]) && Fresh(Run(ops[..|ops| - 1]), ops[|ops| - 1]))
  }

  // ---------------------------------------------------------------- every write follows the table

  lemma Walk(p: seq<Status>)
    requires IsPath(p)
    ensures Reaches(p[0], p[|p| - 1])
  {
    assert Connects(p, p[0], p[|p| - 1]);
  }

  lemma UpdateWalks(s: Submission, u: UpdateRequest)
    requires UpdateRow(s, u).Ok?
    ensures Reaches(s.status, UpdateRow(s, u).value.status)
  {
    Walk([s.status]);
    if UpdateRow(s, u).value.status != s.status {
      Walk([PendingApproval, InProgress]);
    }
  }

  lemma PrepareWalks(s: Submission)
    requires PrepareRow(s).Ok?
    ensures Reaches(s.status, PrepareRow(s).value.status)
  {
    Walk([Ready, InProgress, PendingApproval]);
    Walk([InProgress, PendingApproval]);
  }

  lemma ExecuteWalks(s: Submission, e: ExecuteRequest, reply: ProviderReply, at: real, stamp: string)
    requires reply.Reply? && s.status == PendingApproval
    ensures Reaches(s.status, ExecuteRow(s, e, reply, at, stamp).0.status)
  {
    Walk([PendingApproval, Submitted]);
    Walk([PendingApproval, Submitted, Failed]);
    Walk([PendingApproval, Submitted, Published]);
    Walk([PendingApproval, Submitted, VerificationPending]);
  }

  lemma VerifyWalks(s: Submission, v: VerifyRequest, at: real)
    requires VerifyRow(s, v, at).Ok?
    ensures Reaches(s.status, VerifyRow(s, v, at).value.status)
  {
    Walk([s.status]);
    Walk([Submitted, Published, Verified]);
    Walk([VerificationPending, Published, Verified]);
    Walk([Published, Verified]);
    Walk([Submitted, VerificationPending]);
  }

  /** Only an execution gets past its refusals from PENDING_APPROVAL, approved, to a FREE publisher. */
  lemma ExecutesOnlyApproved(db: Db, s: Submission)
    requires ExecuteRefusal(db, s).None?
    ensures s.status == PendingApproval && s.approvedBy.Some?
    ensures s.opportunity in db.opps && db.opps[s.opportunity].publisher in db.pubs
    ensures db.pubs[db.opps[s.opportunity].publisher].pricing == Free
  {
  }

  /** The net status change of every call, direct writes included, is a walk along the declared table. */
  lemma EveryCallFollowsTheTable(db: Db, op: Op, id: SubmissionId)
    requires Written(db, op).Ok? && (op.Create? ==> op.id !in db.subs)
    requires id in db.subs && id in Written(db, op).value.subs
    ensures Reaches(db.subs[id].status, Written(db, op).value.subs[id].status)
  {
    hide UpdateRow, PrepareRow, ExecuteRow, VerifyRow, ExecuteRefusal, Reaches, CreateRow, Advance;
    var s := db.subs[id];
    Walk([s.status]);
    match op {
      case Create(_, c) => CreateWrites(db, op.id, c);
      case Update(i, u) => if i == id { UpdateWalks(s, u); }
      case Transition(i, target, reason) => if i == id { Walk([s.status, target]); }
      case Prepare(i) => if i == id { PrepareWalks(s); }
      case Approve(i, approver, note, at) =>
      case Execute(i, e, _, reply, at, stamp) =>
        if i == id {
          ExecutesOnlyApproved(db, s);
          ExecuteWalks(s, e, reply, at, stamp);
        }
      case Verify(i, v, at) => if i == id { VerifyWalks(s, v, at); }
      case Delete(_) =>
      case Environment(_, _) =>
    }
  }

  lemma CreateWrites(db: Db, id: SubmissionId, c: CreateRequest)
    requires CreateRow(db, id, c).Ok?
    ensures
      var db' := CreateRow(db, id, c).value;
      db'.subs == db.subs[id := db'.subs[id]]
      && db'.subs[id].opportunity == c.opportunity && db'.subs[id].status == Ready
      && db'.subs[id].approvedBy.None? && db'.subs[id].approvedAt.None?
      && !LiveElsewhere(db.subs, c.opportunity, None)
  {
  }

  // ---------------------------------------------------------------- approvals and the live index

  predicate ApprovalWhole(s: Submission) {
    (s.approvedBy.Some? <==> s.approvedAt.Some?) && Gated(s)
  }

  ghost predicate Inv(db: Db) {
    UniqueLive(db.subs) && forall id :: id in db.subs ==> ApprovalWhole(db.subs[id])
  }

  /** The one write that can meet another live submission: retrying a failed one in place. */
  predicate RevivesBesideLive(db: Db, op: Op) {
    op.Transition? && op.target == Ready && op.id in db.subs && db.subs[op.id].status == Failed
    && LiveElsewhere(db.subs, db.subs[op.id].opportunity, Some(op.id))
  }

  lemma RowKeepsApproval(db: Db, op: Op, id: SubmissionId)
    requires Written(db, op).Ok? && (op.Create? ==> op.id !in db.subs)
    requires id in Written(db, op).value.subs && (id in db.subs ==> ApprovalWhole(db.subs[id]))
    ensures ApprovalWhole(Written(db, op).value.subs[id])
  {
    if op.Create? && op.id == id {
      CreateWrites(db, id, op.create);
    }
  }

  /** What a successful call does to liveness: nobody else changes, and only a retry comes back to life. */
  lemma LivenessStep(db: Db, op: Op, id: SubmissionId)
    requires Written(db, op).Ok? && id in db.subs && id in Written(db, op).value.subs && !op.Create?
    ensures
      var s, s' := db.subs[id], Written(db, op).value.subs[id];
      s'.opportunity == s.opportunity
      && (IsLive(s'.status) && !IsLive(s.status) ==>
            op.Transition? && op.id == id && op.target == Ready && s.status == Failed)
  {
    hide ResolvedCopy, EditedCopy, AppendNote, Capped, Or;
    if op.Execute? && op.id == id {
      ExecutesOnlyApproved(db, db.subs[id]);
    }
  }

  lemma KeysStep(db: Db, op: Op)
    requires Written(db, op).Ok? && !op.Create?
    ensures Written(db, op).value.subs.Keys <= db.subs.Keys
    ensures forall id :: id in db.subs && (op.Environment? || op.id != id) ==>
      id in Written(db, op).value.subs && Written(db, op).value.subs[id] == db.subs[id]
    ensures !op.Delete? && !op.Environment? ==> op.id in db.subs && op.id in Written(db, op).value.subs
  {
    hide UpdateRow, TransitionRow, PrepareRow, ApproveRow, ExecuteRow, VerifyRow, ExecuteRefusal, Advance;
  }

  lemma OthersKeepUnique(db: Db, op: Op)
    requires Inv(db) && Written(db, op).Ok? && !op.Create? && !RevivesBesideLive(db, op)
    ensures UniqueLive(Written(db, op).value.subs)
  {
    hide Written;
    var subs' := Written(db, op).value.subs;
    KeysStep(db, op);
    forall a, b | a in subs' && b in subs' && Rivals(subs'[a], subs'[b])
      ensures a == b
    {
      LivenessStep(db, op, a);
      LivenessStep(db, op, b);
      assert IsLive(db.subs[a].status) && IsLive(db.subs[b].status) ==> Rivals(db.subs[a], db.subs[b]);
    }
  }

  lemma CreateKeepsUnique(db: Db, op: Op)
    requires Inv(db) && Written(db, op).Ok? && op.Create? && op.id !in db.subs
    ensures UniqueLive(Written(db, op).value.subs)
  {
    CreateWrites(db, op.id, op.create);
    hide CreateRow;
    var subs' := Written(db, op).value.subs;
    forall a, b | a in subs' && b in subs' && Rivals(subs'[a], subs'[b])
      ensures a == b
    {
      assert forall id :: id in db.subs && IsLive(db.subs[id].status) ==> db.subs[id].opportunity != op.create.opportunity;
      assert a in db.subs && b in db.subs ==> Rivals(db.subs[a], db.subs[b]);
    }
  }

  lemma RevivalTrips(db: Db, op: Op)
    requires Written(db, op).Ok? && RevivesBesideLive(db, op)
    ensures !UniqueLive(Written(db, op).value.subs)
  {
    var subs' := Written(db, op).value.subs;
    var other :| other in db.subs && db.subs[other].opportunity == db.subs[op.id].opportunity
                 && IsLive(db.subs[other].status) && Some(op.id) != Some(other);
    assert Rivals(subs'[op.id], subs'[other]);
  }

  /**
   * The database's guard rejects a service write exactly when it puts a FAILED submission back to READY
   * beside another live one; the approval constraint never rejects anything.
   */
  lemma GuardTripsExactlyWhen(db: Db, op: Op)
    requires Inv(db) && Written(db, op).Ok? && (op.Create? ==> op.id !in db.subs)
    ensures !Constraints(Written(db, op).value.subs) <==> RevivesBesideLive(db, op)
    ensures !RevivesBesideLive(db, op) ==> Inv(Written(db, op).value)
  {
    hide Written;
    var subs' := Written(db, op).value.subs;
    forall id | id in subs'
      ensures ApprovalWhole(subs'[id])
    {
      if !op.Create? {
        KeysStep(db, op);
      } else {
        CreateKeys(db, op);
      }
      RowKeepsApproval(db, op, id);
    }
    if RevivesBesideLive(db, op) {
      RevivalTrips(db, op);
    } else if op.Create? {
      CreateKeepsUnique(db, op);
    } else {
      OthersKeepUnique(db, op);
    }
  }

  lemma CreateKeys(db: Db, op: Op)
    requires op.Create? && Written(db, op).Ok? && op.id !in db.subs
    ensures forall id :: id in db.subs ==> id in Written(db, op).value.subs && Written(db, op).value.subs[id] == db.subs[id]
  {
    CreateWrites(db, op.id, op.create);
  }

  lemma InvStep(st: State, op: Op)
    requires Inv(st.db) && Fresh(st, op)
    ensures Inv(Apply(st, op).0.db)
  {
    hide Written, Inv, Constraints, SentAfter;
    if Written(st.db, op).Ok? {
      GuardTripsExactlyWhen(st.db, op);
    }
  }

  lemma {:induction false} InvRun(ops: seq<Op>)
    requires IsRun(ops)
    ensures Inv(Run(ops).db)
  {
    hide Apply;
    if ops != [] {
      InvRun(ops[..|ops| - 1]);
      InvStep(Run(ops[..|ops| - 1]), ops[|ops| - 1]);
    }
  }

  /** In every reachable table, a status behind the gate carries both approval fields. */
  lemma {:induction false} GateHolds(ops: seq<Op>, id: SubmissionId)
    requires IsRun(ops) && id in Run(ops).db.subs && RequiresApproval(Run(ops).db.subs[id].status)
    ensures Run(ops).db.subs[id].approvedBy.Some? && Run(ops).db.subs[id].approvedAt.Some?
  {
    InvRun(ops);
    assert ApprovalWhole(Run(ops).db.subs[id]);
  }

  /** In every reachable table, an opportunity has at most one live submission. */
  lemma {:induction false} OneLiveSubmission(ops: seq<Op>, a: SubmissionId, b: SubmissionId)
    requires IsRun(ops) && a in Run(ops).db.subs && b in Run(ops).db.subs
    requires Rivals(Run(ops).db.subs[a], Run(ops).db.subs[b])
    ensures a == b
  {
    InvRun(ops);
  }

  /** VERIFIED and REJECTED are never left. */
  lemma {:induction false} TerminalIsFinal(ops: seq<Op>, op: Op, id: SubmissionId)
    requires IsRun(ops) && Fresh(Run(ops), op)
    requires id in Run(ops).db.subs && (Run(ops).db.subs[id].status == Verified || Run(ops).db.subs[id].status == Rejected)
    requires id in Apply(Run(ops), op).0.db.subs
    ensures Apply(Run(ops), op).0.db.subs[id].status == Run(ops).db.subs[id].status
  {
    hide Written, Run, SentAfter, Constraints, Reaches;
    var db := Run(ops).db;
    if Written(db, op).Ok? {
      if id in Written(db, op).value.subs {
        EveryCallFollowsTheTable(db, op, id);
        TerminalReachesOnlyItself(db.subs[id].status, Written(db, op).value.subs[id].status);
      }
    }
  }

  /** A call moves opportunities only by executing, and then only its own, by at most one edge of their table. */
  lemma OpportunityMovesOneEdge(st: State, op: Op, o: OpportunityId)
    requires !op.Environment? && o in st.db.opps
    ensures
      var st' := Apply(st, op).0;
      o in st'.db.opps
      && (st'.db.opps[o] == st.db.opps[o]
          || (op.Execute? && op.id in st.db.subs && st.db.subs[op.id].opportunity == o
              && O.CanTransition(st.db.opps[o].status, st'.db.opps[o].status)
              && st'.db.opps[o] == st.db.opps[o].(status := st'.db.opps[o].status)))
  {
    hide UpdateRow, TransitionRow, PrepareRow, ApproveRow, ExecuteRow, VerifyRow, SentAfter, Constraints;
  }

  // ---------------------------------------------------------------- what was reviewed is what is sent

  function Look(m: map<SubmissionId, Copy>, id: SubmissionId): Option<Copy> {
    if id in m then Some(m[id]) else None
  }

  /** The words on an approved row are those it was last approved with. */
  predicate AgreesAt(st: State, id: SubmissionId) {
    id in st.db.subs && st.db.subs[id].approvedBy.Some? ==> Look(st.reviewed, id) == Some(st.db.subs[id].copy)
  }

  ghost predicate Agree(st: State) {
    forall id :: AgreesAt(st, id)
  }

  /** An edit changes the words of an approved row where it does not clear the approval. */
  predicate EditsUnseen(st: State, op: Op) {
    op.Update? && op.id in st.db.subs && st.db.subs[op.id].approvedBy.Some?
    && (st.db.subs[op.id].status == Ready || st.db.subs[op.id].status == InProgress)
    && EditedCopy(st.db.subs[op.id].copy, op.update.copy) != st.db.subs[op.id].copy
  }

  lemma RowKeepsAgreeing(st: State, op: Op, id: SubmissionId)
    requires Fresh(st, op) && AgreesAt(st, id) && !(EditsUnseen(st, op) && op.id == id)
    ensures AgreesAt(Apply(st, op).0, id)
  {
    hide Constraints, ResolvedCopy, AppendNote, Capped, Or, SentAfter, Advance, ExecuteRefusal;
    if op.Create? && Written(st.db, op).Ok? {
      CreateWrites(st.db, op.id, op.create);
    }
  }

  lemma ApprovingAgrees(st: State, op: Op)
    requires op.Approve? && Apply(st, op).1.None?
    ensures AgreesAt(Apply(st, op).0, op.id)
  {
  }

  lemma UnseenEditDisagrees(st: State, op: Op)
    requires Inv(st.db) && EditsUnseen(st, op) && AgreesAt(st, op.id)
    ensures !AgreesAt(Apply(st, op).0, op.id)
  {
    hide Inv, Constraints, SentAfter;
    GuardTripsExactlyWhen(st.db, op);
  }

  /** Words and approvals stay in agreement exactly when a call is no edit behind an approval's back. */
  lemma AgreementKeptExactlyWhen(st: State, op: Op)
    requires Inv(st.db) && Agree(st) && Fresh(st, op)
    ensures Agree(Apply(st, op).0) <==> !EditsUnseen(st, op)
  {
    hide Apply, Inv, EditsUnseen, AgreesAt;
    if EditsUnseen(st, op) {
      IsAnUpdate(st, op);
      assert AgreesAt(st, op.id);
      UnseenEditDisagrees(st, op);
    } else {
      forall id
        ensures AgreesAt(Apply(st, op).0, id)
      {
        assert AgreesAt(st, id);
        RowKeepsAgreeing(st, op, id);
      }
    }
  }

  lemma IsAnUpdate(st: State, op: Op)
    requires EditsUnseen(st, op)
    ensures op.Update?
  {
  }

  /** The submissions edited that way and not approved since. */
  function Unseen(ops: seq<Op>): set<SubmissionId> {
    if ops == [] then {}
    else
      var st, op := Run(ops[..|ops| - 1]), ops[|ops| - 1];
      if EditsUnseen(st, op) then Unseen(ops[..|ops| - 1]) + {op.id}
      else if op.Approve? && Apply(st, op).1.None? then Unseen(ops[..|ops| - 1]) - {op.id}
      else Unseen(ops[..|ops| - 1])
  }

  lemma {:induction false} SeenRowsAgree(ops: seq<Op>, id: SubmissionId)
    requires IsRun(ops) && id !in Unseen(ops)
    ensures AgreesAt(Run(ops), id)
  {
    if ops != [] {
      hide Apply, EditsUnseen;
      var init, op := ops[..|ops| - 1], ops[|ops| - 1];
      if op.Approve? && Apply(Run(init), op).1.None? && op.id == id {
        ApprovingAgrees(Run(init), op);
      } else {
        SeenRowsAgree(init, id);
        RowKeepsAgreeing(Run(init), op, id);
      }
    }
  }

  /** A call that hands something to a provider executes an approved submission to a FREE publisher. */
  lemma SendingMeans(st: State, op: Op, n: nat)
    requires |st.sent| <= n < |Apply(st, op).0.sent|
    ensures op.Execute? && op.id in st.db.subs && ExecuteRefusal(st.db, st.db.subs[op.id]).None?
    ensures Apply(st, op).0.sent[n].id == op.id && Apply(st, op).0.sent[n].request.copy == st.db.subs[op.id].copy
  {
    hide Written, Constraints, ExecuteRefusal;
  }

  /**
   * Whatever a call hands to a provider, unless its words were edited behind their approval and not approved
   * again: the submission is approved, its publisher is FREE at that moment, and the words are those it was
   * last approved with.
   */
  lemma {:induction false} WhatIsSentWasReviewed(ops: seq<Op>, op: Op, n: nat)
    requires IsRun(ops) && |Run(ops).sent| <= n < |Apply(Run(ops), op).0.sent|
    requires Apply(Run(ops), op).0.sent[n].id !in Unseen(ops)
    ensures
      var db, e := Run(ops).db, Apply(Run(ops), op).0.sent[n];
      e.id in db.subs && db.subs[e.id].approvedBy.Some?
      && Look(Run(ops).reviewed, e.id) == Some(e.request.copy)
      && db.subs[e.id].opportunity in db.opps && db.opps[db.subs[e.id].opportunity].publisher in db.pubs
      && db.pubs[db.opps[db.subs[e.id].opportunity].publisher].pricing == Free
  {
    hide Run, Apply, Unseen, IsRun, ExecuteRefusal;
    SendingMeans(Run(ops), op, n);
    SeenRowsAgree(ops, op.id);
    ExecutesOnlyApproved(Run(ops).db, Run(ops).db.subs[op.id]);
  }

  // ---------------------------------------------------------------- runs that never reopen an approved row

  /** An approved row is past preparation. */
  ghost predicate Closed(st: State) {
    forall id :: id in st.db.subs && st.db.subs[id].approvedBy.Some? ==>
      st.db.subs[id].status != Ready && st.db.subs[id].status != InProgress
  }

  /** The generic transition would send an approved row back to where its words can be edited. */
  predicate ReopensApproved(st: State, op: Op) {
    op.Transition? && op.id in st.db.subs && st.db.subs[op.id].approvedBy.Some? && (op.target == Ready || op.target == InProgress)
  }

  lemma ClosedRow(st: State, op: Op, id: SubmissionId)
    requires Closed(st) && Fresh(st, op) && !ReopensApproved(st, op)
    requires id in Apply(st, op).0.db.subs && Apply(st, op).0.db.subs[id].approvedBy.Some?
    ensures Apply(st, op).0.db.subs[id].status != Ready && Apply(st, op).0.db.subs[id].status != InProgress
  {
    hide Constraints, ResolvedCopy, AppendNote, Capped, Or, SentAfter, Advance, ExecuteRefusal;
    if op.Create? {
      if Written(st.db, op).Ok? {
        CreateWrites(st.db, op.id, op.create);
      }
    } else if op.Execute? && op.id == id && id in st.db.subs && ExecuteRefusal(st.db, st.db.subs[id]).None? {
      ExecutesOnlyApproved(st.db, st.db.subs[id]);
    }
  }

  lemma ClosedStep(st: State, op: Op)
    requires Closed(st) && Fresh(st, op) && !ReopensApproved(st, op)
    ensures Closed(Apply(st, op).0)
  {
    hide Apply;
    var st' := Apply(st, op).0;
    forall id | id in st'.db.subs && st'.db.subs[id].approvedBy.Some?
      ensures st'.db.subs[id].status != Ready && st'.db.subs[id].status != InProgress
    {
      ClosedRow(st, op, id);
    }
  }

  ghost predicate NeverReopens(ops: seq<Op>) {
    ops == []
    || (NeverReopens(ops[..|ops| - 1]) && !ReopensApproved(Run(ops[..|ops| - 1]), ops[|ops| - 1]))
  }

  /** If the generic transition never reopens an approved row, nothing is ever edited behind an approval. */
  lemma {:induction false} UnreopenedIsSeen(ops: seq<Op>)
    requires IsRun(ops) && NeverReopens(ops)
    ensures Unseen(ops) == {} && Closed(Run(ops))
  {
    hide Apply;
    if ops != [] {
      var init, op := ops[..|ops| - 1], ops[|ops| - 1];
      UnreopenedIsSeen(init);
      ClosedStep(Run(init), op);
      assert !EditsUnseen(Run(init), op);
    }
  }

  // ---------------------------------------------------------------- why that hypothesis is there

  lemma Next(ops: seq<Op>, st: State, op: Op, st': State)
    requires IsRun(ops) && Run(ops) == st && Fresh(st, op) && Apply(st, op) == (st', None)
    ensures IsRun(ops + [op]) && Run(ops + [op]) == st'
  {
    hide Apply;
    assert (ops + [op])[..|ops|] == ops;
  }

  const LISTING := Opportunity(O.Selected, 1, "https://client.example", None, None, Copy(None, None, None))
  const SHOP := Env(map[1 := LISTING], map[1 := Publisher(Free, None, Manual)])

  datatype Env = Env(opps: map<OpportunityId, Opportunity>, pubs: map<PublisherId, Publisher>)

  function Titled(t: string): Copy {
    Copy(Some(t), None, None)
  }

  /** The submission 5 with title `t`, at some point before it is sent. */
  function Draft(status: Status, t: string, approved: bool): Submission {
    Submission(1, status, Titled(t), "https://client.example", None, Manual,
               if approved then Some(9) else None, if approved then Some(1.0) else None, None, None, None, None, None)
  }

  function At(s: Submission, reviewed: map<SubmissionId, Copy>): State {
    State(Db(map[5 := s], SHOP.opps, SHOP.pubs), [], reviewed)
  }

  /** Approve one title, reopen the row, edit the title, prepare it again. */
  function Reopened(): seq<Op> {
    [] + [Environment(SHOP.opps, SHOP.pubs)] + [LISTED] + [Prepare(5)] + [Approve(5, 9, None, 1.0)]
    + [Transition(5, InProgress, None)] + [EDITED] + [Prepare(5)]
  }

  lemma SingleRowOk(s: Submission)
    requires Gated(s)
    ensures Constraints(map[5 := s])
  {
  }

  lemma OneCall(s: Submission, reviewed: map<SubmissionId, Copy>, op: Op, s': Submission)
    requires Written(At(s, reviewed).db, op) == Ok(Put(At(s, reviewed).db, 5, s')) && Gated(s') && !op.Execute? && (op.Approve? ==> op.id == 5)
    ensures Apply(At(s, reviewed), op) == (At(s', if op.Approve? then reviewed[5 := s'.copy] else reviewed), None)
  {
    hide Written, Constraints;
    assert map[5 := s][5 := s'] == map[5 := s'];
    SingleRowOk(s');
  }

  const LISTED := Create(5, CreateRequest(1, Titled("reviewed"), None, None, None))
  const EDITED := Update(5, UpdateRequest(Titled("edited"), None, None))
  const REVIEWED := map[5 := Titled("reviewed")]

  lemma ReopenedBegins()
    ensures Apply(EMPTY, Environment(SHOP.opps, SHOP.pubs)) == (State(Db(map[], SHOP.opps, SHOP.pubs), [], map[]), None)
    ensures Apply(State(Db(map[], SHOP.opps, SHOP.pubs), [], map[]), LISTED) == (At(Draft(Ready, "reviewed", false), map[]), None)
  {
    SingleRowOk(Draft(Ready, "reviewed", false));
  }

  lemma Prepared(t: string, approved: bool, status: Status, reviewed: map<SubmissionId, Copy>)
    requires t != "" && (status == Ready || status == InProgress)
    ensures Apply(At(Draft(status, t, approved), reviewed), Prepare(5)) == (At(Draft(PendingApproval, t, approved), reviewed), None)
  {
    OneCall(Draft(status, t, approved), reviewed, Prepare(5), Draft(PendingApproval, t, approved));
  }

  lemma ReopenedGoesOn()
    ensures Apply(At(Draft(PendingApproval, "reviewed", false), map[]), Approve(5, 9, None, 1.0))
         == (At(Draft(PendingApproval, "reviewed", true), REVIEWED), None)
    ensures Apply(At(Draft(PendingApproval, "reviewed", true), REVIEWED), Transition(5, InProgress, None))
         == (At(Draft(InProgress, "reviewed", true), REVIEWED), None)
    ensures Apply(At(Draft(InProgress, "reviewed", true), REVIEWED), EDITED)
         == (At(Draft(InProgress, "edited", true), REVIEWED), None)
  {
    hide Apply, Constraints;
    OneCall(Draft(PendingApproval, "reviewed", false), map[], Approve(5, 9, None, 1.0), Draft(PendingApproval, "reviewed", true));
    OneCall(Draft(PendingApproval, "reviewed", true), REVIEWED, Transition(5, InProgress, None), Draft(InProgress, "reviewed", true));
    OneCall(Draft(InProgress, "reviewed", true), REVIEWED, EDITED, Draft(InProgress, "edited", true));
  }

  lemma ReopenedReaches()
    ensures IsRun(Reopened()) && Run(Reopened()) == At(Draft(PendingApproval, "edited", true), REVIEWED)
  {
    assert IsRun([]) && Run([]) == EMPTY;
    hide Apply, Run, IsRun, Draft, Titled;
    ReopenedBegins();
    Prepared("reviewed", false, Ready, map[]);
    ReopenedGoesOn();
    Prepared("edited", true, InProgress, REVIEWED);
    var t: seq<Op> := [];
    Next(t, EMPTY, Environment(SHOP.opps, SHOP.pubs), State(Db(map[], SHOP.opps, SHOP.pubs), [], map[]));
    var t1 := t + [Environment(SHOP.opps, SHOP.pubs)];
    Next(t1, State(Db(map[], SHOP.opps, SHOP.pubs), [], map[]), LISTED, At(Draft(Ready, "reviewed", false), map[]));
    var t2 := t1 + [LISTED];
    Next(t2, At(Draft(Ready, "reviewed", false), map[]), Prepare(5), At(Draft(PendingApproval, "reviewed", false), map[]));
    var t3 := t2 + [Prepare(5)];
    Next(t3, At(Draft(PendingApproval, "reviewed", false), map[]), Approve(5, 9, None, 1.0), At(Draft(PendingApproval, "reviewed", true), REVIEWED));
    var t4 := t3 + [Approve(5, 9, None, 1.0)];
    Next(t4, At(Draft(PendingApproval, "reviewed", true), REVIEWED), Transition(5, InProgress, None), At(Draft(InProgress, "reviewed", true), REVIEWED));
    var t5 := t4 + [Transition(5, InProgress, None)];
    Next(t5, At(Draft(InProgress, "reviewed", true), REVIEWED), EDITED, At(Draft(InProgress, "edited", true), REVIEWED));
    Next(t5 + [EDITED], At(Draft(InProgress, "edited", true), REVIEWED), Prepare(5), At(Draft(PendingApproval, "edited", true), REVIEWED));
  }

  /** Without it the gate leaks: a title nobody approved goes out under the old approval. */
  lemma UnreviewedCopyCanBeSent()
    ensures
      var op := Execute(5, ExecuteRequest(None, false, None), false, Reply(Delivered, None, None), 2.0, "");
      var st' := Apply(Run(Reopened()), op).0;
      IsRun(Reopened()) && |st'.sent| == 1
      && st'.sent[0].request.copy == Titled("edited") && Look(st'.reviewed, 5) == Some(Titled("reviewed"))
  {
    ReopenedReaches();
    hide Run, IsRun, Reopened, ExecuteRow;
  }

  // ---------------------------------------------------------------- the guard at work

  function Retried(status: Status): State {
    State(Db(map[5 := Draft(status, "first", false)], SHOP.opps, SHOP.pubs), [], map[])
  }

  const BESIDE := State(Db(map[5 := Draft(Failed, "first", false), 6 := Draft(Ready, "second", false)], SHOP.opps, SHOP.pubs), [], map[])

  /** Fail one submission by hand, then start another for the same opportunity. */
  function Replaced(): seq<Op> {
    [] + [Environment(SHOP.opps, SHOP.pubs)] + [Create(5, CreateRequest(1, Titled("first"), None, None, None))]
    + [Transition(5, Failed, None)] + [Create(6, CreateRequest(1, Titled("second"), None, None, None))]
  }

  lemma ReplacedBegins()
    ensures Apply(State(Db(map[], SHOP.opps, SHOP.pubs), [], map[]), Create(5, CreateRequest(1, Titled("first"), None, None, None)))
         == (Retried(Ready), None)
  {
    SingleRowOk(Draft(Ready, "first", false));
    hide Constraints;
  }

  lemma ReplacedFails()
    ensures Apply(Retried(Ready), Transition(5, Failed, None)) == (Retried(Failed), None)
  {
    hide Apply, Constraints;
    OneCall(Draft(Ready, "first", false), map[], Transition(5, Failed, None), Draft(Failed, "first", false));
  }

  lemma BesideIsAllowed()
    ensures Constraints(BESIDE.db.subs)
    ensures Retried(Failed).db.subs[6 := Draft(Ready, "second", false)] == BESIDE.db.subs
  {
  }

  lemma ReplacedEnds()
    ensures Apply(Retried(Failed), Create(6, CreateRequest(1, Titled("second"), None, None, None))) == (BESIDE, None)
  {
    BesideIsAllowed();
    hide Constraints;
  }

  lemma ReplacedReaches()
    ensures IsRun(Replaced()) && Run(Replaced()) == BESIDE
  {
    assert IsRun([]) && Run([]) == EMPTY;
    hide Apply, Run, IsRun, Draft, Titled;
    ReopenedBegins();
    ReplacedBegins();
    ReplacedFails();
    ReplacedEnds();
    var open := Environment(SHOP.opps, SHOP.pubs);
    var first, second := Create(5, CreateRequest(1, Titled("first"), None, None, None)), Create(6, CreateRequest(1, Titled("second"), None, None, None));
    Next([], EMPTY, open, State(Db(map[], SHOP.opps, SHOP.pubs), [], map[]));
    Next([] + [open], State(Db(map[], SHOP.opps, SHOP.pubs), [], map[]), first, Retried(Ready));
    Next([] + [open] + [first], Retried(Ready), Transition(5, Failed, None), Retried(Failed));
    Next([] + [open] + [first] + [Transition(5, Failed, None)], Retried(Failed), second, BESIDE);
  }

  /** In that reachable table the retry of the failed submission is what the unique index rejects. */
  lemma RetryCanTripTheIndex()
    ensures IsRun(Replaced()) && Apply(Run(Replaced()), Transition(5, Ready, None)) == (Run(Replaced()), Some(IntegrityError))
  {
    ReplacedReaches();
    hide Run, IsRun, Replaced;
    var op := Transition(5, Ready, None);
    assert BESIDE.db.subs[6].opportunity == 1 && IsLive(BESIDE.db.subs[6].status);
    assert RevivesBesideLive(BESIDE.db, op);
    RevivalTrips(BESIDE.db, op);
  }
}
