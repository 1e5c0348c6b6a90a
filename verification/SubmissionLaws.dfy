/**
 * What each service call makes of a submission, stated on the fields of the row and of its opportunity before and
 * after: how a provider's reply becomes a status, what a check of the link decides, what an edit costs.
 */
module SubmissionLaws {
  import opened Prelude
  import opened SubmissionWorkflow
  import opened Submissions
  import opened SubmissionRuns
  import O = OpportunityWorkflow

  /** Nothing but this row and this opportunity may have changed. */
  ghost predicate OnlyAt(db: Db, db': Db, id: SubmissionId, o: OpportunityId) {
    db'.pubs == db.pubs && db'.subs.Keys == db.subs.Keys && db'.opps.Keys == db.opps.Keys
    && (forall i :: i in db.subs && i != id ==> db'.subs[i] == db.subs[i])
    && forall i :: i in db.opps && i != o ==> db'.opps[i] == db.opps[i]
  }

  // ---------------------------------------------------------------- executing

  /** The provider is called exactly for an approved submission awaiting sending whose publisher is FREE, once. */
  lemma SendsExactlyWhen(st: State, op: Op)
    requires op.Execute?
    ensures
      var db := st.db;
      |Apply(st, op).0.sent| == |st.sent| + 1
      <==> op.id in db.subs && db.subs[op.id].status == PendingApproval && db.subs[op.id].approvedBy.Some?
           && db.subs[op.id].opportunity in db.opps && db.opps[db.subs[op.id].opportunity].publisher in db.pubs
           && db.pubs[db.opps[db.subs[op.id].opportunity].publisher].pricing == Free
    ensures Apply(st, op).0.sent == st.sent || |Apply(st, op).0.sent| == |st.sent| + 1
  {
    hide ExecuteWrite, Constraints, RequestFor;
  }

  /** An execution that is refused, or whose provider raises, changes no table. */
  lemma FailedCallChangesNothing(st: State, op: Op)
    ensures Apply(st, op).1.Some? ==> Apply(st, op).0.db == st.db && Apply(st, op).0.reviewed == st.reviewed
    ensures op.Execute? && op.reply.Raises? ==> Apply(st, op).1.Some?
  {
    hide Constraints, SentAfter, ExecuteRow, UpdateRow, TransitionRow, PrepareRow, ApproveRow, VerifyRow, CreateRow;
  }

  lemma ExecutionWrites(st: State, op: Op)
    requires op.Execute? && Apply(st, op).1.None?
    ensures
      var db, db' := st.db, Apply(st, op).0.db;
      op.reply.Reply? && op.id in db.subs && db.subs[op.id].opportunity in db.opps
      && db.subs[op.id].status == PendingApproval && db.subs[op.id].approvedBy.Some?
      && OnlyAt(db, db', op.id, db.subs[op.id].opportunity)
      && (db'.subs[op.id], Advance(db.opps[db.subs[op.id].opportunity], ExecuteRow(db.subs[op.id], op.execute, op.reply, op.at, op.stamp).1))
         == (ExecuteRow(db.subs[op.id], op.execute, op.reply, op.at, op.stamp).0, db'.opps[db.subs[op.id].opportunity])
  {
    hide ExecuteRow, Advance, Constraints, SentAfter, ExecuteRefusal;
    if op.id in st.db.subs && ExecuteRefusal(st.db, st.db.subs[op.id]).None? {
      ExecutesOnlyApproved(st.db, st.db.subs[op.id]);
    }
  }

  /**
   * The provider's reply decides the row: broken means FAILED with its reason and no sending time, blocked means
   * SUBMITTED by hand, live or marked published means PUBLISHED, and anything else waits for verification.
   */
  lemma ReplyDecidesTheRow(st: State, op: Op)
    requires op.Execute? && Apply(st, op).1.None?
    ensures
      var s, s', reply := st.db.subs[op.id], Apply(st, op).0.db.subs[op.id], op.reply;
      var published := op.execute.markPublished || reply.status == Live;
      (s'.status == Failed <==> reply.status == Broken)
      && (s'.status == Submitted <==> reply.status == Blocked)
      && (s'.status == Published <==> reply.status != Broken && reply.status != Blocked && published)
      && (s'.status == VerificationPending <==> reply.status != Broken && reply.status != Blocked && !published)
      && s'.submittedAt == (if reply.status == Broken then s.submittedAt else Some(op.at))
      && s'.publishedAt == (if s'.status == Published then Some(op.at) else s.publishedAt)
      && s'.via == (if reply.status == Blocked then Manual else s.via)
      && s'.submittedUrl == (if reply.status == Broken || reply.url.None? || reply.url.value == "" then s.submittedUrl else reply.url)
  {
    ExecutionWrites(st, op);
    hide Apply, AppendNote, Capped;
  }

  /** A failure keeps the provider's reason, cut to 500 characters, and nothing but a failure writes one. */
  lemma FailureIsRecorded(st: State, op: Op)
    requires op.Execute? && Apply(st, op).1.None?
    ensures
      var s, s', reason := st.db.subs[op.id], Apply(st, op).0.db.subs[op.id], op.reply.reason;
      (op.reply.status != Broken ==> s'.failureReason == s.failureReason)
      && (op.reply.status == Broken ==>
            s'.failureReason.Some? && s' == s.(status := Failed, failureReason := s'.failureReason)
            && (if reason.None? || reason.value == "" then s'.failureReason.value == "submission_failed"
                else |s'.failureReason.value| == (if |reason.value| <= 500 then |reason.value| else 500)
                     && s'.failureReason.value <= reason.value))
  {
    ExecutionWrites(st, op);
    hide Apply, AppendNote;
  }

  /** Approval, words, target and the opportunity it belongs to survive every execution. */
  lemma ExecutionKeepsTheApproval(st: State, op: Op)
    requires op.Execute? && Apply(st, op).1.None?
    ensures
      var s, s' := st.db.subs[op.id], Apply(st, op).0.db.subs[op.id];
      s'.approvedBy == s.approvedBy && s'.approvedAt == s.approvedAt && s'.copy == s.copy
      && s'.opportunity == s.opportunity && s'.targetUrl == s.targetUrl && s'.verifiedAt == s.verifiedAt
      && OnlyAt(st.db, Apply(st, op).0.db, op.id, s.opportunity)
  {
    ExecutionWrites(st, op);
    hide Apply, AppendNote, Capped;
  }

  /**
   * The opportunity follows as far as its own table lets it: a READY one becomes SUBMITTED exactly when the row did or
   * awaits verification, a SUBMITTED one becomes PUBLISHED or FAILED with the row, and no other moves at all.
   */
  lemma OpportunityFollows(st: State, op: Op)
    requires op.Execute? && Apply(st, op).1.None?
    ensures
      var db' := Apply(st, op).0.db;
      var o, row := st.db.subs[op.id].opportunity, db'.subs[op.id].status;
      var before, after := st.db.opps[o].status, db'.opps[o].status;
      db'.opps[o] == st.db.opps[o].(status := after)
      && (before == O.Ready ==> after == if row == Submitted || row == VerificationPending then O.Submitted else O.Ready)
      && (before == O.Submitted ==> after == if row == Published then O.Published else if row == Failed then O.Failed else O.Submitted)
      && (before != O.Ready && before != O.Submitted ==> after == before)
  {
    hide Apply, ExecuteRow, Advance, OnlyAt;
    ExecutionWrites(st, op);
    var o := st.db.subs[op.id].opportunity;
    var (row, target) := ExecuteRow(st.db.subs[op.id], op.execute, op.reply, op.at, op.stamp);
    TargetOfRow(st.db.subs[op.id], op.execute, op.reply, op.at, op.stamp);
    AdvanceMoves(st.db.opps[o], target);
  }

  lemma TargetOfRow(s: Submission, e: ExecuteRequest, reply: ProviderReply, at: real, stamp: string)
    requires reply.Reply?
    ensures
      var (row, target) := ExecuteRow(s, e, reply, at, stamp);
      row.status in {Failed, Submitted, Published, VerificationPending}
      && target == if row.status == Failed then O.Failed else if row.status == Published then O.Published else O.Submitted
  {
    hide AppendNote, Capped, Or;
  }

  lemma AdvanceMoves(o: Opportunity, target: O.Status)
    requires target in {O.Submitted, O.Published, O.Failed}
    ensures
      var after := Advance(o, target);
      after == o.(status := after.status)
      && (o.status == O.Ready ==> after.status == if target == O.Submitted then O.Submitted else O.Ready)
      && (o.status == O.Submitted ==> after.status == target)
      && (o.status != O.Ready && o.status != O.Submitted ==> after.status == o.status)
  {
  }

  // ---------------------------------------------------------------- verifying

  /** The call that writes one row only. */
  lemma RowCallWrites(st: State, op: Op)
    requires (op.Verify? || op.Update? || op.Approve? || op.Prepare?) && Apply(st, op).1.None?
    ensures op.id in st.db.subs && op.id in Apply(st, op).0.db.subs
    ensures
      var s, s' := st.db.subs[op.id], Apply(st, op).0.db.subs[op.id];
      Ok(s') == match op
                case Verify(_, v, at) => VerifyRow(s, v, at)
                case Update(_, u) => UpdateRow(s, u)
                case Approve(_, approver, note, at) => ApproveRow(s, approver, note, at)
                case _ => PrepareRow(s)
    ensures Apply(st, op).0.db == st.db.(subs := st.db.subs[op.id := Apply(st, op).0.db.subs[op.id]])
  {
    hide VerifyRow, UpdateRow, ApproveRow, PrepareRow, Constraints, SentAfter;
  }

  /**
   * A submission ends VERIFIED exactly when the live check, or without one the person, found the link. Otherwise it goes
   * on awaiting verification with the reason kept, and is never failed by that.
   */
  lemma VerifiedExactlyWhenFound(st: State, op: Op)
    requires op.Verify? && Apply(st, op).1.None?
    ensures
      var s, s', v := st.db.subs[op.id], Apply(st, op).0.db.subs[op.id], op.verify;
      var found := if v.live.Some? then v.live.value.verified else v.manual == Some(true);
      (s'.status == Verified <==> found)
      && (found ==> s'.verifiedAt == Some(op.at) && s'.failureReason == s.failureReason
                    && s'.publishedAt == (if s.status == Published || s.publishedAt.Some? then s.publishedAt else Some(op.at)))
      && (!found ==> s'.verifiedAt == s.verifiedAt && s'.publishedAt == s.publishedAt && s'.failureReason.Some?
                     && s'.status == (if s.status == Published then Published else VerificationPending))
      && (s.status == Submitted || s.status == VerificationPending || s.status == Published)
      && (v.live.Some? || v.manual.Some?)
      && s' == s.(status := s'.status, verifiedAt := s'.verifiedAt, publishedAt := s'.publishedAt, failureReason := s'.failureReason)
  {
    RowCallWrites(st, op);
    hide Apply, Capped;
  }

  // ---------------------------------------------------------------- editing and reviewing

  /** The edit gives this field a value it does not have. */
  predicate Alters(given: Text, field: Text) {
    given.Some? && given != field
  }

  /**
   * An edit that alters anything on a submission awaiting approval sends it back to IN_PROGRESS without its approval; any
   * other edit leaves status and approval alone. What is not given is not touched, and what was sent cannot be edited.
   */
  lemma EditCostsTheApproval(st: State, op: Op)
    requires op.Update? && Apply(st, op).1.None?
    ensures
      var s, s', u := st.db.subs[op.id], Apply(st, op).0.db.subs[op.id], op.update;
      var alters := Alters(u.copy.title, s.copy.title) || Alters(u.copy.description, s.copy.description)
                    || Alters(u.copy.anchor, s.copy.anchor) || Alters(u.notes, s.notes) || (u.via.Some? && u.via.value != s.via);
      (s.status == Ready || s.status == InProgress || s.status == PendingApproval)
      && (if alters && s.status == PendingApproval then s'.status == InProgress && s'.approvedBy == None && s'.approvedAt == None
          else s'.status == s.status && s'.approvedBy == s.approvedBy && s'.approvedAt == s.approvedAt)
      && s'.copy.title == (if u.copy.title.Some? then u.copy.title else s.copy.title)
      && s'.copy.description == (if u.copy.description.Some? then u.copy.description else s.copy.description)
      && s'.copy.anchor == (if u.copy.anchor.Some? then u.copy.anchor else s.copy.anchor)
      && s' == s.(status := s'.status, approvedBy := s'.approvedBy, approvedAt := s'.approvedAt, copy := s'.copy, notes := s'.notes, via := s'.via)
  {
    RowCallWrites(st, op);
    hide Apply;
  }

  /** Approval is given only to a submission awaiting it, review asked only for one with a title, and neither changes its words. */
  lemma ReviewKeepsTheWords(st: State, op: Op)
    requires (op.Approve? || op.Prepare?) && Apply(st, op).1.None?
    ensures
      var s, s' := st.db.subs[op.id], Apply(st, op).0.db.subs[op.id];
      s'.copy == s.copy && s'.status == PendingApproval
      && (op.Approve? ==> s.status == PendingApproval && s'.approvedBy == Some(op.approver) && s'.approvedAt == Some(op.at))
      && (op.Prepare? ==> (s.status == Ready || s.status == InProgress) && s.copy.title.Some? && s.copy.title.value != ""
                          && s' == s.(status := PendingApproval))
  {
    RowCallWrites(st, op);
    hide Apply;
  }

  /** A submission is created exactly for a selected or ready opportunity of a FREE publisher with no other live submission. */
  lemma CreatedExactlyWhen(st: State, op: Op)
    requires op.Create? && Inv(st.db) && op.id !in st.db.subs
    ensures
      var db, o := st.db, op.create.opportunity;
      Apply(st, op).1.None?
      <==> o in db.opps && db.opps[o].publisher in db.pubs && db.pubs[db.opps[o].publisher].pricing == Free
           && (db.opps[o].status == O.Selected || db.opps[o].status == O.Ready)
           && forall id :: id in db.subs && db.subs[id].opportunity == o ==> db.subs[id].status == Rejected || db.subs[id].status == Failed
    ensures Apply(st, op).1.None? ==>
      var s' := Apply(st, op).0.db.subs[op.id];
      s'.status == Ready && s'.opportunity == op.create.opportunity && s'.approvedBy == None && s'.submittedAt == None
      && s'.targetUrl == st.db.opps[op.create.opportunity].targetUrl
  {
    hide Constraints, SentAfter, ResolvedCopy, Or, Inv;
    if Written(st.db, op).Ok? {
      GuardTripsExactlyWhen(st.db, op);
    }
  }

  /** `a`, unless it is absent or empty, and then `b`. */
  function Chosen(a: Text, b: Text): Text {
    if a.Some? && a.value != "" then a else b
  }

  /** Without words of the caller's a new submission takes the approved draft's, never the suggestions, if there is a draft. */
  lemma WordsOfANewSubmission(st: State, op: Op)
    requires op.Create? && Apply(st, op).1.None?
    ensures op.id in Apply(st, op).0.db.subs && op.create.opportunity in st.db.opps
    ensures
      var words, c, suggested := Apply(st, op).0.db.subs[op.id].copy, op.create, st.db.opps[op.create.opportunity].suggested;
      if c.draft.Some? then
        words == Copy(Chosen(c.copy.title, Chosen(c.draft.value.title, None)),
                      Chosen(c.copy.description, Chosen(c.draft.value.description, None)),
                      Chosen(c.copy.anchor, Chosen(c.draft.value.anchor, None)))
      else
        words == Copy(Chosen(c.copy.title, suggested.title), Chosen(c.copy.description, suggested.description),
                      Chosen(c.copy.anchor, suggested.anchor))
  {
    hide Constraints, SentAfter, LiveElsewhere;
  }

  /** What the provider is handed: the row's target and words, the caller's address or the row's, by form only for form rows. */
  lemma WhatIsHandedOver(st: State, op: Op)
    requires op.Execute? && |Apply(st, op).0.sent| == |st.sent| + 1
    ensures op.id in st.db.subs && st.db.subs[op.id].opportunity in st.db.opps
    ensures
      var s, e := st.db.subs[op.id], Apply(st, op).0.sent[|st.sent|];
      Apply(st, op).0.sent[..|st.sent|] == st.sent
      && e.id == op.id && (e.byForm <==> s.via == Form && op.hasForm)
      && e.request.targetUrl == s.targetUrl && e.request.copy == s.copy
      && e.request.submissionUrl == Chosen(op.execute.submittedUrl, s.submittedUrl)
      && e.request.category == st.db.opps[s.opportunity].category
  {
    hide ExecuteWrite, Constraints;
  }

  /** Notes only ever grow: a blocked reply and the caller's own note are added below what was there. */
  lemma NotesGrow(st: State, op: Op)
    requires op.Execute? && Apply(st, op).1.None?
    ensures
      var s, s', own := st.db.subs[op.id], Apply(st, op).0.db.subs[op.id], op.execute.notes;
      var line := if op.reply.status == Blocked then
                    "[" + op.stamp + "] manual required: " + (if op.reply.reason.Some? then op.reply.reason.value else "None")
                  else if op.reply.status != Broken && own.Some? && own.value != "" then "[" + op.stamp + "] " + own.value
                  else "";
      if line == "" then s'.notes == s.notes
      else s'.notes == Some(if s.notes.Some? && s.notes.value != "" then s.notes.value + "\n" + line else line)
  {
    hide Apply, Advance, OnlyAt, Capped;
    ExecutionWrites(st, op);
    var reason := if op.reply.reason.Some? then op.reply.reason.value else "None";
    assert "[" + op.stamp + "] " + ("manual required: " + reason) == "[" + op.stamp + "] manual required: " + reason;
  }

  /** A manual transition is granted exactly along the table, with an approval where the gate asks for one, unless it revives a rival. */
  lemma TransitionExactlyWhen(st: State, op: Op)
    requires op.Transition? && Inv(st.db)
    ensures
      Apply(st, op).1.None?
      <==> op.id in st.db.subs && CanTransition(st.db.subs[op.id].status, op.target)
           && (op.target in {Submitted, Published, VerificationPending, Verified} ==> st.db.subs[op.id].approvedBy.Some?)
           && !RevivesBesideLive(st.db, op)
    ensures Apply(st, op).1.None? ==>
      var s, s' := st.db.subs[op.id], Apply(st, op).0.db.subs[op.id];
      s' == s.(status := op.target, failureReason := s'.failureReason)
      && (op.target != Failed || op.reason.None? || op.reason.value == "" ==> s'.failureReason == s.failureReason)
      && (op.target == Failed && op.reason.Some? && op.reason.value != "" ==>
            s'.failureReason == Some(if |op.reason.value| > 500 then op.reason.value[..500] else op.reason.value))
  {
    hide Constraints, SentAfter, Inv, CanTransition, RevivesBesideLive;
    if Written(st.db, op).Ok? {
      GuardTripsExactlyWhen(st.db, op);
    }
  }

  /** Deleting removes that row and nothing else. */
  lemma DeletionRemovesOne(st: State, op: Op)
    requires op.Delete? && Inv(st.db)
    ensures Apply(st, op).1.None? <==> op.id in st.db.subs
    ensures Apply(st, op).1.None? ==> Apply(st, op).0.db == st.db.(subs := st.db.subs - {op.id})
  {
    hide Constraints, SentAfter, Inv;
    if Written(st.db, op).Ok? {
      GuardTripsExactlyWhen(st.db, op);
    }
  }
}
