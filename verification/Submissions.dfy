/**
 * The submission service: prepare, edit, review, approve, execute, verify, delete.
 *
 * `Apply` is what one service call leaves committed. An error rolls the request back, so the tables are
 * then unchanged; a request handed to a provider is not taken back. The database's partial unique index
 * and its approval CHECK are the guard `Constraints` on every write.
 */
module Submissions {
  import opened Prelude
  import opened SubmissionWorkflow
  import O = OpportunityWorkflow

  type SubmissionId = nat
  type OpportunityId = nat
  type PublisherId = nat
  type UserId = nat
  type Text = Option<string>

  datatype Method = Manual | Form | Email | Api | AccountRequired | Unknown
  datatype Pricing = Free | Paid | Mixed | UnknownPricing

  datatype Publisher = Publisher(pricing: Pricing, submissionUrl: Text, via: Method)

  /** The words a person reviews and a provider is given. */
  datatype Copy = Copy(title: Text, description: Text, anchor: Text)

  datatype Opportunity = Opportunity(
    status: O.Status,
    publisher: PublisherId,
    targetUrl: string,
    submissionUrl: Text,
    category: Text,
    suggested: Copy)

  datatype Submission = Submission(
    opportunity: OpportunityId,
    status: Status,
    copy: Copy,
    targetUrl: string,
    submittedUrl: Text,
    via: Method,
    approvedBy: Option<UserId>,
    approvedAt: Option<real>,
    submittedAt: Option<real>,
    publishedAt: Option<real>,
    verifiedAt: Option<real>,
    failureReason: Text,
    notes: Text)

  datatype Db = Db(
    subs: map<SubmissionId, Submission>,
    opps: map<OpportunityId, Opportunity>,
    pubs: map<PublisherId, Publisher>)

  datatype ProviderRequest = ProviderRequest(targetUrl: string, submissionUrl: Text, copy: Copy, category: Text)

  datatype ProviderStatus = Recorded | Delivered | Live | Blocked | Broken

  datatype ProviderReply = Raises | Reply(status: ProviderStatus, url: Text, reason: Text)

  datatype Sent = Sent(id: SubmissionId, byForm: bool, request: ProviderRequest)

  /** `reviewed` remembers the copy on each row when it was last approved; no code reads it. */
  datatype State = State(db: Db, sent: seq<Sent>, reviewed: map<SubmissionId, Copy>)

  datatype Error =
    | NotFound | NotFree | NotSubmittable | AlreadyActive | NotEditable | IllegalTransition | ApprovalRequired
    | ContentMissing | NotAwaitingApproval | ProviderFailed | NotVerifiable | UrlRequired | ResultRequired
    | IntegrityError

  datatype CreateRequest = CreateRequest(opportunity: OpportunityId, copy: Copy, via: Option<Method>, notes: Text, draft: Option<Copy>)
  datatype UpdateRequest = UpdateRequest(copy: Copy, via: Option<Method>, notes: Text)
  datatype ExecuteRequest = ExecuteRequest(submittedUrl: Text, markPublished: bool, notes: Text)
  datatype LinkCheck = LinkCheck(verified: bool, error: Text)

  /** `live` is the verifier's finding when the page is fetched; otherwise a person's `manual` answer counts. */
  datatype VerifyRequest = VerifyRequest(publishedUrl: Text, live: Option<LinkCheck>, manual: Option<bool>)

  datatype Op =
    | Create(id: SubmissionId, create: CreateRequest)
    | Update(id: SubmissionId, update: UpdateRequest)
    | Transition(id: SubmissionId, target: Status, reason: Text)
    | Prepare(id: SubmissionId)
    | Approve(id: SubmissionId, approver: UserId, note: Text, at: real)
    | Execute(id: SubmissionId, execute: ExecuteRequest, hasForm: bool, reply: ProviderReply, at: real, stamp: string)
    | Verify(id: SubmissionId, verify: VerifyRequest, at: real)
    | Delete(id: SubmissionId)
    | Environment(opps: map<OpportunityId, Opportunity>, pubs: map<PublisherId, Publisher>)

  // ---------------------------------------------------------------- small helpers

  predicate Blank(t: Text) {
    t.None? || t.value == ""
  }

  /** `a or b` on optional text: the empty string counts as absent. */
  function Or(a: Text, b: Text): Text {
    if Blank(a) then b else a
  }

  function Capped(s: string): string {
    if |s| <= 500 then s else s[..500]
  }

  function Shown(t: Text): string {
    if t.Some? then t.value else "None"
  }

  function AppendNote(existing: Text, stamp: string, addition: string): Text {
    var line := "[" + stamp + "] " + addition;
    if Blank(existing) then Some(line) else Some(existing.value + "\n" + line)
  }

  /** A field of an edit: absent means leave alone. */
  function Edited(old_: Text, value: Text): Text {
    if value.Some? then value else old_
  }

  function EditedCopy(c: Copy, e: Copy): Copy {
    Copy(Edited(c.title, e.title), Edited(c.description, e.description), Edited(c.anchor, e.anchor))
  }

  function DefaultMethod(m: Method): Method {
    if m == Unknown then Manual else m
  }

  /** The words a new submission starts with: the caller's, else the approved draft's, else the suggestions. */
  function ResolvedCopy(c: CreateRequest, o: Opportunity): Copy {
    var fallback := if c.draft.Some? then c.draft.value else o.suggested;
    var chosen := Copy(Or(c.copy.title, fallback.title), Or(c.copy.description, fallback.description), Or(c.copy.anchor, fallback.anchor));
    if c.draft.Some? then Copy(Or(chosen.title, None), Or(chosen.description, None), Or(chosen.anchor, None)) else chosen
  }

  predicate LiveElsewhere(subs: map<SubmissionId, Submission>, o: OpportunityId, except: Option<SubmissionId>) {
    exists id :: id in subs && subs[id].opportunity == o && IsLive(subs[id].status) && except != Some(id)
  }

  predicate Rivals(s: Submission, t: Submission) {
    s.opportunity == t.opportunity && IsLive(s.status) && IsLive(t.status)
  }

  /** The partial unique index: one live submission per opportunity. */
  predicate UniqueLive(subs: map<SubmissionId, Submission>) {
    forall a, b :: a in subs && b in subs && Rivals(subs[a], subs[b]) ==> a == b
  }

  predicate Gated(s: Submission) {
    RequiresApproval(s.status) ==> s.approvedBy.Some? && s.approvedAt.Some?
  }

  predicate Constraints(subs: map<SubmissionId, Submission>) {
    UniqueLive(subs) && forall id :: id in subs ==> Gated(subs[id])
  }

  // ---------------------------------------------------------------- what each call writes

  function Put(db: Db, id: SubmissionId, s: Submission): Db {
    db.(subs := db.subs[id := s])
  }

  function IsFree(db: Db, o: OpportunityId): Result<Publisher, Error> {
    if o !in db.opps || db.opps[o].publisher !in db.pubs then Err(NotFound)
    else
      var p := db.pubs[db.opps[o].publisher];
      if p.pricing != Free then Err(NotFree) else Ok(p)
  }

  function NewSubmission(c: CreateRequest, o: Opportunity, p: Publisher): Submission {
    Submission(
      c.opportunity, INITIAL, ResolvedCopy(c, o), o.targetUrl, Or(o.submissionUrl, p.submissionUrl),
      if c.via.Some? then c.via.value else DefaultMethod(p.via),
      None, None, None, None, None, None, c.notes)
  }

  function CreateRow(db: Db, id: SubmissionId, c: CreateRequest): Result<Db, Error> {
    var free := IsFree(db, c.opportunity);
    if free.Err? then Err(free.error)
    else
      var o := db.opps[c.opportunity];
      if !O.IsSubmittable(o.status) then Err(NotSubmittable)
      else if LiveElsewhere(db.subs, c.opportunity, None) then Err(AlreadyActive)
      else Ok(Put(db, id, NewSubmission(c, o, free.value)))
  }

  function UpdateRow(s: Submission, u: UpdateRequest): Result<Submission, Error> {
    if s.status != Ready && s.status != InProgress && s.status != PendingApproval then Err(NotEditable)
    else
      var edited := s.(
        copy := EditedCopy(s.copy, u.copy),
        notes := Edited(s.notes, u.notes),
        via := if u.via.Some? then u.via.value else s.via);
      if edited != s && s.status == PendingApproval then
        Ok(edited.(status := InProgress, approvedBy := None, approvedAt := None))
      else Ok(edited)
  }

  function TransitionRow(s: Submission, target: Status, reason: Text): Result<Submission, Error> {
    if !CanTransition(s.status, target) then Err(IllegalTransition)
    else if RequiresApproval(target) && s.approvedBy.None? then Err(ApprovalRequired)
    else
      Ok(s.(status := target,
            failureReason := if target == Failed && !Blank(reason) then Some(Capped(reason.value)) else s.failureReason))
  }

  function PrepareRow(s: Submission): Result<Submission, Error> {
    if s.status != Ready && s.status != InProgress then Err(IllegalTransition)
    else if Blank(s.copy.title) then Err(ContentMissing)
    else Ok(s.(status := PendingApproval))
  }

  function ApproveRow(s: Submission, approver: UserId, note: Text, at: real): Result<Submission, Error> {
    if s.status != PendingApproval then Err(NotAwaitingApproval)
    else Ok(s.(approvedBy := Some(approver), approvedAt := Some(at), notes := if Blank(note) then s.notes else note))
  }

  /** The row and the opportunity status asked for after a provider's reply. */
  function ExecuteRow(s: Submission, e: ExecuteRequest, reply: ProviderReply, at: real, stamp: string): (Submission, O.Status)
    requires reply.Reply?
  {
    if reply.status == Blocked then
      (s.(via := Manual, status := Submitted, submittedAt := Some(at), submittedUrl := Or(reply.url, s.submittedUrl),
          notes := AppendNote(s.notes, stamp, "manual required: " + Shown(reply.reason))),
       O.Submitted)
    else if reply.status == Broken then
      (s.(status := Failed, failureReason := Some(Capped(if Blank(reply.reason) then "submission_failed" else reply.reason.value))),
       O.Failed)
    else
      var sent := s.(
        submittedAt := Some(at),
        submittedUrl := Or(reply.url, s.submittedUrl),
        notes := if Blank(e.notes) then s.notes else AppendNote(s.notes, stamp, e.notes.value));
      if e.markPublished || reply.status == Live then (sent.(status := Published, publishedAt := Some(at)), O.Published)
      else (sent.(status := VerificationPending), O.Submitted)
  }

  /** An opportunity that cannot make the move stays where it is. */
  function Advance(o: Opportunity, target: O.Status): Opportunity {
    if O.CanTransition(o.status, target) then o.(status := target) else o
  }

  function RequestFor(s: Submission, e: ExecuteRequest, o: Opportunity): ProviderRequest {
    ProviderRequest(s.targetUrl, Or(e.submittedUrl, s.submittedUrl), s.copy, o.category)
  }

  /** Why an execution stops before the provider is called. */
  function ExecuteRefusal(db: Db, s: Submission): Option<Error> {
    if s.approvedBy.None? then Some(ApprovalRequired)
    else if !CanTransition(s.status, Submitted) then Some(IllegalTransition)
    else
      var free := IsFree(db, s.opportunity);
      if free.Err? then Some(free.error) else None
  }

  function VerifyRow(s: Submission, v: VerifyRequest, at: real): Result<Submission, Error> {
    if s.status != Submitted && s.status != VerificationPending && s.status != Published then Err(NotVerifiable)
    else if v.live.Some? && Blank(Or(v.publishedUrl, s.submittedUrl)) then Err(UrlRequired)
    else if v.live.None? && v.manual.None? then Err(ResultRequired)
    else
      var verified := if v.live.Some? then v.live.value.verified else v.manual.value;
      var error := if v.live.Some? then v.live.value.error else None;
      if verified then
        Ok(s.(status := Verified,
              publishedAt := if s.status != Published && s.publishedAt.None? then Some(at) else s.publishedAt,
              verifiedAt := Some(at)))
      else
        Ok(s.(status := if s.status == Submitted then VerificationPending else s.status,
              failureReason := Some(Capped("link not verified: " + (if Blank(error) then "not found" else error.value)))))
  }

  // ---------------------------------------------------------------- one call

  /** A call on one existing row: its error, or the row it writes. */
  function OnRow(db: Db, id: SubmissionId, change: Submission -> Result<Submission, Error>): Result<Db, Error> {
    if id !in db.subs then Err(NotFound)
    else
      match change(db.subs[id])
      case Ok(s) => Ok(Put(db, id, s))
      case Err(e) => Err(e)
  }

  function ExecuteWrite(db: Db, id: SubmissionId, e: ExecuteRequest, reply: ProviderReply, at: real, stamp: string): Result<Db, Error> {
    if id !in db.subs then Err(NotFound)
    else if ExecuteRefusal(db, db.subs[id]).Some? then Err(ExecuteRefusal(db, db.subs[id]).value)
    else if reply.Raises? then Err(ProviderFailed)
    else
      var o := db.subs[id].opportunity;
      var (row, target) := ExecuteRow(db.subs[id], e, reply, at, stamp);
      Ok(Put(db, id, row).(opps := db.opps[o := Advance(db.opps[o], target)]))
  }

  /** The tables a call wants to write, before the database checks them. */
  function Written(db: Db, op: Op): Result<Db, Error> {
    match op
    case Create(id, c) => CreateRow(db, id, c)
    case Update(id, u) => OnRow(db, id, s => UpdateRow(s, u))
    case Transition(id, target, reason) => OnRow(db, id, s => TransitionRow(s, target, reason))
    case Prepare(id) => OnRow(db, id, s => PrepareRow(s))
    case Approve(id, approver, note, at) => OnRow(db, id, s => ApproveRow(s, approver, note, at))
    case Execute(id, e, _, reply, at, stamp) => ExecuteWrite(db, id, e, reply, at, stamp)
    case Verify(id, v, at) => OnRow(db, id, s => VerifyRow(s, v, at))
    case Delete(id) => if id in db.subs then Ok(db.(subs := db.subs - {id})) else Err(NotFound)
    case Environment(opps, pubs) => Ok(db.(opps := opps, pubs := pubs))
  }

  /** The provider calls made once `op` is through: one more if it gets that far. */
  function SentAfter(st: State, op: Op): seq<Sent> {
    if op.Execute? && op.id in st.db.subs && ExecuteRefusal(st.db, st.db.subs[op.id]).None? then
      var s := st.db.subs[op.id];
      st.sent + [Sent(op.id, s.via == Form && op.hasForm, RequestFor(s, op.execute, st.db.opps[s.opportunity]))]
    else st.sent
  }

  function Apply(st: State, op: Op): (State, Option<Error>) {
    var sent := SentAfter(st, op);
    match Written(st.db, op)
    case Err(e) => (st.(sent := sent), Some(e))
    case Ok(db) =>
      if !Constraints(db.subs) then (st.(sent := sent), Some(IntegrityError))
      else
        (State(db, sent, if op.Approve? then st.reviewed[op.id := db.subs[op.id].copy] else st.reviewed), None)
  }

  // ---------------------------------------------------------------- the service

  /** One request at a time; a call that returns an error has been rolled back. */
  class SubmissionService {
    var db: Db
    var sent: seq<Sent>
    ghost var reviewed: map<SubmissionId, Copy>

    constructor (db: Db)
      ensures this.db == db && sent == [] && reviewed == map[]
    {
      this.db, sent, reviewed := db, [], map[];
    }

    ghost function Snapshot(): State
      reads this
    {
      State(db, sent, reviewed)
    }

    /** Writes the tables unless a constraint objects. */
    method Flush(written: Db) returns (e: Option<Error>)
      modifies this`db
      ensures e == if Constraints(written.subs) then None else Some(IntegrityError)
      ensures db == if e.None? then written else old(db)
    {
      if !Constraints(written.subs) {
        return Some(IntegrityError);
      }
      db := written;
      return None;
    }

    method CreateSubmission(id: SubmissionId, c: CreateRequest) returns (e: Option<Error>)
      modifies this
      ensures (Snapshot(), e) == Apply(old(Snapshot()), Create(id, c))
    {
      var free := IsFree(db, c.opportunity);
      if free.Err? {
        return Some(free.error);
      }
      var o := db.opps[c.opportunity];
      if !O.IsSubmittable(o.status) {
        return Some(NotSubmittable);
      }
      if LiveElsewhere(db.subs, c.opportunity, None) {
        return Some(AlreadyActive);
      }
      var copy := ResolvedCopy(c, o);
      var via := if c.via.Some? then c.via.value else DefaultMethod(free.value.via);
      var s := Submission(c.opportunity, Ready, copy, o.targetUrl, Or(o.submissionUrl, free.value.submissionUrl), via,
                          None, None, None, None, None, None, c.notes);
      e := Flush(db.(subs := db.subs[id := s]));
    }

    /** The fields of an edit that are given and differ; `changed` says whether any did. */
    static method Edit(before: Submission, u: UpdateRequest) returns (s: Submission, changed: bool)
      ensures s == before.(
        copy := EditedCopy(before.copy, u.copy),
        notes := Edited(before.notes, u.notes),
        via := if u.via.Some? then u.via.value else before.via)
      ensures changed <==> s != before
    {
      s := before;
      changed := false;
      if u.copy.anchor.Some? && u.copy.anchor != s.copy.anchor {
        s := s.(copy := s.copy.(anchor := u.copy.anchor));
        changed := true;
      }
      if u.copy.title.Some? && u.copy.title != s.copy.title {
        s := s.(copy := s.copy.(title := u.copy.title));
        changed := true;
      }
      if u.copy.description.Some? && u.copy.description != s.copy.description {
        s := s.(copy := s.copy.(description := u.copy.description));
        changed := true;
      }
      if u.notes.Some? && u.notes != s.notes {
        s := s.(notes := u.notes);
        changed := true;
      }
      if u.via.Some? && u.via.value != s.via {
        s := s.(via := u.via.value);
        changed := true;
      }
    }

    method UpdateSubmission(id: SubmissionId, u: UpdateRequest) returns (e: Option<Error>)
      modifies this
      ensures (Snapshot(), e) == Apply(old(Snapshot()), Update(id, u))
    {
      if id !in db.subs {
        return Some(NotFound);
      }
      var s := db.subs[id];
      if !(s.status == Ready || s.status == InProgress || s.status == PendingApproval) {
        return Some(NotEditable);
      }
      var changed;
      s, changed := Edit(s, u);
      if changed && s.status == PendingApproval {
        s := s.(status := InProgress);
        s := s.(approvedBy := None);
        s := s.(approvedAt := None);
      }
      assert UpdateRow(db.subs[id], u) == Ok(s);
      hide UpdateRow, EditedCopy, Edited;
      e := Flush(Put(db, id, s));
    }

    method TransitionSubmission(id: SubmissionId, target: Status, reason: Text) returns (e: Option<Error>)
      modifies this
      ensures (Snapshot(), e) == Apply(old(Snapshot()), Transition(id, target, reason))
    {
      if id !in db.subs {
        return Some(NotFound);
      }
      var s := db.subs[id];
      if !CanTransition(s.status, target) {
        return Some(IllegalTransition);
      }
      if RequiresApproval(target) && s.approvedBy.None? {
        return Some(ApprovalRequired);
      }
      s := s.(status := target);
      if target == Failed && !Blank(reason) {
        s := s.(failureReason := Some(Capped(reason.value)));
      }
      e := Flush(Put(db, id, s));
    }

    method PrepareForReview(id: SubmissionId) returns (e: Option<Error>)
      modifies this
      ensures (Snapshot(), e) == Apply(old(Snapshot()), Prepare(id))
    {
      if id !in db.subs {
        return Some(NotFound);
      }
      var s := db.subs[id];
      if s.status == Ready {
        if !CanTransition(s.status, InProgress) {
          return Some(IllegalTransition);
        }
        s := s.(status := InProgress);
      }
      if !CanTransition(s.status, PendingApproval) {
        return Some(IllegalTransition);
      }
      if Blank(s.copy.title) {
        return Some(ContentMissing);
      }
      s := s.(status := PendingApproval);
      e := Flush(Put(db, id, s));
    }

    method ApproveSubmission(id: SubmissionId, approver: UserId, note: Text, at: real) returns (e: Option<Error>)
      modifies this
      ensures (Snapshot(), e) == Apply(old(Snapshot()), Approve(id, approver, note, at))
    {
      if id !in db.subs {
        return Some(NotFound);
      }
      var s := db.subs[id];
      if s.status != PendingApproval {
        return Some(NotAwaitingApproval);
      }
      s := s.(approvedBy := Some(approver));
      s := s.(approvedAt := Some(at));
      if !Blank(note) {
        s := s.(notes := note);
      }
      e := Flush(Put(db, id, s));
      if e.None? {
        reviewed := reviewed[id := s.copy];
      }
    }

    method ExecuteSubmission(id: SubmissionId, x: ExecuteRequest, hasForm: bool, reply: ProviderReply, at: real, stamp: string)
      returns (e: Option<Error>)
      modifies this
      ensures (Snapshot(), e) == Apply(old(Snapshot()), Execute(id, x, hasForm, reply, at, stamp))
    {
      if id !in db.subs {
        return Some(NotFound);
      }
      var s := db.subs[id];
      if s.approvedBy.None? {
        return Some(ApprovalRequired);
      }
      if !CanTransition(s.status, Submitted) {
        return Some(IllegalTransition);
      }
      var free := IsFree(db, s.opportunity);
      if free.Err? {
        return Some(free.error);
      }
      var o := db.opps[s.opportunity];
      var byForm := s.via == Form && hasForm;
      sent := sent + [Sent(id, byForm, ProviderRequest(s.targetUrl, Or(x.submittedUrl, s.submittedUrl), s.copy, o.category))];
      assert sent == SentAfter(old(Snapshot()), Execute(id, x, hasForm, reply, at, stamp));
      if reply.Raises? {
        return Some(ProviderFailed);
      }
      var target: O.Status;
      if reply.status == Blocked {
        s := s.(via := Manual);
        s := s.(status := Submitted);
        s := s.(submittedAt := Some(at));
        s := s.(submittedUrl := Or(reply.url, s.submittedUrl));
        s := s.(notes := AppendNote(s.notes, stamp, "manual required: " + Shown(reply.reason)));
        target := O.Submitted;
      } else if reply.status == Broken {
        s := s.(status := Failed);
        s := s.(failureReason := Some(Capped(if Blank(reply.reason) then "submission_failed" else reply.reason.value)));
        target := O.Failed;
      } else {
        s := s.(status := Submitted);
        s := s.(submittedAt := Some(at));
        s := s.(submittedUrl := Or(reply.url, s.submittedUrl));
        if !Blank(x.notes) {
          s := s.(notes := AppendNote(s.notes, stamp, x.notes.value));
        }
        if x.markPublished || reply.status == Live {
          assert CanTransition(s.status, Published);
          s := s.(status := Published);
          s := s.(publishedAt := Some(at));
        } else {
          assert CanTransition(s.status, VerificationPending);
          s := s.(status := VerificationPending);
        }
        target := if s.status == Published then O.Published else O.Submitted;
      }
      assert (s, target) == ExecuteRow(db.subs[id], x, reply, at, stamp);
      hide ExecuteRow;
      e := Flush(Put(db, id, s).(opps := db.opps[s.opportunity := Advance(o, target)]));
    }

    method VerifySubmission(id: SubmissionId, v: VerifyRequest, at: real) returns (e: Option<Error>)
      modifies this
      ensures (Snapshot(), e) == Apply(old(Snapshot()), Verify(id, v, at))
    {
      if id !in db.subs {
        return Some(NotFound);
      }
      var s := db.subs[id];
      if !(s.status == Submitted || s.status == VerificationPending || s.status == Published) {
        return Some(NotVerifiable);
      }
      var publishedUrl := Or(v.publishedUrl, s.submittedUrl);
      var verified: bool;
      var error: Text := None;
      if v.live.Some? {
        if Blank(publishedUrl) {
          return Some(UrlRequired);
        }
        verified := v.live.value.verified;
        error := v.live.value.error;
      } else {
        if v.manual.None? {
          return Some(ResultRequired);
        }
        verified := v.manual.value;
      }
      if verified {
        if s.status != Published {
          assert CanTransition(s.status, Published);
          s := s.(status := Published);
          if s.publishedAt.None? {
            s := s.(publishedAt := Some(at));
          }
        }
        assert CanTransition(s.status, Verified);
        s := s.(status := Verified);
        s := s.(verifiedAt := Some(at));
      } else {
        if s.status == Submitted {
          s := s.(status := VerificationPending);
        }
        s := s.(failureReason := Some(Capped("link not verified: " + (if Blank(error) then "not found" else error.value))));
      }
      assert VerifyRow(db.subs[id], v, at) == Ok(s);
      e := Flush(Put(db, id, s));
    }

    method DeleteSubmission(id: SubmissionId) returns (e: Option<Error>)
      modifies this
      ensures (Snapshot(), e) == Apply(old(Snapshot()), Delete(id))
    {
      if id !in db.subs {
        return Some(NotFound);
      }
      e := Flush(db.(subs := db.subs - {id}));
    }
  }
}
