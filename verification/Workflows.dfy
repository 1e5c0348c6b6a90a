/** The declared lifecycle of a submission: its transition table and its approval gate. */
module SubmissionWorkflow {

  datatype Status =
    | Ready | InProgress | PendingApproval | Submitted | VerificationPending | Published | Verified | Rejected | Failed

  const INITIAL := Ready

  function Transitions(s: Status): set<Status> {
    match s
    case Ready => {InProgress, Rejected, Failed}
    case InProgress => {PendingApproval, Rejected, Failed}
    case PendingApproval => {Submitted, InProgress, Rejected}
    case Submitted => {VerificationPending, Published, Failed}
    case VerificationPending => {Published, Failed}
    case Published => {Verified, VerificationPending, Failed}
    case Failed => {Ready}
    case Verified => {}
    case Rejected => {}
  }

  predicate CanTransition(current: Status, target: Status) {
    target in Transitions(current)
  }

  predicate RequiresApproval(target: Status) {
    target in {Submitted, Published, VerificationPending, Verified}
  }

  /** Statuses the partial unique index leaves out: a retry may sit beside them. */
  predicate IsLive(s: Status) {
    s != Rejected && s != Failed
  }

  /** A walk along the table. */
  ghost predicate IsPath(p: seq<Status>) {
    p != [] && forall i :: 0 <= i < |p| - 1 ==> CanTransition(p[i], p[i + 1])
  }

  ghost predicate Connects(p: seq<Status>, from: Status, to: Status) {
    IsPath(p) && p[0] == from && p[|p| - 1] == to
  }

  ghost predicate Reaches(from: Status, to: Status) {
    exists p :: Connects(p, from, to)
  }

  /** Nothing leads out of VERIFIED or REJECTED. */
  lemma TerminalReachesOnlyItself(from: Status, to: Status)
    requires Reaches(from, to) && (from == Verified || from == Rejected)
    ensures to == from
  {
    var p :| Connects(p, from, to);
    assert |p| > 1 ==> CanTransition(p[0], p[1]);
  }

  /** Every walk from before the gate to behind it crosses PENDING_APPROVAL -> SUBMITTED. */
  lemma {:induction false} GateIsTheOnlyWay(p: seq<Status>)
    requires IsPath(p) && !RequiresApproval(p[0]) && RequiresApproval(p[|p| - 1])
    ensures exists i :: 0 <= i < |p| - 1 && p[i] == PendingApproval && p[i + 1] == Submitted
  {
    assert CanTransition(p[0], p[1]);
    if RequiresApproval(p[1]) {
      assert p[0] == PendingApproval && p[0 + 1] == Submitted;
    } else {
      var rest := p[1..];
      forall i | 0 <= i < |rest| - 1
        ensures CanTransition(rest[i], rest[i + 1])
      {
        assert CanTransition(p[i + 1], p[i + 1 + 1]);
      }
      GateIsTheOnlyWay(rest);
      var i :| 0 <= i < |rest| - 1 && rest[i] == PendingApproval && rest[i + 1] == Submitted;
      assert p[i + 1] == PendingApproval && p[(i + 1) + 1] == Submitted;
    }
  }
}

/** The declared lifecycle of an opportunity. */
module OpportunityWorkflow {

  datatype Status =
    | Discovered | Qualifying | Qualified | Selected | Ready | Submitted | Published | Rejected | Failed | Expired

  function Transitions(s: Status): set<Status> {
    match s
    case Discovered => {Qualifying, Rejected}
    case Qualifying => {Qualified, Rejected}
    case Qualified => {Selected, Rejected, Expired}
    case Selected => {Ready, Qualified, Rejected}
    case Ready => {Submitted, Rejected, Expired}
    case Submitted => {Published, Failed}
    case Failed => {Ready, Rejected}
    case Published => {}
    case Rejected => {}
    case Expired => {}
  }

  predicate CanTransition(current: Status, target: Status) {
    target in Transitions(current)
  }

  predicate IsSubmittable(s: Status) {
    s == Selected || s == Ready
  }
}
