/** The vendor application review dialog (src/components/Admin/VendorApprovalModal.tsx): the
    admin picks an action and writes notes; the submit button is enabled by a fixed rule and
    dispatches to the approve or reject callback, which the dashboard wires to its status
    update. */
module ApprovalModal {
  import opened Wrappers
  import opened Text
  import opened Schema
  import AdminDashboard

  datatype Action = Approve | Reject

  /** The callback a submit reaches, with the notes it passes. */
  datatype Call = OnApprove(notes: string) | OnReject(notes: string)

  /** `disabled={!action || loading || (action === 'reject' && !notes.trim())}`, negated. */
  predicate SubmitEnabled(action: Option<Action>, notes: string, loading: bool) {
    action.Some? && !loading && !(action.value == Reject && IsBlank(notes))
  }

  /** `handleSubmit`: 'approve' calls only `onApprove`, 'reject' only `onReject`, and no action
      calls neither. */
  function Dispatch(action: Option<Action>, notes: string): (c: Option<Call>)
    ensures c.None? <==> action.None?
    ensures action == Some(Approve) ==> c == Some(OnApprove(notes))
    ensures action == Some(Reject) ==> c == Some(OnReject(notes))
  {
    match action
    case None => None
    case Some(Approve) => Some(OnApprove(notes))
    case Some(Reject) => Some(OnReject(notes))
  }

  /** A click on the submit button: a disabled button does nothing. */
  function Press(action: Option<Action>, notes: string, loading: bool): (c: Option<Call>)
    ensures c.Some? <==> SubmitEnabled(action, notes, loading)
    ensures c.Some? ==> c == Dispatch(action, notes)
  {
    if SubmitEnabled(action, notes, loading) then Dispatch(action, notes) else None
  }

  /** Approving needs no notes; rejecting needs notes that are not blank. */
  lemma NotesRequiredOnlyToReject(notes: string)
    ensures SubmitEnabled(Some(Approve), "", false)
    ensures SubmitEnabled(Some(Reject), notes, false) <==> !IsBlank(notes)
  {}

  /** The submit button's text: each of the four states has its own label. */
  function ButtonLabel(action: Option<Action>, loading: bool): (s: string)
    ensures s == "Processing..." <==> loading
    ensures s == "Select Action" <==> !loading && action.None?
    ensures s == "Approve Business" <==> !loading && action == Some(Approve)
    ensures s == "Reject Application" <==> !loading && action == Some(Reject)
  {
    if loading then "Processing..."
    else match action
      case None => "Select Action"
      case Some(Approve) => "Approve Business"
      case Some(Reject) => "Reject Application"
  }

  /** The status the dashboard stores for a call. */
  function DecisionOf(c: Call): (s: ApprovalStatus)
    ensures s != ApprovalStatus.Pending
    ensures c.OnApprove? <==> s == Approved
  {
    if c.OnApprove? then Approved else Rejected
  }

  /** A rejection that goes through the button carries its reason into the audit log: the
      notes are never blank, so the audit row, when one is written, keeps them. */
  lemma RejectionAuditKeepsReason(all: seq<AdminDashboard.BusinessRow>, adminId: Option<string>, businessId: string,
                                  notes: string, auditFails: bool)
    requires Press(Some(Reject), notes, false).Some?
    ensures var c := Press(Some(Reject), notes, false).value;
      var u := AdminDashboard.UpdateBusinessStatus(all, adminId, businessId, DecisionOf(c), Some(c.notes), None, auditFails);
      u.auditRow.Some? ==> u.auditRow.value.notes == Some(notes) && u.auditRow.value.action == AdminDashboard.AuditAction(Rejected)
  {
    var c := Press(Some(Reject), notes, false).value;
    assert c == OnReject(notes) && DecisionOf(c) == Rejected;
    assert notes != "" by {
      assert IsBlank("");
    }
    var u := AdminDashboard.UpdateBusinessStatus(all, adminId, businessId, Rejected, Some(notes), None, auditFails);
    assert u.auditRow.Some? ==> u.auditRow.value.notes == Some(notes);
  }

  /** The dialog's own state. */
  class ReviewForm {
    var action: Option<Action>
    var notes: string

    constructor ()
      ensures action.None? && notes == ""
    {
      action := None;
      notes := "";
    }

    /** The Approve and Reject buttons. */
    method Choose(a: Action)
      modifies this
      ensures action == Some(a) && notes == old(notes)
    {
      action := Some(a);
    }

    /** The notes textarea. */
    method SetNotes(text: string)
      modifies this
      ensures notes == text && action == old(action)
    {
      notes := text;
    }

    /** A click on the submit button, while the dashboard is or is not busy. */
    method Submit(loading: bool) returns (c: Option<Call>)
      ensures c.Some? <==> SubmitEnabled(action, notes, loading)
      ensures c.Some? ==> c == Dispatch(action, notes)
    {
      c := Press(action, notes, loading);
    }
  }
}
