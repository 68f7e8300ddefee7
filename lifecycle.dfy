/**
 * The activity status lifecycle: the five statuses, the five action buttons of the
 * detail view, who is shown them and from which status each one is enabled.
 */
module Lifecycle {
  import opened Wrappers

  datatype Status = Pending | InProgress | Paused | Completed | Verified

  /**
   * The exact string the source stores in an activity's `status` property. Records in this
   * model hold the `Status` value itself, so this function is used only to show that the
   * five strings are distinct (StatusNameInjective); nothing here serialises a record.
   */
  function StatusName(s: Status): string
  {
    match s
    case Pending => "Pending"
    case InProgress => "In Progress"
    case Paused => "Paused"
    case Completed => "Completed"
    case Verified => "Verified"
  }

  /** Distinct statuses are stored as distinct strings, so comparing names compares statuses. */
  lemma StatusNameInjective(s: Status, t: Status)
    ensures StatusName(s) == StatusName(t) ==> s == t
  {
  }

  /** The five buttons of the action panel. */
  datatype Action = Start | Pause | Resume | Complete | Verify

  const AdminRole: string := "admin"
  const VendorRole: string := "vendor"

  /** The action panel is rendered only for these two roles. */
  predicate ShowsActions(role: string)
  {
    role == AdminRole || role == VendorRole
  }

  /** Whether the button for `a` is on the panel at all: Verify only for admins. */
  predicate Offered(role: string, a: Action)
  {
    ShowsActions(role) && (a == Verify ==> role == AdminRole)
  }

  /** Whether the button for `a` is enabled: the negation of its `disabled=` condition. */
  predicate Enabled(a: Action, s: Status)
  {
    match a
    case Start => s == Pending
    case Pause => s == InProgress
    case Resume => s == Paused
    case Complete => s == InProgress || s == Paused
    case Verify => s == Completed
  }

  /** The status each button passes to `update_status`. */
  function Target(a: Action): Status
  {
    match a
    case Start => InProgress
    case Pause => Paused
    case Resume => InProgress
    case Complete => Completed
    case Verify => Verified
  }

  /** The log action text each button passes to `update_status`. */
  function LogText(a: Action): string
  {
    match a
    case Start => "Work Started"
    case Pause => "Work Paused"
    case Resume => "Work Resumed"
    case Complete => "Work Completed"
    case Verify => "Work Verified"
  }

  /** Why pressing a button has no effect. */
  datatype Refusal =
    | PanelHidden     // the role sees no action panel
    | ButtonHidden    // Verify is not rendered for a vendor
    | ButtonDisabled  // the button is rendered but disabled in this status

  /** The effect of pressing `a` as `role` on an activity in status `s`: the new status, or why nothing happens. */
  function Decide(role: string, a: Action, s: Status): (r: Result<Status, Refusal>)
    ensures r.Success? ==> r.value != s
    ensures r.Failure? && r.error == PanelHidden <==> role != AdminRole && role != VendorRole
    ensures r.Failure? && r.error == ButtonHidden <==> role == VendorRole && a == Verify
  {
    if !ShowsActions(role) then Failure(PanelHidden)
    else if !Offered(role, a) then Failure(ButtonHidden)
    else if !Enabled(a, s) then Failure(ButtonDisabled)
    else Success(Target(a))
  }

  /**
   * The lifecycle written out as a table of (from, action, to) rows, independently of the
   * per-button conditions above.
   */
  const Table: set<(Status, Action, Status)> := {
    (Pending, Start, InProgress),
    (InProgress, Pause, Paused),
    (Paused, Resume, InProgress),
    (InProgress, Complete, Completed),
    (Paused, Complete, Completed),
    (Completed, Verify, Verified)
  }

  /** For a role that may press `a`, a press succeeds exactly along a row of the table. */
  lemma DecideFollowsTable(role: string, a: Action, s: Status, t: Status)
    requires Offered(role, a)
    ensures Decide(role, a, s) == Success(t) <==> (s, a, t) in Table
  {
  }

  /** Every row of the table is available to an admin, and to a vendor unless it is Verify. */
  lemma TableRowsAreReachable(s: Status, a: Action, t: Status)
    requires (s, a, t) in Table
    ensures Decide(AdminRole, a, s) == Success(t)
    ensures a != Verify ==> Decide(VendorRole, a, s) == Success(t)
  {
  }

  /** Start: only from Pending, to In Progress. */
  lemma StartRule(role: string, s: Status)
    requires ShowsActions(role)
    ensures Decide(role, Start, s).Success? <==> s == Pending
    ensures Decide(role, Start, s).Success? ==> Decide(role, Start, s).value == InProgress && LogText(Start) == "Work Started"
  {
  }

  /** Pause: only from In Progress, to Paused. */
  lemma PauseRule(role: string, s: Status)
    requires ShowsActions(role)
    ensures Decide(role, Pause, s).Success? <==> s == InProgress
    ensures Decide(role, Pause, s).Success? ==> Decide(role, Pause, s).value == Paused && LogText(Pause) == "Work Paused"
  {
  }

  /** Resume: only from Paused, back to In Progress. */
  lemma ResumeRule(role: string, s: Status)
    requires ShowsActions(role)
    ensures Decide(role, Resume, s).Success? <==> s == Paused
    ensures Decide(role, Resume, s).Success? ==> Decide(role, Resume, s).value == InProgress && LogText(Resume) == "Work Resumed"
  {
  }

  /** Complete: from In Progress or Paused, to Completed. */
  lemma CompleteRule(role: string, s: Status)
    requires ShowsActions(role)
    ensures Decide(role, Complete, s).Success? <==> s == InProgress || s == Paused
    ensures Decide(role, Complete, s).Success? ==> Decide(role, Complete, s).value == Completed && LogText(Complete) == "Work Completed"
  {
  }

  /** Verify: only an admin, only from Completed, to Verified. */
  lemma VerifyRule(role: string, s: Status)
    ensures Decide(role, Verify, s).Success? <==> role == AdminRole && s == Completed
    ensures Decide(role, Verify, s).Success? ==> Decide(role, Verify, s).value == Verified && LogText(Verify) == "Work Verified"
  {
  }

  /** Verified is terminal: no role can move an activity out of it. */
  lemma VerifiedIsTerminal(role: string, a: Action)
    ensures Decide(role, a, Verified).Failure?
  {
  }

  /** Pending is never re-entered: no press leads back to it. */
  lemma NoStepReturnsToPending(role: string, a: Action, s: Status)
    ensures Decide(role, a, s).Success? ==> Decide(role, a, s).value != Pending
  {
  }

  /**
   * The status after a series of button presses, each made by the role of whoever was
   * logged in at the time (logging out keeps the activity data, so users take turns on the
   * same records); a refused press leaves the status as it was.
   */
  function Run(presses: seq<(string, Action)>, s: Status): Status
    decreases |presses|
  {
    if presses == [] then s
    else
      var next := match Decide(presses[0].0, presses[0].1, s)
        case Success(t) => t
        case Failure(_) => s;
      Run(presses[1..], next)
  }

  /** How far along the lifecycle a status is; Paused and In Progress are the same stage. */
  function Stage(s: Status): nat
  {
    match s
    case Pending => 0
    case InProgress => 1
    case Paused => 1
    case Completed => 2
    case Verified => 3
  }

  /** No sequence of presses, by any mix of roles, moves an activity back to an earlier stage. */
  lemma {:induction false} RunNeverGoesBack(presses: seq<(string, Action)>, s: Status)
    ensures Stage(Run(presses, s)) >= Stage(s)
    decreases |presses|
  {
    if presses != [] {
      var next := match Decide(presses[0].0, presses[0].1, s) case Success(t) => t case Failure(_) => s;
      assert Stage(next) >= Stage(s);
      RunNeverGoesBack(presses[1..], next);
    }
  }

  /** Once Verified, an activity stays Verified whoever presses whatever. */
  lemma {:induction false} RunFromVerified(presses: seq<(string, Action)>)
    ensures Run(presses, Verified) == Verified
    decreases |presses|
  {
    if presses != [] {
      VerifiedIsTerminal(presses[0].0, presses[0].1);
      RunFromVerified(presses[1..]);
    }
  }

  /** Presses made only by vendors never bring an activity to Verified unless it already was. */
  lemma {:induction false} VendorNeverVerifies(presses: seq<(string, Action)>, s: Status)
    requires forall i :: 0 <= i < |presses| ==> presses[i].0 == VendorRole
    requires s != Verified
    ensures Run(presses, s) != Verified
    decreases |presses|
  {
    if presses != [] {
      var next := match Decide(presses[0].0, presses[0].1, s) case Success(t) => t case Failure(_) => s;
      assert next != Verified;
      VendorNeverVerifies(presses[1..], next);
    }
  }

  /** Presses made only by roles without the action panel never change the status. */
  lemma {:induction false} NoPanelNoChange(presses: seq<(string, Action)>, s: Status)
    requires forall i :: 0 <= i < |presses| ==> !ShowsActions(presses[i].0)
    ensures Run(presses, s) == s
    decreases |presses|
  {
    if presses != [] {
      NoPanelNoChange(presses[1..], s);
    }
  }

  /** The usual workflow: a vendor starts and completes the work, then an admin verifies it. */
  lemma VendorThenAdminWorkflow()
    ensures Run([(VendorRole, Start), (VendorRole, Complete), (AdminRole, Verify)], Pending) == Verified
    ensures Run([(VendorRole, Start), (VendorRole, Complete), (VendorRole, Verify)], Pending) == Completed
  {
    var byAdmin := [(VendorRole, Start), (VendorRole, Complete), (AdminRole, Verify)];
    assert byAdmin[1..][1..][1..] == [];
    assert Run(byAdmin[1..][1..], Completed) == Verified;
    assert Run(byAdmin[1..], InProgress) == Verified;
    var byVendor := [(VendorRole, Start), (VendorRole, Complete), (VendorRole, Verify)];
    assert byVendor[1..][1..][1..] == [];
    assert Run(byVendor[1..][1..], Completed) == Completed;
    assert Run(byVendor[1..], InProgress) == Completed;
  }
}
