/**
 * Activity records, their audit log, lookup by id and the per-role list filter.
 */
module Activities {
  import opened Wrappers
  import opened Lifecycle

  /** One audit-log entry: when, by whom, what. Timestamps are ISO-format strings. */
  datatype LogEntry = LogEntry(timestamp: string, user: string, action: string)

  /** An activity feature: its id, point coordinates and properties. */
  datatype Activity = Activity(
    id: string,
    coordinates: seq<real>,
    title: string,
    description: string,
    vendor: string,
    site: string,
    category: string,
    status: Status,
    createdAt: string,
    logs: seq<LogEntry>)

  const CreatedText: string := "Activity created."
  const CommentPrefix: string := "Comment: "

  // ---------------------------------------------------------------- lookup by id

  /** The first index whose activity has this id, or None when no activity has it. */
  function FindIndex(acts: seq<Activity>, id: string): (r: Option<nat>)
    ensures r.Some? ==> r.value < |acts| && acts[r.value].id == id
    ensures r.Some? ==> forall j :: 0 <= j < r.value ==> acts[j].id != id
    ensures r.None? ==> forall j :: 0 <= j < |acts| ==> acts[j].id != id
    decreases |acts|
  {
    if acts == [] then None
    else if acts[0].id == id then Some(0)
    else
      match FindIndex(acts[1..], id)
      case None => None
      case Some(k) => Some(k + 1)
  }

  /** Adding an activity at the end does not change where an id that was already present is found. */
  lemma FindIndexAppend(acts: seq<Activity>, x: Activity, id: string)
    ensures FindIndex(acts + [x], id) ==
      if FindIndex(acts, id).Some? then FindIndex(acts, id)
      else if x.id == id then Some(|acts|)
      else None
  {
    assert forall j :: 0 <= j < |acts| ==> (acts + [x])[j] == acts[j];
    assert (acts + [x])[|acts|] == x;
  }

  // ---------------------------------------------------------------- list filter

  /** The activities assigned to `vendor`, in their original order. */
  function OwnedBy(acts: seq<Activity>, vendor: string): (r: seq<Activity>)
    ensures |r| <= |acts|
    ensures forall x :: x in r <==> x in acts && x.vendor == vendor
    decreases |acts|
  {
    if acts == [] then []
    else if acts[0].vendor == vendor then [acts[0]] + OwnedBy(acts[1..], vendor)
    else OwnedBy(acts[1..], vendor)
  }

  /** Filtering distributes over concatenation, so the original order is kept. */
  lemma {:induction false} OwnedByConcat(xs: seq<Activity>, ys: seq<Activity>, vendor: string)
    ensures OwnedBy(xs + ys, vendor) == OwnedBy(xs, vendor) + OwnedBy(ys, vendor)
    decreases |xs|
  {
    if xs != [] {
      assert (xs + ys)[1..] == xs[1..] + ys;
      OwnedByConcat(xs[1..], ys, vendor);
    } else {
      assert xs + ys == ys;
    }
  }

  /** Filtering leaves the list unchanged exactly when every activity is the vendor's own. */
  lemma {:induction false} OwnedByKeepsAllIff(acts: seq<Activity>, vendor: string)
    ensures OwnedBy(acts, vendor) == acts <==> forall i :: 0 <= i < |acts| ==> acts[i].vendor == vendor
    decreases |acts|
  {
    if acts != [] {
      OwnedByKeepsAllIff(acts[1..], vendor);
      if acts[0].vendor != vendor {
        assert acts[0] !in OwnedBy(acts, vendor);
      } else if OwnedBy(acts, vendor) == acts {
        assert OwnedBy(acts[1..], vendor) == acts[1..];
      }
    }
  }

  /** Filtering twice gives the same list as filtering once. */
  lemma OwnedByIdempotent(acts: seq<Activity>, vendor: string)
    ensures OwnedBy(OwnedBy(acts, vendor), vendor) == OwnedBy(acts, vendor)
  {
  }

  /** The activity list a logged-in user sees: a vendor only their own, anyone else all of them. */
  function Visible(role: string, username: string, acts: seq<Activity>): (r: seq<Activity>)
    ensures role != VendorRole ==> r == acts
    ensures role == VendorRole ==> forall x :: x in r <==> x in acts && x.vendor == username
    ensures role == VendorRole ==> r == OwnedBy(acts, username)
  {
    if role == VendorRole then OwnedBy(acts, username) else acts
  }

  // ---------------------------------------------------------------- audit log

  /** The status a log entry records, if it is one written by creation or by a status change. */
  function StatusOfEntry(action: string): Option<Status>
  {
    if action == CreatedText then Some(Pending)
    else if action == LogText(Start) then Some(Target(Start))
    else if action == LogText(Pause) then Some(Target(Pause))
    else if action == LogText(Resume) then Some(Target(Resume))
    else if action == LogText(Complete) then Some(Target(Complete))
    else if action == LogText(Verify) then Some(Target(Verify))
    else None
  }

  /** Every button's log text records the status that button sets. */
  lemma StatusOfLogText(a: Action)
    ensures StatusOfEntry(LogText(a)) == Some(Target(a))
  {
  }

  /** A comment entry never reads as a status change, whatever its text. */
  lemma CommentRecordsNoStatus(text: string)
    ensures StatusOfEntry(CommentPrefix + text) == None
  {
    var e := CommentPrefix + text;
    assert e[0] == 'C';
    assert CreatedText[0] == 'A';
    forall a: Action ensures e != LogText(a) {
      assert LogText(a)[0] == 'W';
    }
  }

  /** The status the audit log accounts for: that of its latest creation or status-change entry. */
  function Replay(logs: seq<LogEntry>): Option<Status>
    decreases |logs|
  {
    if logs == [] then None
    else
      match StatusOfEntry(logs[|logs| - 1].action)
      case Some(s) => Some(s)
      case None => Replay(logs[..|logs| - 1])
  }

  /** Appending a status-change entry makes the log account for that change's target. */
  lemma ReplayAfterTransition(logs: seq<LogEntry>, a: Action, timestamp: string, user: string)
    ensures Replay(logs + [LogEntry(timestamp, user, LogText(a))]) == Some(Target(a))
  {
  }

  /** Appending a comment leaves what the log accounts for unchanged. */
  lemma ReplayAfterComment(logs: seq<LogEntry>, text: string, timestamp: string, user: string)
    ensures Replay(logs + [LogEntry(timestamp, user, CommentPrefix + text)]) == Replay(logs)
  {
    CommentRecordsNoStatus(text);
    assert (logs + [LogEntry(timestamp, user, CommentPrefix + text)])[..|logs|] == logs;
  }

  /** The log of a freshly created activity accounts for Pending. */
  lemma ReplayOfCreation(timestamp: string, user: string)
    ensures Replay([LogEntry(timestamp, user, CreatedText)]) == Some(Pending)
  {
  }

  /** The store's invariant on one record: its audit log accounts for its current status. */
  predicate LogExplainsStatus(x: Activity)
  {
    Replay(x.logs) == Some(x.status)
  }

  /** `after` is `before` with possibly a new status and possibly more log entries at the end. */
  predicate Grows(before: Activity, after: Activity)
  {
    after == before.(status := after.status, logs := after.logs) && before.logs <= after.logs
  }

  /** No record is lost or rewritten: existing records only grow, new ones go at the end. */
  predicate Extends(before: seq<Activity>, after: seq<Activity>)
  {
    |before| <= |after| && forall i :: 0 <= i < |before| ==> Grows(before[i], after[i])
  }

  /** Growth composes, so any series of store operations keeps the log append-only. */
  lemma ExtendsTransitive(a: seq<Activity>, b: seq<Activity>, c: seq<Activity>)
    requires Extends(a, b) && Extends(b, c)
    ensures Extends(a, c)
  {
  }
}
