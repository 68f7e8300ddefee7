/**
 * The in-memory activity list of a session and the three operations that change it in
 * place: a status change through an action button, a comment and the creation of an activity.
 * Clock readings and fresh ids are passed in by the caller.
 */
module Store {
  import opened Wrappers
  import opened Lifecycle
  import opened Auth
  import opened Activities

  /** What pressing an action button on an activity's detail view leads to. */
  datatype ActionOutcome =
    | ActivityNotFound        // no activity has the selected id
    | Refused(reason: Refusal) // the button is hidden or disabled
    | Applied(index: nat)     // the activity at this index changed status

  /** What submitting the comment form leads to. */
  datatype CommentOutcome =
    | CommentTargetNotFound
    | EmptyComment
    | Commented(index: nat)

  /** The status change a button performs on one record: new status, one log entry at the end. */
  function Transitioned(x: Activity, a: Action, username: string, now: string): (y: Activity)
    ensures Grows(x, y) && |y.logs| == |x.logs| + 1
    ensures y.status == Target(a) && y.logs[|x.logs|] == LogEntry(now, username, LogText(a))
    ensures LogExplainsStatus(y)
  {
    ReplayAfterTransition(x.logs, a, now, username);
    x.(status := Target(a), logs := x.logs + [LogEntry(now, username, LogText(a))])
  }

  /** A comment on one record: one log entry at the end, status untouched. */
  function WithComment(x: Activity, text: string, username: string, now: string): (y: Activity)
    ensures Grows(x, y) && |y.logs| == |x.logs| + 1 && y.status == x.status
    ensures y.logs[|x.logs|] == LogEntry(now, username, CommentPrefix + text)
    ensures LogExplainsStatus(x) ==> LogExplainsStatus(y)
  {
    ReplayAfterComment(x.logs, text, now, username);
    x.(logs := x.logs + [LogEntry(now, username, CommentPrefix + text)])
  }

  class ActivityStore {
    /** The session's activity list, in insertion order. */
    var activities: seq<Activity>

    /** Every record's audit log accounts for its current status. */
    ghost predicate Valid()
      reads this
    {
      forall i :: 0 <= i < |activities| ==> LogExplainsStatus(activities[i])
    }

    constructor (initial: seq<Activity>)
      requires forall i :: 0 <= i < |initial| ==> LogExplainsStatus(initial[i])
      ensures Valid() && activities == initial
    {
      activities := initial;
    }

    /** `update_status`: set the new status of one activity and append one log entry. */
    method UpdateStatus(index: nat, a: Action, user: Session, now: string)
      requires Valid() && index < |activities|
      modifies this
      ensures Valid() && Extends(old(activities), activities)
      ensures activities == old(activities)[index := Transitioned(old(activities)[index], a, user.username, now)]
    {
      activities := activities[index := Transitioned(activities[index], a, user.username, now)];
    }

    /**
     * Pressing action button `a` on the activity with id `id`: find it, then apply the
     * button's status change when the button is shown to the user's role and enabled.
     */
    method Press(id: string, a: Action, user: Session, now: string) returns (outcome: ActionOutcome)
      requires Valid()
      modifies this
      ensures Valid() && Extends(old(activities), activities)
      ensures FindIndex(old(activities), id).None? ==>
        outcome == ActivityNotFound && activities == old(activities)
      ensures FindIndex(old(activities), id).Some? ==>
        var i := FindIndex(old(activities), id).value;
        match Decide(user.role, a, old(activities)[i].status)
        case Failure(why) => outcome == Refused(why) && activities == old(activities)
        case Success(_) =>
          outcome == Applied(i) &&
          activities == old(activities)[i := Transitioned(old(activities)[i], a, user.username, now)]
    {
      var found := FindIndex(activities, id);
      if found.None? {
        return ActivityNotFound;
      }
      var i := found.value;
      var decision := Decide(user.role, a, activities[i].status);
      if decision.Failure? {
        return Refused(decision.error);
      }
      UpdateStatus(i, a, user, now);
      outcome := Applied(i);
    }

    /** Submitting the comment form: one "Comment: ..." entry when the text is non-empty. */
    method AddComment(id: string, text: string, user: Session, now: string) returns (outcome: CommentOutcome)
      requires Valid()
      modifies this
      ensures Valid() && Extends(old(activities), activities)
      ensures FindIndex(old(activities), id).None? ==>
        outcome == CommentTargetNotFound && activities == old(activities)
      ensures FindIndex(old(activities), id).Some? && text == [] ==>
        outcome == EmptyComment && activities == old(activities)
      ensures FindIndex(old(activities), id).Some? && text != [] ==>
        var i := FindIndex(old(activities), id).value;
        outcome == Commented(i) &&
        activities == old(activities)[i := WithComment(old(activities)[i], text, user.username, now)]
    {
      var found := FindIndex(activities, id);
      if found.None? {
        return CommentTargetNotFound;
      }
      if text == [] {
        return EmptyComment;
      }
      var i := found.value;
      activities := activities[i := WithComment(activities[i], text, user.username, now)];
      outcome := Commented(i);
    }

    /**
     * Submitting the creation form: a new Pending activity with no coordinates whose log
     * holds only the creation entry, appended after all existing activities.
     */
    method Create(id: string, title: string, description: string, vendor: string, site: string,
                  category: string, createdAt: string, loggedAt: string, creator: Session)
      requires Valid()
      modifies this
      ensures Valid() && Extends(old(activities), activities)
      ensures activities == old(activities) + [Activity(id, [], title, description, vendor, site, category,
        Pending, createdAt, [LogEntry(loggedAt, creator.username, CreatedText)])]
      ensures FindIndex(old(activities), id).None? ==> FindIndex(activities, id) == Some(|old(activities)|)
      ensures forall other :: FindIndex(old(activities), other).Some? ==>
        FindIndex(activities, other) == FindIndex(old(activities), other)
    {
      var record := Activity(id, [], title, description, vendor, site, category,
        Pending, createdAt, [LogEntry(loggedAt, creator.username, CreatedText)]);
      ReplayOfCreation(loggedAt, creator.username);
      FindIndexAppend(activities, record, id);
      forall other | FindIndex(activities, other).Some?
        ensures FindIndex(activities + [record], other) == FindIndex(activities, other)
      {
        FindIndexAppend(activities, record, other);
      }
      activities := activities + [record];
    }
  }
}
