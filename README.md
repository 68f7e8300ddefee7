# Site activity tracker: activity lifecycle model

A Dafny model of the activity lifecycle in the Streamlit site-activity tracker
(`st_app.py`). Field-work activities move through five statuses, "Pending",
"In Progress", "Paused", "Completed" and "Verified". The five action buttons
of the detail view (Start, Pause, Resume, Complete, Verify) move them along. A
button is shown only to certain roles and is enabled only in certain statuses.
Every status change and every comment appends one entry to the activity's
audit log. The model pulls that logic out of the view code:

- `Lifecycle` (lifecycle.dfy) holds the statuses, the buttons, who sees which
  button, when it is enabled, and the status and log text it sets. The rules
  are checked against an independent transition table. Lemmas over
  sequences of presses, each made by whichever role is logged in at the time,
  show the lifecycle never moves backwards. Logging out keeps the activity
  data, so a vendor and then an admin can act on the same record.
- `Auth` (auth.dfy) models `check_password`: the hard-coded admin account, then
  the stored users.
- `Activities` (activities.dfy) holds activity records and their audit log,
  the first-match lookup by id, and the vendor filter of the list view. It also
  defines `Replay`, the status that an audit log accounts for.
- `Store` (store.dfy) holds class `ActivityStore`, the session's activity list,
  with the three operations that change it in place: a status change, a comment
  and a creation. Its invariant is that every record's audit log accounts for
  its current status. Every operation keeps that invariant. Every operation
  only grows the list: existing records keep their fields and log prefix, and
  new records go at the end.

Clock readings (`datetime.now()`) and fresh ids (`uuid.uuid4()`) are method
parameters. Timestamps are ISO-format strings, as in the source.

## Model

| member | source | states |
|---|---|---|
| Lifecycle.StatusNameInjective | st_app.py:187-200 | the five stored status strings are pairwise distinct, so the string tests of the buttons are tests on the status |
| Lifecycle.Decide | st_app.py:172-201 | a press fails as PanelHidden exactly for roles other than admin/vendor, as ButtonHidden exactly for a vendor pressing Verify, and a successful press always changes the status |
| Lifecycle.DecideFollowsTable | st_app.py:186-201 | for a role shown the button, a press succeeds with result t exactly when (status, action, t) is a row of the six-row transition table |
| Lifecycle.TableRowsAreReachable | st_app.py:186-201 | every table row is available to an admin, and every row except Verify to a vendor |
| Lifecycle.StartRule | st_app.py:187-188 | Start succeeds iff the status is Pending, and then yields In Progress with log text "Work Started" |
| Lifecycle.PauseRule | st_app.py:190-191 | Pause succeeds iff the status is In Progress, and then yields Paused with "Work Paused" |
| Lifecycle.ResumeRule | st_app.py:193-194 | Resume succeeds iff the status is Paused, and then yields In Progress with "Work Resumed" |
| Lifecycle.CompleteRule | st_app.py:196-197 | Complete succeeds iff the status is In Progress or Paused, and then yields Completed with "Work Completed" |
| Lifecycle.VerifyRule | st_app.py:199-201 | Verify succeeds iff the role is admin and the status is Completed, and then yields Verified |
| Lifecycle.VerifiedIsTerminal | st_app.py:186-201 | from Verified every press by every role is refused |
| Lifecycle.NoStepReturnsToPending | st_app.py:186-201 | no successful press yields Pending |
| Lifecycle.RunNeverGoesBack | st_app.py:172-201 | over any sequence of presses, each by its own role, the lifecycle stage (Pending < In Progress/Paused < Completed < Verified) never decreases |
| Lifecycle.RunFromVerified | st_app.py:172-201 | any sequence of presses by any mix of roles leaves a Verified activity Verified |
| Lifecycle.VendorNeverVerifies | st_app.py:199-201 | a sequence of presses made only by vendors never makes an unverified activity Verified |
| Lifecycle.NoPanelNoChange | st_app.py:172 | a sequence of presses made only by roles other than admin/vendor never changes the status |
| Lifecycle.VendorThenAdminWorkflow | st_app.py:186-201 | from Pending, a vendor pressing Start and Complete followed by an admin pressing Verify ends in Verified, while a vendor pressing Verify leaves it Completed |
| Auth.LowerIsAdminIff | st_app.py:69 | a username lower-cases to "admin" exactly when it is "admin" spelled in any mix of cases |
| Auth.CheckPassword | st_app.py:67-75 | any case of "admin" with password "admin" yields session admin/admin; otherwise a session exists iff the stored user exists with that password, and it carries the username and the stored role; otherwise None |
| Auth.LoginIsSound | st_app.py:67-75 | a successful login had password "admin" or a matching stored user, and its username is "admin" or the one typed |
| Auth.AdminShadowsStoredUser | st_app.py:69-74 | a stored user spelled like "admin" who logs in with password "admin" gets the hard-coded admin session, not the stored role |
| Activities.FindIndex | st_app.py:154 | the result is the first index whose id matches, or None when no activity has the id |
| Activities.FindIndexAppend | st_app.py:154 | appending a record keeps the index of every id already present, and finds a new id at the old length |
| Activities.OwnedBy | st_app.py:124 | the result contains exactly the activities whose vendor is the given user, and is no longer than the input |
| Activities.OwnedByConcat | st_app.py:124 | filtering distributes over concatenation, so the original order is kept |
| Activities.OwnedByKeepsAllIff | st_app.py:124 | filtering returns the list unchanged iff every activity belongs to the vendor |
| Activities.OwnedByIdempotent | st_app.py:124 | filtering twice equals filtering once |
| Activities.Visible | st_app.py:123-126 | a non-vendor sees the list unchanged; a vendor sees exactly the activities assigned to them |
| Activities.StatusOfLogText | st_app.py:177-201 | each button's log text is read back as the status that button sets |
| Activities.CommentRecordsNoStatus | st_app.py:224-228 | a "Comment: " entry never reads as a status change, whatever the text |
| Activities.ReplayAfterTransition | st_app.py:177-184 | after a status-change entry is appended, the log accounts for that change's target status |
| Activities.ReplayAfterComment | st_app.py:223-228 | appending a comment entry leaves the status the log accounts for unchanged |
| Activities.ReplayOfCreation | st_app.py:260-266 | the one-entry log of a new activity accounts for Pending |
| Activities.ExtendsTransitive | st_app.py:177-184 | "records only grow" composes, so any series of store operations keeps every log append-only |
| Store.Transitioned | st_app.py:177-184 | the record gets the button's status and exactly one new last log entry (timestamp, user, text); all other fields and earlier entries are unchanged, and its log accounts for the new status |
| Store.WithComment | st_app.py:224-228 | the record gets exactly one new last log entry "Comment: " + text; status, other fields and earlier entries are unchanged, and the log-explains-status invariant is kept |
| Store.ActivityStore.constructor | st_app.py:284-285 | the store starts with the given activities, each of whose log accounts for its status |
| Store.ActivityStore.UpdateStatus | st_app.py:177-184 | only the target activity changes, to Transitioned; every other activity is unchanged and the invariant holds |
| Store.ActivityStore.Press | st_app.py:154-201 | an unknown id changes nothing; a hidden or disabled button changes nothing and reports why; otherwise the first activity with the id receives the button's transition |
| Store.ActivityStore.AddComment | st_app.py:219-229 | an unknown id or empty text changes nothing; otherwise the first activity with the id receives exactly one comment entry and keeps its status |
| Store.ActivityStore.Create | st_app.py:249-269 | exactly one new Pending activity is appended with the given metadata, no coordinates and a log of one "Activity created." entry by the creator; existing activities and their id lookups are unchanged |

## Left out

- Streamlit rendering, forms, buttons, `st.rerun` and the view routing in `main` and `login_page` (st_app.py:77-93, 279-313) are user interface. Only the conditions the buttons encode are modelled.
- The log table built with pandas, and the display sorts of the log and of the activity list (st_app.py:132, 214-216), are presentation done by a foreign library.
- The JSON export and download (st_app.py:112-118) are library serialisation plus I/O.
- The mock seed data (st_app.py:9-64) is not modelled. The store's constructor accepts any activity list whose logs account for their statuses, which the seed data satisfies.
- `datetime.now()` and `uuid.uuid4()` become parameters. Creation reads the clock twice (createdAt and the log entry), so `Create` takes two timestamps.
- Auth.LowerIsAdminIff: `str.lower()` is Unicode-aware, while `LowerChar` lower-cases ASCII letters only. For comparing with "admin" the two agree, because no non-ASCII character lower-cases to a single one of the letters a, d, m, i, n.
- The GeoJSON wrapper fields `"type": "Feature"` and the geometry type `"Point"` are constants and are not stored. Only the coordinates are kept.
- Store.ActivityStore.UpdateStatus: in the source `update_status` takes any status and any text. The model takes the button instead, and sets that button's status and text. These five pairs are the only arguments the source ever passes.
- Store.ActivityStore.Create: the creation form itself has no role check. Only admins reach it, through the button at st_app.py:106-109, and that routing is not modelled.
- Store.ActivityStore.Press: the detail view has no ownership check, so the model lets any admin or vendor act on any activity id. A vendor reaches only their own activities through the filtered list and its "View Details" buttons (st_app.py:123-126, 144-147), and that routing is not modelled.
- Store.ActivityStore.AddComment: as with Press, any logged-in user may comment on any activity id; reaching only one's own activities is list-view routing (st_app.py:123-126, 144-147) and is not modelled.
- Store.ActivityStore.AddComment: the comment form sits outside the role check of st_app.py:172. Any logged-in role may comment, and the model does the same.
- Store.ActivityStore.Create: the vendor is chosen from the stored usernames by a select box. The model accepts any vendor string.
- Geofencing, distance computation, location trails, a versioned remote store with conflict detection and periodic location logging are not part of `st_app.py`, so they are not modelled.
