# Open edX course outline, entitlement support and resume URL, in Dafny

This project models three small pieces of logic from the Open edX learning
platform and proves properties of them:

- **Course outline** (`course_outline.dfy`, module `CourseOutline`). The outline
  view flattens the course's block tree into a dictionary from block id to
  display name. It also turns the course's content milestones into a "gated
  content" dictionary. That dictionary says, for each gated block, whether the
  learner has completed its prerequisites and which block is the prerequisite.
  The tree is a `Node` datatype. The dictionary object that the recursion
  fills is a `DisplayNames` class whose `entries` map the method updates in
  place. The milestone dictionaries are pure functions.
- **Entitlement support view** (`course_entitlements.dfy`, module
  `CourseEntitlements`). Support staff unexpire a learner's entitlement: the
  learner is unenrolled from the run the entitlement was spent on, the
  entitlement's expiry and enrollment are cleared, and an audit record is
  written. A stored entitlement is an `EntitlementRow` value in the
  `EntitlementTable` class. The view works on an `Entitlement` instance
  loaded from its row, whose `expiredAt` and `enrollmentCourseRun` fields
  change in memory; only `EntitlementTable.Save` writes them back.
  `SupportLedger` holds the audit rows and a ghost record of the unenroll
  calls. The module also models the
  required fields and defaults of a grant request and the listing order.
- **Resume URL** (`completion_utils.dfy`, module `CompletionUtils`). This
  builds `//{lms_base}/courses/{course_key}/jump_to/{location}` for the last
  block a learner completed. The LMS base is the organisation's configured
  value, or else the global setting.

`wrappers.dfy` holds `Option` and `Result`. `accounts.dfy` holds the `User`
account record that both views look up.

Database lookups are inputs to the model:

- the user tables are maps from user name (or e-mail) to account;
- `get_most_recent_entitlement` is a map from (user, course) to the id of a
  stored row, as an `Option`; a missing key is `DoesNotExist`, and `None` is
  the falsy result;
- the last completed block is a map from user to location;
- the site configuration is a map from organisation to LMS base.

Exceptions that a view lets escape are the `Uncaught` response or a `Failure` result.

## Model

| member | source | states |
|---|---|---|
| `CourseOutline.CreateXblockIdAndNameDict` | openedx/features/course_experience/views/course_outline.py:62-76 | A None dictionary is replaced by a fresh one. A passed-in dictionary is filled in place and the same object is returned. The entries afterwards are the recursive pre-order collection of the tree into the old entries. |
| `CourseOutline.CollectIsPreorderFold` | openedx/features/course_experience/views/course_outline.py:69-74 | The recursion gives the same dictionary as visiting the nodes one by one in pre-order, with children in list order. |
| `CourseOutline.NamesKeys` | openedx/features/course_experience/views/course_outline.py:66-76 | The result's keys are exactly the initial keys plus every truthy id found anywhere in the tree. |
| `CourseOutline.NamesLastVisitedWins` | openedx/features/course_experience/views/course_outline.py:69-74 | A node with a truthy id has an entry. When the id repeats, the entry holds the display name of the last node in pre-order that carries it. |
| `CourseOutline.NamesKeepsEarlierEntries` | openedx/features/course_experience/views/course_outline.py:66-70 | A passed-in entry whose key no tree id overwrites keeps its value. |
| `CourseOutline.IdlessNodeStillVisitsChildren` | openedx/features/course_experience/views/course_outline.py:69-74 | A node whose id is missing or empty adds no key, yet every id below it is still added. |
| `CourseOutline.StripGating` | openedx/features/course_experience/views/course_outline.py:82-83 | `re.sub('.gating', '', s)`: removes each non-overlapping left-to-right match of one non-newline character followed by `gating`. The result is no longer than the input, and it is shorter by a multiple of 7. |
| `CourseOutline.StripGatingNoMatch` | openedx/features/course_experience/views/course_outline.py:82-83 | A namespace that contains no match comes back unchanged. |
| `CourseOutline.StripGatingSuffix` | openedx/features/course_experience/views/course_outline.py:82-83 | Appending `.gating` to any string adds exactly one removed match. No match can straddle the boundary. |
| `CourseOutline.PrerequisiteOfGatingNamespace` | openedx/features/course_experience/views/course_outline.py:95 | A namespace `<key>.gating` whose key has no match yields that key as the prerequisite. |
| `CourseOutline.WildcardStripsKeyItself` | openedx/features/course_experience/views/course_outline.py:82-83 | The pattern's `.` is a wildcard: for a key made of any non-newline character followed by `gating`, such as `ygating`, the namespace `<key>.gating` yields an empty prerequisite. |
| `CourseOutline.GetContentMilestones` | openedx/features/course_experience/views/course_outline.py:78-100 | The keys are exactly the content ids of all milestones. `completed_prereqs` is true iff the id is not among the learner's uncompleted milestones. |
| `CourseOutline.PrerequisiteFromLastMilestone` | openedx/features/course_experience/views/course_outline.py:92-98 | For a repeated content id, the prerequisite comes from the last milestone naming it, with `.gating` stripped. |
| `CourseOutline.GetContentMilestonesOld` | openedx/features/course_experience/views/course_outline.py:103-122 | Same key set and the same `completed_prereqs` rule as the new version, with no prerequisite. |
| `CourseOutline.OldMilestonesAgree` | openedx/features/course_experience/views/course_outline.py:110-120 | The old and new dictionaries have the same keys and agree on `completed_prereqs` for every key. |
| `CourseEntitlements.UnexpireEntitlement` | lms/djangoapps/support/views/course_entitlements.py:123-133 | Returns the run the entitlement was spent on. Calls unenroll on that enrollment exactly once, with `skip_refund` true. Leaves the instance's `expiredAt` and `enrollmentCourseRun` both None and adds no audit row. |
| `CourseEntitlements.Update` | lms/djangoapps/support/views/course_entitlements.py:39-93 | A missing `user` field escapes as a KeyError. An unknown user, a missing `course_uuid` or `reason`, a DoesNotExist lookup, or a falsy lookup each give their 400 message. The expiry check comes before the spent check, both on the stored row. 201 is returned iff the stored entitlement is expired and spent; the answered instance is then cleared, the learner is unenrolled once, and exactly one audit row naming the run is appended. The stored row is never changed; every outcome other than 201 also leaves the ledger unchanged. |
| `CourseEntitlements.EntitlementTable.Save` | lms/djangoapps/support/views/course_entitlements.py:123-133 | The save the unexpire path lacks: the instance's fields replace its own row and no other. |
| `CourseEntitlements.UpdateAndSave` | lms/djangoapps/support/views/course_entitlements.py:123-133 | The update with the cleared instance saved: on 201 the stored row becomes the cleared row and nothing else in the table changes, the answered instance is fresh and cleared, the spent enrollment is unenrolled once with `skip_refund` true, and one audit row with the reason, the comments and the unenrolled run is appended; a row that is not expired is still answered with its 400 message. |
| `CourseEntitlements.RepeatedUnexpireUnsaved` | lms/djangoapps/support/views/course_entitlements.py:39-93 | As written, when a request is answered 201, repeating it is answered 201 again, with two unenroll calls and two audit rows in total. |
| `CourseEntitlements.RepeatedUnexpireIsRejected` | lms/djangoapps/support/views/course_entitlements.py:65-70 | With the change saved, a repeated request is answered with the not-expired 400 message, after one unenroll call and one audit row in total. |
| `CourseEntitlements.CreateFields` | lms/djangoapps/support/views/course_entitlements.py:96-113 | Success iff `user` names a known account and `course_uuid` and `reason` are present. Errors are checked in the view's order, with its messages. `comments` defaults to None and `mode` to `verified`. |
| `CourseEntitlements.Comments` | lms/djangoapps/support/views/course_entitlements.py:52 | `comments` is present exactly when the request carries it, with its value; otherwise None. |
| `CourseEntitlements.OwnedBy` | lms/djangoapps/support/views/course_entitlements.py:33 | Keeps exactly the given user's entitlements, each as often as in the input. |
| `CourseEntitlements.OrderByCreated` | lms/djangoapps/support/views/course_entitlements.py:34-36 | The result is ascending by creation time and is a permutation of the input. |
| `CourseEntitlements.FilterQueryset` | lms/djangoapps/support/views/course_entitlements.py:29-36 | The result is always ordered by `created`. A known `user` parameter narrows it to exactly that user's entitlements; an unknown or absent one leaves the whole set, reordered. |
| `CompletionUtils.ResolveUser` | lms/djangoapps/completion/utils.py:23-26 | An account object is used as is. A user name is looked up, and an unknown name is `DoesNotExist`. |
| `CompletionUtils.LmsBase` | lms/djangoapps/completion/utils.py:35-39 | The organisation's configured LMS base when there is one, otherwise the global setting. |
| `CompletionUtils.RetrieveLastBlockCompletedUrl` | lms/djangoapps/completion/utils.py:15-48 | An unknown user name escapes as `DoesNotExist`. With no completed block the result is None. An empty LMS base gives None, even when the organisation's empty value hides a global one. Otherwise the result is `//base/courses/course_key/jump_to/location`. |
| `CompletionUtils.UsernameOrUserObject` | lms/djangoapps/completion/utils.py:23-26 | Passing a user name or the account it names gives the same result. |
| `CompletionUtils.JumpToUrlDeterminesBlock` | lms/djangoapps/completion/utils.py:44-48 | For one LMS base and course, two equal URLs name the same block location. |
| `CompletionUtils.ResumeUrlOfTestCourse` | lms/djangoapps/completion/tests/test_utils.py:75-101 | In the test scenario, the engaged learner gets `//test_url:9999/courses/org.0/course_0/Run_0/jump_to/i4x://org.0/course_0/vertical/vertical_4` and the learner with no completions gets None, whether each is passed as an account object or by user name. |

## Left out

- `render_to_fragment` is not modelled. It covers template rendering, the CSRF token, course access checks and the waffle-flag choice between the two milestone functions.
- `CreateXblockIdAndNameDict`: a block with a truthy id always has a display name here. The KeyError that a missing `display_name` would raise is not modelled. Ids are strings, and truthiness is modelled only for strings and None.
- The milestone lists come in as parameters, as the result of `get_course_content_milestones` for the course and for the learner.
- Only the fixed pattern `.gating` is modelled, not a general regular-expression engine.
- `Update`, `CreateFields`, `FilterQueryset`: the username-or-e-mail lookup is a map. `MultipleObjectsReturned` (two accounts share an e-mail, or one account's e-mail is another's user name) is not modelled; no `except` in `update`, `create` or `filter_queryset` catches it, so it would escape from each.
- `Update` answers the request's in-memory `Entitlement` instance. The cited lines never save it, so `Update` leaves the stored row as it was; `UpdateAndSave` is the variant that saves it (see Findings).
- `CreateFields`: only the parsing and defaulting of `create` is modelled. The `get_or_create` call, the audit row it writes and the 201 response are not.
- `SupportLedger.Unenroll` records the call and its `skip_refund` argument. What `CourseEnrollment.unenroll` does to the enrollment, and the refund it skips, are outside this model.
- The 201 response carries the entitlement instead of its serialized form. Authentication, permission classes and the support-permission decorator are not modelled.
- `FilterQueryset`: the framework's own filter backends, applied by the superclass call, are taken to return the queryset unchanged. The order among entitlements created at the same time is left to the database; the model only promises ascending `created`.
- Timestamps are integers.
- `RetrieveLastBlockCompletedUrl`: the modulestore lookup is taken to succeed and to return the item at the completed block's own location. `ItemNotFoundError` is not modelled.
- The `print` calls in `lms/djangoapps/completion/utils.py` are not modelled.
- `lms/djangoapps/support/urls.py` (routing), `cms/djangoapps/contentstore/management/commands/create_course.py` (a command-line wrapper) and `lms/djangoapps/completion/utilities.py` (a wrapper over URL reversing) are not part of this model.

## Findings

| source | as written | input that shows it | evidently intended | confidence | as-written member | corrected member |
|---|---|---|---|---|---|---|
| lms/djangoapps/support/views/course_entitlements.py:123-133 | `unexpire_entitlement` clears `expired_at` and `enrollment_course_run` on the loaded instance and never calls `save()`, and `update` does not save it either | a second identical PUT after a 201: the stored row is still expired and spent, so the learner is unenrolled again and a second audit row is written | the cleared entitlement is saved, so the repeat is rejected as not expired | medium, not executed | `CourseEntitlements.RepeatedUnexpireUnsaved` | `CourseEntitlements.RepeatedUnexpireIsRejected` |
