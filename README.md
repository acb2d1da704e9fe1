# PhishLearn core, modelled in Dafny

PhishLearn is a Django site for security-awareness training. Employees take
courses and quizzes. IT owners and site admins publish courses and assign
quizzes and courses. A set of JSON views proxies the templates, users and
groups of a GoPhish phishing server. This project models the site's core and
proves properties of that model:

- the records and their choices, defaults and `__str__` renderings (`models.dfy`, module `Models`);
- the course state machine of `course_detail`, the grading and completion
  step of `take_quiz`, `mark_all_read` and the figures of the employee and
  IT-owner dashboards (`views.dfy`, module `Views`);
- the staff views `manage_courses`, `assign_quiz_to_users`,
  `manage_quiz_assignments` and `manage_course_assignments`
  (`staff_views.dfy`, module `StaffViews`);
- the GoPhish `TemplateView`, `UserView` and `GroupView` with GET, POST, PUT
  and DELETE (`gophish_views.dfy`, module `GophishViews`).

Two support modules hold the semantics the views rely on:

- `python.dfy` (module `Python`): `None`, exceptions as `Result`, `json.loads` values,
  truthiness, `dict.get`, `str()` of ints and bools, and `round()`;
- `tables.dfy` (module `Tables`): a table as a sequence of rows, with `filter().count()`,
  `.first()`, `get()` / `get_object_or_404`, `update_or_create` and `delete()`.

The record store is the class `Models.Database`. Each table is a `seq` field
that a view method reassigns. Each view is a method with a `modifies` clause
on the tables it writes, and an `ensures` that ties the new tables to pure
functions of the old ones. The loops over the listed users in the assignment
views are proved equal to a fold, `StaffViews.RunFrom`, of one pure step per
user. Lemmas about that fold state what the loop leaves: one row and one
notification per user, or at most one assignment per (user, quiz) pair. The
GoPhish views keep no state and are functions. The GoPhish helpers they call
(`get_template_with_id`, `modify_group`, ...) are a parameter `Api`, and
`json.loads` is a parameter `Loads`.

The views import `CourseCompletion`, `CourseProgress` and `CourseAssignment`.
They also read and write `Course.is_published`, `PhishingTest.opened` and
`PhishingTest.bounced`. `phishlearn/core/models.py` declares none of these,
so the code as written cannot even import. The model supplies each of them
with the fields the views use (`Models.CourseCompletion`, `Models.Course.isPublished`, ...).

The template and user handlers of the GoPhish views pass keywords that
their helpers do not accept:

- `modify_template` and `modify_user` have no `modified_date` parameter
  (`phishlearn/core/gophish_utils/templates.py:159`, `phishlearn/core/gophish_utils/user_management.py:161`);
- `create_template` and `create_user` have no `id` parameter (`templates.py:104`, `user_management.py:111`).

Python raises TypeError at such a call. The model binds keywords as Python
does, so it shows these handlers as the code has them: every template or
user PUT answers 400 or 404, and every POST renders the creation form with
an error (`GophishViews.PutTemplateOrUserNeverUpdates`,
`GophishViews.PostTemplateOrUserNeverCreates`). `GophishViews.PutIntended`
and `GophishViews.PostIntended` are the same handlers with calls that name
exactly the helpers' parameters. Both are listed under "## Findings".

## Model

| member | source | states |
|---|---|---|
| `Python.Round` | phishlearn/core/views.py:268 | `round(x)` is an integer within 1/2 of `x`, and a tie goes to the even integer |
| `Python.IntToStringRoundTrip` | phishlearn/core/models.py:68-69 | `str(n)` of any int parses back to `n`, so a rendered score can be read back |
| `Tables.Get` | phishlearn/core/views.py:168 | `get_object_or_404` / `get()` finds nothing exactly when no row matches; it finds one row (an index of a matching row) exactly when one matches; more than one match is MultipleObjectsReturned |
| `Tables.FirstIndex` | phishlearn/core/views.py:169-170 | `.first()` is the earliest matching row, or none exactly when no row matches |
| `Tables.Upsert` | phishlearn/core/views.py:265-269 | `update_or_create` succeeds exactly when at most one row matches |
| `Tables.UpsertLeavesOne` | phishlearn/core/views.py:748-755 | after a successful `update_or_create` exactly one row matches the key, and it is either the created row or an updated former match |
| `Tables.UpsertOtherKey` | phishlearn/core/views.py:665-672 | `update_or_create` on one key leaves the count of every disjoint key unchanged, and adds no row of that key |
| `Tables.RemoveAt` | phishlearn/core/views.py:694 | `delete()` drops exactly row `i` and keeps the others in order |
| `Tables.CountRemoveAt` | phishlearn/core/views.py:777 | deleting a row lowers a count by one exactly when that row matched |
| `Models.ChoiceLabel` | phishlearn/core/models.py:8-12 | `get_FOO_display()`: the label of the matching choice (the declared choices are distinct), or the value itself when it is not a choice |
| `Models.NewProfile` | phishlearn/core/models.py:14-16 | a new profile refers to its user, has type `employee` (a declared choice, shown as "Employee") and an empty organization |
| `Models.NewNotification` | phishlearn/core/models.py:131-135 | a created notification keeps user, message and link, and is unread |
| `Models.NewQuizAssignment` | phishlearn/core/models.py:144-153 | an assignment created without a status is `pending`, a declared choice, and keeps its other fields |
| `Models.DashedParts` | phishlearn/core/models.py:20 | "a - b" consists of `a`, the separator " - " and `b`, in that order |
| `Models.QuizRendering` | phishlearn/core/models.py:44-45 | a quiz renders as its course title, " - ", then its own title |
| `Models.QuizAttemptRendering` | phishlearn/core/models.py:68-69 | an attempt renders as "email - quiz title - " followed by a text that parses back to the score |
| `Models.GroupAndAssignmentRendering` | phishlearn/core/models.py:98-99 | a group is its name, " - ", then the owner's email; an assignment (155-156) is the username, " - ", then the quiz title |
| `Models.LoginAttemptRendering` | phishlearn/core/models.py:109-110 | a login attempt of a user starts with that user's text |
| `Models.NotificationShowsWholeMessage` | phishlearn/core/models.py:141-142 | after "username - " a notification shows the whole message exactly when it has at most 30 characters, and otherwise its first 30 |
| `Models.CreateUserProfile` | phishlearn/core/models.py:22-25 | with `created` false nothing is written; a created user without a profile gets exactly one default profile; a second profile of the same user fails (the one-to-one key of line 14) |
| `Models.SaveUser` | phishlearn/core/models.py:22-25 | saving a user with a new id appends the user and exactly one default profile; saving an existing id replaces that user's row and writes no profile |
| `Views.UserType` | phishlearn/core/views.py:32 | `request.user.userprofile.user_type` succeeds exactly when the user has one profile row, and is that row's type |
| `Views.Percent` | phishlearn/core/views.py:242 | `int(n / d * 100)` is never negative, is at most 100 when `n <= d`, is 0 exactly when `100n < d`, and reaches 100 exactly when `n >= d` |
| `Views.GuardedPercent` | phishlearn/core/views.py:55 | the dashboards' guarded percentage is 0 without courses, never negative, at most 100 when `n <= d`, and 100 exactly when everything is done |
| `Views.QuizPercentage` | phishlearn/core/views.py:242 | the quiz percentage raises ZeroDivisionError exactly for a quiz without questions; it lies in 0..100, and is 100 exactly for a full score |
| `Views.MeanBounds` | phishlearn/core/views.py:184 | the mean of scores lies between their lower and upper bounds |
| `Views.ScoresOn` | phishlearn/core/views.py:178-181 | one score per attempt of the user on the course's quizzes |
| `Views.ScoresOnBounds` | phishlearn/core/views.py:178-184 | every selected score keeps the bounds of the attempt table |
| `Views.CompletionScoreBounds` | phishlearn/core/views.py:183-186 | with attempt scores in 0..100 the completion score of `complete` is in 0..100 |
| `Views.CompletionScoreWithoutAttempts` | phishlearn/core/views.py:183-186 | a user with no attempt on the course's quizzes completes it with score 0 |
| `Views.Grade` | phishlearn/core/views.py:235-240 | a graded submission scores at most one point per question |
| `Views.GradeErrorSticks` | phishlearn/core/views.py:238 | once a question raises DoesNotExist, the whole submission raises that error |
| `Views.GradeStep` | phishlearn/core/views.py:236-240 | a question adds at most one point, and adds one exactly when it was answered with an existing correct choice |
| `Views.ScoreSubmission` | phishlearn/core/views.py:232-240 | the scoring loop computes `Grade`: the score, or the first question's error |
| `Views.WithoutFirstProgressCounts` | phishlearn/core/views.py:195-196 | `progress.delete()` leaves the pair no progress row when it had at most one, and never adds a row to any pair |
| `Views.CourseDetail` | phishlearn/core/views.py:167-224 | 404 for a missing course, a render on GET and a redirect on POST. `complete` without a completion records one, scored with `CompletionScore`, removes the progress row, sends one notification and leaves the course Completed. `mark_in_progress` with neither row adds one progress row and leaves it InProgress. Every other request writes nothing, and both writes keep at most one row per (user, course) |
| `Views.CompletionAfterQuizAsWritten` | phishlearn/core/views.py:258-269 | as written, the completion step raises NameError exactly when every quiz of the course has an attempt, and otherwise changes nothing |
| `Views.CompletionAfterQuiz` | phishlearn/core/views.py:258-269 | the intended step changes nothing until every quiz has an attempt, and fails only when the pair already has two completions |
| `Views.CompletionAfterQuizLeavesOne` | phishlearn/core/views.py:265-269 | after the intended step there is exactly one completion for (user, course), scored with the rounded mean, and every other pair keeps its count |
| `Views.MissingAvgImportBreaksCompletion` | phishlearn/core/views.py:263 | on every submission that completes a course, the code as written fails where the intended step records one completion |
| `Views.QuizCompletionScoreBounds` | phishlearn/core/views.py:260-268 | the rounded mean recorded by `take_quiz` is in 0..100 |
| `Views.SubmissionPercent` | phishlearn/core/views.py:242 | a graded submission's percentage is in 0..100, and is 100 exactly when every question scored |
| `Views.TakeQuiz` | phishlearn/core/views.py:227-284 | 404 for a missing quiz and a render on GET. A submission that raises, or a quiz without questions, writes nothing. A graded submission appends exactly one attempt with its percentage, then either runs the completion step and sends one notification, or fails with the attempt already written. Once every quiz of the course is attempted, the corrected completion step leaves the pair exactly one completion (see `Views.TakeQuiz` under "## Left out") |
| `Views.MarkedRead` | phishlearn/core/views.py:581 | every notification of the user becomes read; no other field and no other user's notification changes |
| `Views.MarkedReadCounts` | phishlearn/core/views.py:581 | after marking, the user has no unread notification, and the read count is the old read plus unread count |
| `Views.MarkedReadOthers` | phishlearn/core/views.py:581 | another user's read and unread counts are unchanged |
| `Views.MarkedReadIdempotent` | phishlearn/core/views.py:581 | marking twice is marking once |
| `Views.MarkAllRead` | phishlearn/core/views.py:580-582 | the notifications become `MarkedRead` of the old ones, the user has none unread, and the view redirects to the dashboard |
| `Views.NotStartedMatchesCourseState` | phishlearn/core/views.py:36-52 | a course counts as not started on the dashboard exactly when it is published and `course_detail` shows it as not started |
| `Views.EmployeeCountsPartition` | phishlearn/core/views.py:36-55 | with unique course ids and one row per (user, course), completed, in progress and not started are the sizes of a partition of the published courses; not started is never negative, and the percentage is in 0..100 |
| `Views.AsWrittenCountsWhenCompletionsPublished` | phishlearn/core/views.py:40-52 | when all of the user's completions are on published courses, the code's counts equal the intended ones |
| `Views.UnpublishedCompletionMiscounts` | phishlearn/core/views.py:41-55 | a completion on a course that is no longer published makes the code show −1 courses not started and 200% progress |
| `Views.ListedEmployeesMembers` | phishlearn/core/views.py:94-100 | the IT owner's list holds exactly the active users with an employee profile and at least one of first and last name |
| `Views.Rate` | phishlearn/core/views.py:110-120 | a campaign rate is in 0..100, 0 without tests, and 100 exactly when every test has the property |
| `Views.CampaignRates` | phishlearn/core/views.py:109-120 | the open, click and bounce rates are each in 0..100, and all 0 without tests |
| `Views.ProgressPercentBounds` | phishlearn/core/views.py:103-106 | the corrected per-employee figure, over completions of published courses only, is a percentage in 0..100 |
| `Views.ProgressPercentAsWrittenBounds` | phishlearn/core/views.py:103-106 | the per-employee figure as the code computes it, over all of the employee's completions, is in 0..100 whenever every course the employee completed is still published |
| `Views.Dashboard` | phishlearn/core/views.py:30-150 | a user without a profile is sent home with the error; an employee gets the corrected course counts (see `Views.Dashboard` under "## Left out"), unread count and pending assignments; an IT owner gets the listed employees, one corrected progress figure each, and the campaign rates; every other type gets the admin dashboard |
| `StaffViews.Toggled` | phishlearn/core/views.py:467-469 | only the chosen course's published flag flips; every other course and field is unchanged |
| `StaffViews.ToggledTwice` | phishlearn/core/views.py:468 | toggling twice restores the course table |
| `StaffViews.ToggledPublishedIds` | phishlearn/core/views.py:468 | with unique ids, toggling removes the course from the published set when it was published, and adds it otherwise |
| `StaffViews.ManageCourses` | phishlearn/core/views.py:456-493 | only site admins act. `toggle_publish` flips one found course or answers 404. Any other POST appends one course with the requester as author and `is_published` true exactly for "on", or fails when a required field is missing. GET writes nothing |
| `StaffViews.NotifiedEachStep` | phishlearn/core/views.py:569-573 | each pass of the loop appends one notification for its user |
| `StaffViews.QuizAssignedEachStep` | phishlearn/core/views.py:562-566 | each pass of the loop appends one pending assignment with the next id |
| `StaffViews.QuizAssignmentsFor` | phishlearn/core/views.py:558-566 | the created rows: one per listed user, in order, with consecutive ids |
| `StaffViews.QuizAssignmentsForCount` | phishlearn/core/views.py:558-566 | a user listed k times gets k rows for the quiz |
| `StaffViews.QuizAssignedEachCounts` | phishlearn/core/views.py:558-566 | after the loop each user has as many more rows for the quiz as they were listed; rows are created, never updated |
| `StaffViews.CreateQuizStepKeeps` | phishlearn/core/views.py:559-573 | a pass for an existing user extends the loop state by one assignment, one id and one notification |
| `StaffViews.CreateQuizRunFrom` | phishlearn/core/views.py:558-573 | the rest of the loop gets through exactly when every listed user exists; otherwise it fails with 404 or a server error |
| `StaffViews.CreateQuizRun` | phishlearn/core/views.py:558-573 | the loop gets through exactly when every listed user exists; each user, in order, then has one new pending assignment with consecutive ids and one notification; a failure is 404 or a server error |
| `StaffViews.CreateQuizAssignment` | phishlearn/core/views.py:559-573 | one pass on the record store is the pure step |
| `StaffViews.CreateQuizAssignments` | phishlearn/core/views.py:558-573 | the loop on the record store is the fold of the step over the listed users |
| `StaffViews.AssignQuizToUsers` | phishlearn/core/views.py:539-577 | only IT owners and site admins write, only on POST; a malformed date is a server error and a missing quiz is 404; otherwise the tables are the fold of `CreateQuizRun`, and so is the reply |
| `StaffViews.QuizUpsertedKeepsOnePerPair` | phishlearn/core/views.py:748-755 | the upserts keep at most one assignment per (user, quiz) |
| `StaffViews.QuizUpsertBlocked` | phishlearn/core/views.py:748-755 | a pair with two rows had two rows before: upserts never duplicate a pair |
| `StaffViews.QuizUpsertStep` | phishlearn/core/views.py:748-755 | one more upsert of a pair with at most one row succeeds, and the invariant extends to that user |
| `StaffViews.UpsertQuizRunStepKeeps` | phishlearn/core/views.py:745-762 | a pass for an existing user succeeds exactly when the pair has at most one row, and then extends the loop state |
| `StaffViews.UpsertQuizRunFrom` | phishlearn/core/views.py:744-762 | the rest of the loop gets through exactly when every listed user exists and none has two rows for the quiz |
| `StaffViews.UpsertQuizRun` | phishlearn/core/views.py:744-762 | the loop gets through exactly when every listed user exists and none has two rows; then each has exactly one pending row due at the due date; every row of another (user, quiz) pair is kept as it was and none is added; and each listing sent one notification |
| `StaffViews.QuizRowsKeptStep` | phishlearn/core/views.py:748-755 | one `update_or_create` of (user, quiz) keeps every row of another pair and adds none |
| `StaffViews.UpsertQuizRunKeepsOnePerPair` | phishlearn/core/views.py:744-755 | an assign action that gets through keeps at most one assignment per (user, quiz) |
| `StaffViews.UpsertQuizAssignment` | phishlearn/core/views.py:745-762 | one pass on the record store is the pure upsert step |
| `StaffViews.UpsertQuizAssignments` | phishlearn/core/views.py:744-762 | the loop on the record store is the fold of the upsert step |
| `StaffViews.RemoveQuizAssignment` | phishlearn/core/views.py:766-778 | removal succeeds exactly when the assignment and its quiz exist; the assignment is then gone and its user has one notification; otherwise nothing is written |
| `StaffViews.ManageQuizAssignments` | phishlearn/core/views.py:721-801 | only IT owners and site admins act; assign writes the fold of `UpsertQuizRun` and remove the effect of `RemoveQuizAssignment`; a GET or another action renders the page and writes nothing |
| `StaffViews.CourseUpsertedKeepsOnePerPair` | phishlearn/core/views.py:665-672 | the course upserts keep at most one assignment per (user, course) |
| `StaffViews.CourseUpsertBlocked` | phishlearn/core/views.py:665-672 | a pair with two rows had two rows before |
| `StaffViews.CourseUpsertStep` | phishlearn/core/views.py:665-672 | one more upsert of a pair with at most one row succeeds and extends the invariant |
| `StaffViews.UpsertCourseRunStepKeeps` | phishlearn/core/views.py:662-679 | a pass for an existing user succeeds exactly when the pair has at most one row |
| `StaffViews.UpsertCourseRunFrom` | phishlearn/core/views.py:661-679 | the rest of the loop gets through exactly when every listed user exists and none has two rows |
| `StaffViews.UpsertCourseRun` | phishlearn/core/views.py:661-679 | the loop gets through exactly when every listed user exists and none has two rows; then each has exactly one row assigned by the requester and due at the due date; every row of another (user, course) pair is kept as it was and none is added; and each listing sent one notification |
| `StaffViews.CourseRowsKeptStep` | phishlearn/core/views.py:665-672 | one `update_or_create` of (user, course) keeps every row of another pair and adds none |
| `StaffViews.UpsertCourseRunKeepsOnePerPair` | phishlearn/core/views.py:661-672 | an assign action that gets through keeps at most one assignment per (user, course) |
| `StaffViews.UpsertCourseAssignment` | phishlearn/core/views.py:662-679 | one pass on the record store is the pure upsert step |
| `StaffViews.UpsertCourseAssignments` | phishlearn/core/views.py:661-679 | the loop on the record store is the fold of the upsert step |
| `StaffViews.RemoveCourseAssignment` | phishlearn/core/views.py:683-695 | removal succeeds exactly when the assignment and its course exist; the assignment is then gone and its user notified; otherwise nothing is written |
| `StaffViews.ManageCourseAssignments` | phishlearn/core/views.py:640-718 | as `manage_quiz_assignments`, for courses, with no default due date |
| `GophishViews.FirstUnexpected` | phishlearn/core/gophish_views.py:112-120 | the position of the first keyword with no matching parameter, or none when all keywords bind |
| `GophishViews.Call` | phishlearn/core/gophish_views.py:112-120 | a call whose keywords all bind runs the helper; otherwise it raises TypeError naming the first unexpected keyword |
| `GophishViews.Pick` | phishlearn/core/gophish_views.py:67-69 | the projection has exactly the listed keys, each holding `d.get(k)` |
| `GophishViews.ProjectEach` | phishlearn/core/gophish_views.py:67-70 | projecting a list succeeds exactly when every element is a dict, keeping length and order; otherwise it fails at the first non-dict |
| `GophishViews.Project` | phishlearn/core/gophish_views.py:63-70 | a list is projected element by element; a non-empty dict or string fails with `'str' object has no attribute 'get'`, since its elements are strings; a number, bool or None is not iterable |
| `GophishViews.PutStatuses` | phishlearn/core/gophish_views.py:103-127 | PUT always answers JSON with 200, 400, 404 or 500, and 404, with its message, exactly when the body decodes and the lookup's answer is falsy. A body that does not decode, or a lookup that raises, answers 400 with the exception's message (lines 126-127) |
| `GophishViews.PutNotFoundIgnoresUpdate` | phishlearn/core/gophish_views.py:108-110 | a PUT on a missing resource answers 404 and never calls the modify helper |
| `GophishViews.ModifyCallRejected` | phishlearn/core/gophish_utils/templates.py:159 | the template and user modify calls raise TypeError for `modified_date`, whatever the values |
| `GophishViews.PutTemplateOrUserNeverUpdates` | phishlearn/core/gophish_views.py:112-120 | a template or user PUT answers 400 or 404 and never reaches the helper; once the resource is found, the 400 is that TypeError |
| `GophishViews.IntendedModifyKeywordsBind` | phishlearn/core/gophish_utils/templates.py:159 | the corrected modify keywords are exactly the helper's parameters, so every one binds; they include the id and every merged field |
| `GophishViews.IntendedPutArguments` | phishlearn/core/gophish_views.py:112-120 | the corrected modify call gets exactly the helper's parameters: the id, None for `modified_date`, and for each merged field the body's value when present, else the existing resource's |
| `GophishViews.IntendedPutCallsUpdate` | phishlearn/core/gophish_views.py:103-127 | the corrected PUT with a dict body on a found resource answers with what the modify helper returns for those arguments, for every kind; for groups (lines 283-303) it is the PUT as written |
| `GophishViews.AfterModifyStatuses` | phishlearn/core/gophish_views.py:122-127 | after the modify call, an exception is 400 with its message, a falsy result 500, and a truthy one the 200 success message |
| `GophishViews.GetOne` | phishlearn/core/gophish_views.py:57-61 | GET with an id answers 404 for a falsy answer and the resource itself for a dict; a helper exception leaves the view |
| `GophishViews.GetList` | phishlearn/core/gophish_views.py:62-71 | GET without an id answers 500 when the list helper returns None; for a list of dicts it answers 200 with one element per item, each with exactly the kind's three keys |
| `GophishViews.DeleteStatuses` | phishlearn/core/gophish_views.py:130-139 | DELETE answers 400 exactly when the helper raises, 500 naming the id exactly when its result is falsy, and 200 exactly when it is truthy |
| `GophishViews.PostTemplateOrUserNeverCreates` | phishlearn/core/gophish_views.py:83-91 | a template or user POST always renders the creation form with an error and never reaches the helper; once the JSON field decodes, the error is the TypeError for `id` |
| `GophishViews.IntendedCreateKeywordsBind` | phishlearn/core/gophish_utils/templates.py:104 | the corrected create keywords are exactly the helper's parameters, so every one binds; they include the field decoded as JSON |
| `GophishViews.IntendedPostCreates` | phishlearn/core/gophish_views.py:77-100 | once the JSON field decodes, the corrected POST calls the create helper with exactly its parameters: None for id and modified date where it has them, the decoded field, and the other form fields as given. It redirects exactly when the helper returns a truthy dict; for groups (lines 260-280) it is the POST as written |

## Left out

- Views.Percent: the source computes `int(n / d * 100)` in floating point. The model takes the exact floor of 100·n/d. For some inputs the float result is one lower (29 of 100 gives 28 in Python).
- Views.CompletionScoreBounds: scores are exact reals. Float rounding of `sum / count` is not modelled.
- Views.TakeQuiz: runs the corrected completion step `Views.CompletionAfterQuiz`. The code as written raises NameError there, because `Avg` is never imported (views.py:263). That as-written step is `Views.CompletionAfterQuizAsWritten`, and "## Findings" relates the two.
- Views.Dashboard: computes the employee counts and the IT owner's per-employee progress with the corrected functions `Views.EmployeeCounts` and `Views.ProgressPercent`, which count only completions of published courses. The code counts every completion of the user (views.py:40-55, 105-106). Those as-written figures are `Views.EmployeeCountsAsWritten` and `Views.ProgressPercentAsWritten`. They agree with the corrected ones whenever every completed course is still published (`Views.AsWrittenCountsWhenCompletionsPublished`); "## Findings" gives an input where they differ.
- GophishViews.Call: models only calls that pass every parameter of the helper, which all calls in these views do. A TypeError for a missing argument is therefore not modelled.
- Flash messages (`messages.success` / `messages.error`) are left out: they are not stored in any table.
- Template contexts are left out. Renders are reduced to the template name, and redirects to the route name.
- Query ordering (`order_by`, the `Meta.ordering` of notifications and module completions) is left out. Every query returns rows in table order, so the dashboard's pending assignments are not sorted by due date.
- `auto_now_add` and `created_at` timestamps are left out; they only order rows. An assignment's `assigned_date` is the clock value `now`, which the views take as a parameter.
- One id counter serves all tables (`Database.nextId`), where the database has one per table. The model compares ids only within a table.
- Form fields arrive as parsed values. A non-numeric `course_id`, `quiz_id` or user id is not modelled; a malformed due date is (`DueField.Malformed`, the ValueError of `strptime`).
- `make_aware` and time zones are left out: a due date is the time given.
- `login_required`, `csrf_exempt`, URL routing and `reverse` are left out. A link is its route name and arguments (`Models.Url`).
- `max_length` of the character fields is not enforced.
- The other views in `phishlearn/core/views.py` are not part of this model: `home`, `course_list`, `send_phishing_test`, the group views, `manage_templates`, `login_dashboard`, `module_list` and `module_detail`. Neither are `gophish_management` and the `Create...FormView` classes, which only render.
- JSON numbers with a fraction (`1.5`, `"targets": 2.5`) are left out: `Python.Value` has no float, so `json.loads` in the model yields only integers, strings, booleans, None, lists and dicts.
- The GoPhish helpers (HTTP calls to the GoPhish server) and `json.loads` are parameters, not models. None of the GoPhish views is routed in `phishlearn/core/urls.py`, so ids are taken as ints.
- `JsonResponse` serialisation is the body map itself; every modelled value is JSON.
- A uniqueness constraint on `CourseCompletion`, `CourseProgress` or `CourseAssignment` is not known, because those models are not declared. The one-row-per-pair properties are stated as invariants that the views keep.
- The model writes no transactions, and neither does the source: rows a loop wrote before a 404 or a server error stay written.

## Findings

| source | as written | input that shows it | evidently intended | confidence | as-written member | corrected member |
|---|---|---|---|---|---|---|
| phishlearn/core/views.py:263 | `take_quiz` aggregates with `Avg('score')`, but `Avg` is never imported, so it raises NameError | a POST that answers the last unattempted quiz of a course: the attempt is saved, then the view fails | `update_or_create` one completion scored with the rounded mean | high, not executed | `Views.CompletionAfterQuizAsWritten`, shown by `Views.MissingAvgImportBreaksCompletion` | `Views.CompletionAfterQuiz`, proved by `Views.CompletionAfterQuizLeavesOne` |
| phishlearn/core/views.py:40-55 | the employee dashboard counts every completion of the user as completed, including completions of courses no longer published (also line 105 for the IT owner's figure) | course 1 unpublished and course 2 published, the user holding a completion of each: total 1, completed 2, not started −1, progress 200% | count only completions of published courses, so the three counts partition the published courses | medium, not executed | `Views.EmployeeCountsAsWritten`, shown by `Views.UnpublishedCompletionMiscounts` | `Views.EmployeeCounts`, proved by `Views.EmployeeCountsPartition` |
| phishlearn/core/gophish_views.py:112-120 | the template PUT passes `modified_date` to `modify_template`, which has no such parameter (`gophish_utils/templates.py:159`). The user PUT does the same with `modify_user` (lines 205-211, `gophish_utils/user_management.py:161`) | any PUT whose body is a JSON object, on an existing template: the answer is 400 "modify_template() got an unexpected keyword argument 'modified_date'" and the template is unchanged | pass exactly the helper's parameters, so the merged fields reach it | high, not executed | `GophishViews.Put`, shown by `GophishViews.PutTemplateOrUserNeverUpdates` | `GophishViews.PutIntended`, proved by `GophishViews.IntendedPutCallsUpdate` |
| phishlearn/core/gophish_views.py:83-91 | the template POST passes `id` and `modified_date` to `create_template`, which has neither parameter (`gophish_utils/templates.py:104`). The user POST does the same with `create_user` (lines 178-184, `gophish_utils/user_management.py:111`) | any template POST whose `attachments` field decodes: the creation form comes back with "create_template() got an unexpected keyword argument 'id'" | pass exactly the helper's parameters, so the template is created | high, not executed | `GophishViews.Post`, shown by `GophishViews.PostTemplateOrUserNeverCreates` | `GophishViews.PostIntended`, proved by `GophishViews.IntendedPostCreates` |
