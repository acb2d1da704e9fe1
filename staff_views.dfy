/** The views of PhishLearn's staff: publishing and creating courses
    (`manage_courses`), assigning quizzes (`assign_quiz_to_users`,
    `manage_quiz_assignments`) and assigning courses
    (`manage_course_assignments`). A view that loops over the listed users is
    proved equal to a fold of one pure step per user, and the properties of
    the views are lemmas about those folds. */
module StaffViews {
  import opened Python
  import opened Tables
  import opened Models
  import opened Views

  // ---------------------------------------------------------------------------
  // manage_courses

  /** The POST forms of `manage_courses`; a GET is `NoForm`. Every other POST
      creates a course from the `title`, `description`, `content` and
      `is_published` fields, where an absent field is None. */
  datatype CourseForm =
    | TogglePublish(courseId: int)
    | CreateCourse(title: Option<string>, description: Option<string>, content: Option<string>, publish: Option<string>)
    | NoForm

  /** `courses[i]` with its published flag flipped. */
  function Toggled(courses: seq<Course>, i: nat): (r: seq<Course>)
    requires i < |courses|
    ensures |r| == |courses|
    ensures r[i].isPublished == !courses[i].isPublished
    ensures r[i] == courses[i].(isPublished := r[i].isPublished)
    ensures forall j :: 0 <= j < |courses| && j != i ==> r[j] == courses[j]
  {
    courses[i := courses[i].(isPublished := !courses[i].isPublished)]
  }

  /** Toggling twice restores the table. */
  lemma ToggledTwice(courses: seq<Course>, i: nat)
    requires i < |courses|
    ensures Toggled(Toggled(courses, i), i) == courses
  {
    assert forall j :: 0 <= j < |courses| ==> Toggled(Toggled(courses, i), i)[j] == courses[j];
  }

  /** With unique course ids, toggling moves exactly that course into or out
      of the published set that the dashboards count. */
  lemma ToggledPublishedIds(courses: seq<Course>, i: nat)
    requires i < |courses| && UniqueCourseIds(courses)
    ensures PublishedIds(Toggled(courses, i)) ==
      if courses[i].isPublished then PublishedIds(courses) - {courses[i].id} else PublishedIds(courses) + {courses[i].id}
  {
    var next := Toggled(courses, i);
    forall k ensures k in PublishedIds(next) <==> k in (if courses[i].isPublished then PublishedIds(courses) - {courses[i].id} else PublishedIds(courses) + {courses[i].id}) {
      KeysOfMembers(next, IsPublished, CourseId, k);
      KeysOfMembers(courses, IsPublished, CourseId, k);
    }
  }

  /** The checkbox `request.POST.get('is_published') == 'on'`. */
  predicate IsOn(field: Option<string>)
  {
    field == Some("on")
  }

  /** `manage_courses(request)`: site admins only. `toggle_publish` flips one
      course's flag; any other POST creates a course, which fails with
      IntegrityError when a required field is absent; a GET renders the list. */
  method ManageCourses(db: Database, requester: int, form: CourseForm) returns (reply: Reply)
    modifies db`courses, db`nextId
    ensures UserType(old(db.profiles), requester).Err? ==> reply.ServerError? && unchanged(db)
    ensures UserType(old(db.profiles), requester).Ok? && UserType(old(db.profiles), requester).value != "site_admin" ==>
      reply == Redirect("dashboard") && unchanged(db)
    ensures UserType(old(db.profiles), requester) == Ok("site_admin") ==>
      match form
      case NoForm => reply == Render("core/manage_courses.html") && unchanged(db)
      case TogglePublish(id) =>
        (match Get(old(db.courses), CourseWithId(id))
         case Missing => reply == NotFound && unchanged(db)
         case Ambiguous => reply.ServerError? && unchanged(db)
         case Found(i) => reply == Redirect("manage_courses") && db.courses == Toggled(old(db.courses), i) && db.nextId == old(db.nextId))
      case CreateCourse(title, description, content, publish) =>
        if title.None? || description.None? || content.None? then reply.ServerError? && unchanged(db)
        else
          && reply == Redirect("manage_courses")
          && db.courses == old(db.courses) + [Course(old(db.nextId), title.value, description.value, content.value, requester, IsOn(publish))]
          && db.nextId == old(db.nextId) + 1
  {
    var userType := UserType(db.profiles, requester);
    if userType.Err? {
      return ServerError(userType.error);
    }
    if userType.value != "site_admin" {
      return Redirect("dashboard");
    }
    match form
    case NoForm =>
      reply := Render("core/manage_courses.html");
    case TogglePublish(id) =>
      var found := Get(db.courses, CourseWithId(id));
      if found.Missing? {
        return NotFound;
      } else if found.Ambiguous? {
        return ServerError("MultipleObjectsReturned");
      }
      var course := db.courses[found.index];
      db.courses := db.courses[found.index := course.(isPublished := !course.isPublished)];
      reply := Redirect("manage_courses");
    case CreateCourse(title, description, content, publish) =>
      if title.None? || description.None? || content.None? {
        return ServerError("IntegrityError: NOT NULL constraint failed");
      }
      db.courses := db.courses + [Course(db.nextId, title.value, description.value, content.value, requester, IsOn(publish))];
      db.nextId := db.nextId + 1;
      reply := Redirect("manage_courses");
  }

  // ---------------------------------------------------------------------------
  // Assignments: shared pieces

  /** Whether the requester may manage assignments: a profile whose type is
      `it_owner` or `site_admin`. */
  predicate MayAssign(profiles: seq<UserProfile>, requester: int)
  {
    UserType(profiles, requester).Ok? && IsStaffType(UserType(profiles, requester).value)
  }

  /** The `due_date` form field: absent or empty, a date that
      `strptime(..., '%Y-%m-%d')` accepts (given as the aware time it
      denotes), or text it rejects with ValueError. */
  datatype DueField = NoDue | DueOn(t: Time) | Malformed

  /** The due date the quiz views store: the given date, or 14 days from now. */
  function QuizDue(due: DueField, now: Time): (d: Option<Time>)
    requires !due.Malformed?
    ensures d.Some?
    ensures due.NoDue? ==> d.value == now + 14 * Day
    ensures due.DueOn? ==> d.value == due.t
  {
    match due
    case DueOn(t) => Some(t)
    case NoDue => Some(now + 14 * Day)
  }

  /** The due date `manage_course_assignments` stores: the given date, or none. */
  function CourseDue(due: DueField): (d: Option<Time>)
    requires !due.Malformed?
    ensures d.None? <==> due.NoDue?
    ensures due.DueOn? ==> d == Some(due.t)
  {
    match due
    case DueOn(t) => Some(t)
    case NoDue => None
  }

  function Occurrences(ids: seq<int>, id: int): nat
  {
    Count(ids, (x: int) => x == id)
  }

  function QuizAssignmentOf(user: int, quiz: int): QuizAssignment -> bool
  {
    (a: QuizAssignment) => a.user == user && a.quiz == quiz
  }

  /** The tables the assignment loops write: the assignments (of quizzes or of
      courses), the notifications and the id counter. */
  datatype Writes<A> = Writes(assignments: seq<A>, notifications: seq<Notification>, nextId: int)

  /** Running `step` from `state` for the listed users `userIds[i..]` in
      order, stopping at the first failure, whose reply comes back with the
      rows written before it: the views run without a transaction, so those
      rows stay. */
  function RunFrom<S>(state: S, userIds: seq<int>, i: nat, step: (S, int) -> (S, Option<Reply>)): (S, Option<Reply>)
    requires i <= |userIds|
    decreases |userIds| - i
  {
    if i == |userIds| then (state, None)
    else
      var next := step(state, userIds[i]);
      if next.1.Some? then next else RunFrom(next.0, userIds, i + 1, step)
  }

  /** The first `n` listed users are user rows. */
  predicate AllUsersFound(users: seq<User>, userIds: seq<int>, n: nat)
    requires n <= |userIds|
  {
    forall k :: 0 <= k < n ==> Get(users, UserWithId(userIds[k])).Found?
  }

  /** `after` is `before` followed by one notification for each of the first
      `n` listed users, in order. */
  predicate NotifiedEach(before: seq<Notification>, after: seq<Notification>, userIds: seq<int>, n: nat, message: string, link: Url)
    requires n <= |userIds|
  {
    && |after| == |before| + n && after[..|before|] == before
    && forall k :: 0 <= k < n ==> after[|before| + k] == NewNotification(userIds[k], message, link)
  }

  lemma NotifiedEachStep(before: seq<Notification>, after: seq<Notification>, userIds: seq<int>, n: nat, message: string, link: Url)
    requires n < |userIds|
    requires NotifiedEach(before, after, userIds, n, message, link)
    ensures NotifiedEach(before, after + [NewNotification(userIds[n], message, link)], userIds, n + 1, message, link)
  {
    assert (after + [NewNotification(userIds[n], message, link)])[..|before|] == after[..|before|];
  }

  // ---------------------------------------------------------------------------
  // assign_quiz_to_users

  /** One pass of the loop of `assign_quiz_to_users`: look the user up, then
      create a pending assignment with the next id and notify the user. */
  function CreateQuizStep(users: seq<User>, quiz: Quiz, due: Option<Time>, now: Time): (Writes<QuizAssignment>, int) -> (Writes<QuizAssignment>, Option<Reply>)
  {
    (w: Writes<QuizAssignment>, u: int) =>
      var found := Get(users, UserWithId(u));
      if found.Missing? then (w, Some(NotFound))
      else if found.Ambiguous? then (w, Some(ServerError("MultipleObjectsReturned")))
      else (Writes(w.assignments + [NewQuizAssignment(w.nextId, u, quiz.id, now, due)],
                   w.notifications + [NewNotification(u, "New quiz assigned: " + quiz.title, Url("take_quiz", [quiz.id]))],
                   w.nextId + 1), None)
  }

  /** `after` is `before` followed by one new assignment for each of the first
      `n` listed users, with consecutive ids from `firstId`. */
  predicate QuizAssignedEach(before: seq<QuizAssignment>, after: seq<QuizAssignment>, firstId: int, userIds: seq<int>, n: nat, quiz: int, now: Time, due: Option<Time>)
    requires n <= |userIds|
  {
    && |after| == |before| + n && after[..|before|] == before
    && forall k :: 0 <= k < n ==> after[|before| + k] == NewQuizAssignment(firstId + k, userIds[k], quiz, now, due)
  }

  lemma QuizAssignedEachStep(before: seq<QuizAssignment>, after: seq<QuizAssignment>, firstId: int, userIds: seq<int>, n: nat, quiz: int, now: Time, due: Option<Time>)
    requires n < |userIds|
    requires QuizAssignedEach(before, after, firstId, userIds, n, quiz, now, due)
    ensures QuizAssignedEach(before, after + [NewQuizAssignment(firstId + n, userIds[n], quiz, now, due)], firstId, userIds, n + 1, quiz, now, due)
  {
    assert (after + [NewQuizAssignment(firstId + n, userIds[n], quiz, now, due)])[..|before|] == after[..|before|];
  }

  /** The assignments `assign_quiz_to_users` creates, in order. */
  function QuizAssignmentsFor(firstId: int, userIds: seq<int>, quiz: int, now: Time, due: Option<Time>): (r: seq<QuizAssignment>)
    ensures |r| == |userIds|
    ensures forall k :: 0 <= k < |r| ==> r[k] == NewQuizAssignment(firstId + k, userIds[k], quiz, now, due)
  {
    seq(|userIds|, k requires 0 <= k < |userIds| => NewQuizAssignment(firstId + k, userIds[k], quiz, now, due))
  }

  /** The created rows hold one (user, quiz) pair per listing of the user. */
  lemma {:induction false} QuizAssignmentsForCount(firstId: int, userIds: seq<int>, quiz: int, now: Time, due: Option<Time>, u: int)
    ensures Count(QuizAssignmentsFor(firstId, userIds, quiz, now, due), QuizAssignmentOf(u, quiz)) == Occurrences(userIds, u)
    decreases |userIds|
  {
    if userIds != [] {
      var init := userIds[..|userIds| - 1];
      var rows := QuizAssignmentsFor(firstId, userIds, quiz, now, due);
      assert rows[..|rows| - 1] == QuizAssignmentsFor(firstId, init, quiz, now, due);
      QuizAssignmentsForCount(firstId, init, quiz, now, due, u);
    }
  }

  /** Appending the created rows adds, for every user, one row per listing to
      that user's (user, quiz) count: a user listed twice, or assigned
      before, ends with several assignments of the quiz. */
  lemma QuizAssignedEachCounts(before: seq<QuizAssignment>, after: seq<QuizAssignment>, firstId: int, userIds: seq<int>, quiz: int, now: Time, due: Option<Time>)
    requires QuizAssignedEach(before, after, firstId, userIds, |userIds|, quiz, now, due)
    ensures forall u :: Count(after, QuizAssignmentOf(u, quiz)) == Count(before, QuizAssignmentOf(u, quiz)) + Occurrences(userIds, u)
  {
    var added := QuizAssignmentsFor(firstId, userIds, quiz, now, due);
    assert after == before + added;
    forall u ensures Count(after, QuizAssignmentOf(u, quiz)) == Count(before, QuizAssignmentOf(u, quiz)) + Occurrences(userIds, u) {
      CountAppend(before, added, QuizAssignmentOf(u, quiz));
      QuizAssignmentsForCount(firstId, userIds, quiz, now, due, u);
    }
  }

  /** The state of the loop of `assign_quiz_to_users` after its first `i`
      users, from `start`: they all exist, and each got, in order, a new
      pending assignment with consecutive ids and one notification. */
  ghost predicate QuizCreated(users: seq<User>, start: Writes<QuizAssignment>, w: Writes<QuizAssignment>, quiz: Quiz, userIds: seq<int>, i: nat, due: Option<Time>, now: Time)
    requires i <= |userIds|
  {
    && AllUsersFound(users, userIds, i)
    && QuizAssignedEach(start.assignments, w.assignments, start.nextId, userIds, i, quiz.id, now, due)
    && w.nextId == start.nextId + i
    && NotifiedEach(start.notifications, w.notifications, userIds, i, "New quiz assigned: " + quiz.title, Url("take_quiz", [quiz.id]))
  }

  /** A user that exists passes the step and extends the state by one. */
  lemma CreateQuizStepKeeps(users: seq<User>, start: Writes<QuizAssignment>, w: Writes<QuizAssignment>, quiz: Quiz, userIds: seq<int>, i: nat, due: Option<Time>, now: Time)
    requires i < |userIds| && QuizCreated(users, start, w, quiz, userIds, i, due, now)
    requires Get(users, UserWithId(userIds[i])).Found?
    ensures var next := CreateQuizStep(users, quiz, due, now)(w, userIds[i]);
      next.1.None? && QuizCreated(users, start, next.0, quiz, userIds, i + 1, due, now)
  {
    QuizAssignedEachStep(start.assignments, w.assignments, start.nextId, userIds, i, quiz.id, now, due);
    NotifiedEachStep(start.notifications, w.notifications, userIds, i, "New quiz assigned: " + quiz.title, Url("take_quiz", [quiz.id]));
  }

  /** The loop of `assign_quiz_to_users` from its `i`-th user on: it gets
      past the rest exactly when every listed user exists; a failure is
      Http404 or a server error. */
  lemma {:induction false} CreateQuizRunFrom(users: seq<User>, start: Writes<QuizAssignment>, w: Writes<QuizAssignment>, quiz: Quiz, userIds: seq<int>, i: nat, due: Option<Time>, now: Time)
    requires i <= |userIds| && QuizCreated(users, start, w, quiz, userIds, i, due, now)
    ensures var r := RunFrom(w, userIds, i, CreateQuizStep(users, quiz, due, now));
      && (r.1.None? <==> AllUsersFound(users, userIds, |userIds|))
      && (r.1.Some? ==> r.1.value == NotFound || r.1.value.ServerError?)
      && (r.1.None? ==> QuizCreated(users, start, r.0, quiz, userIds, |userIds|, due, now))
    decreases |userIds| - i
  {
    if i < |userIds| && Get(users, UserWithId(userIds[i])).Found? {
      CreateQuizStepKeeps(users, start, w, quiz, userIds, i, due, now);
      CreateQuizRunFrom(users, start, CreateQuizStep(users, quiz, due, now)(w, userIds[i]).0, quiz, userIds, i + 1, due, now);
    }
  }

  /** What the loop of `assign_quiz_to_users` leaves: it gets past every
      listed user exactly when they all exist, and then each of them got, in
      order, a new pending assignment with consecutive ids and one
      notification; a failure is Http404 or a server error. */
  lemma CreateQuizRun(users: seq<User>, start: Writes<QuizAssignment>, quiz: Quiz, userIds: seq<int>, due: Option<Time>, now: Time)
    ensures var r := RunFrom(start, userIds, 0, CreateQuizStep(users, quiz, due, now));
      && (r.1.None? <==> AllUsersFound(users, userIds, |userIds|))
      && (r.1.Some? ==> r.1.value == NotFound || r.1.value.ServerError?)
      && (r.1.None? ==>
            && QuizAssignedEach(start.assignments, r.0.assignments, start.nextId, userIds, |userIds|, quiz.id, now, due)
            && r.0.nextId == start.nextId + |userIds|
            && NotifiedEach(start.notifications, r.0.notifications, userIds, |userIds|, "New quiz assigned: " + quiz.title, Url("take_quiz", [quiz.id])))
  {
    assert start.assignments[..|start.assignments|] == start.assignments;
    assert start.notifications[..|start.notifications|] == start.notifications;
    CreateQuizRunFrom(users, start, start, quiz, userIds, 0, due, now);
  }

  /** One pass of the loop of `assign_quiz_to_users`, on the record store. */
  method CreateQuizAssignment(db: Database, quiz: Quiz, user: int, due: Option<Time>, now: Time) returns (failure: Option<Reply>)
    modifies db`quizAssignments, db`notifications, db`nextId
    ensures (Writes(db.quizAssignments, db.notifications, db.nextId), failure) ==
      CreateQuizStep(db.users, quiz, due, now)(Writes(old(db.quizAssignments), old(db.notifications), old(db.nextId)), user)
  {
    var target := Get(db.users, UserWithId(user));
    if target.Missing? {
      return Some(NotFound);
    } else if target.Ambiguous? {
      return Some(ServerError("MultipleObjectsReturned"));
    }
    db.quizAssignments := db.quizAssignments + [NewQuizAssignment(db.nextId, user, quiz.id, now, due)];
    db.nextId := db.nextId + 1;
    db.notifications := db.notifications + [NewNotification(user, "New quiz assigned: " + quiz.title, Url("take_quiz", [quiz.id]))];
    failure := None;
  }

  /** The loop of `assign_quiz_to_users`. */
  method CreateQuizAssignments(db: Database, quiz: Quiz, userIds: seq<int>, due: Option<Time>, now: Time) returns (failure: Option<Reply>)
    modifies db`quizAssignments, db`notifications, db`nextId
    ensures (Writes(db.quizAssignments, db.notifications, db.nextId), failure) == RunFrom(Writes(old(db.quizAssignments), old(db.notifications), old(db.nextId)), userIds, 0, CreateQuizStep(db.users, quiz, due, now))
  {
    ghost var step := CreateQuizStep(db.users, quiz, due, now);
    ghost var final := RunFrom(Writes(db.quizAssignments, db.notifications, db.nextId), userIds, 0, step);
    var k := 0;
    while k < |userIds|
      invariant 0 <= k <= |userIds|
      invariant RunFrom(Writes(db.quizAssignments, db.notifications, db.nextId), userIds, k, step) == final
    {
      failure := CreateQuizAssignment(db, quiz, userIds[k], due, now);
      if failure.Some? {
        return;
      }
      k := k + 1;
    }
    failure := None;
  }

  /** `assign_quiz_to_users(request)`: for every listed user, in order, one new
      pending assignment and one notification (see `CreateQuizRun`).
      Assignments are created, never updated (see `QuizAssignedEachCounts`). */
  method AssignQuizToUsers(db: Database, requester: int, isPost: bool, quizId: int, userIds: seq<int>, due: DueField, now: Time) returns (reply: Reply)
    modifies db`quizAssignments, db`notifications, db`nextId
    ensures UserType(old(db.profiles), requester).Err? ==> reply.ServerError? && unchanged(db)
    ensures UserType(old(db.profiles), requester).Ok? && !MayAssign(old(db.profiles), requester) ==> reply == Redirect("dashboard") && unchanged(db)
    ensures MayAssign(old(db.profiles), requester) && !isPost ==> reply == Redirect("dashboard") && unchanged(db)
    ensures MayAssign(old(db.profiles), requester) && isPost && due.Malformed? ==> reply.ServerError? && unchanged(db)
    ensures MayAssign(old(db.profiles), requester) && isPost && !due.Malformed? ==>
      match Get(old(db.quizzes), QuizWithId(quizId))
      case Missing => reply == NotFound && unchanged(db)
      case Ambiguous => reply.ServerError? && unchanged(db)
      case Found(i) =>
        var r := RunFrom(Writes(old(db.quizAssignments), old(db.notifications), old(db.nextId)), userIds, 0,
                         CreateQuizStep(db.users, db.quizzes[i], QuizDue(due, now), now));
        && r.0 == Writes(db.quizAssignments, db.notifications, db.nextId)
        && reply == (if r.1.Some? then r.1.value else Redirect("dashboard"))
  {
    var userType := UserType(db.profiles, requester);
    if userType.Err? {
      return ServerError(userType.error);
    }
    if !IsStaffType(userType.value) || !isPost {
      return Redirect("dashboard");
    }
    if due.Malformed? {
      return ServerError("ValueError: time data does not match format '%Y-%m-%d'");
    }
    var found := Get(db.quizzes, QuizWithId(quizId));
    if found.Missing? {
      return NotFound;
    } else if found.Ambiguous? {
      return ServerError("MultipleObjectsReturned");
    }
    var failure := CreateQuizAssignments(db, db.quizzes[found.index], userIds, QuizDue(due, now), now);
    reply := if failure.Some? then failure.value else Redirect("dashboard");
  }

  // ---------------------------------------------------------------------------
  // manage_quiz_assignments

  /** What the assign and remove forms of the two management views ask for;
      a GET, or a POST with any other action, is `NoAction`. */
  datatype AssignmentAction =
    | Assign(target: int, userIds: seq<int>, due: DueField)
    | Remove(assignmentId: int)
    | NoAction

  /** The invariant `update_or_create` is meant to keep: at most one quiz
      assignment per (user, quiz). */
  ghost predicate OneAssignmentPerQuiz(rows: seq<QuizAssignment>)
  {
    forall u, q :: Count(rows, QuizAssignmentOf(u, q)) <= 1
  }

  /** The state of an assignment table after upserting (user, quiz) for every
      user of `done`, starting from `start`: each of them has exactly one row,
      pending and due at `due`; another pair either kept its count or is one
      of them; every row of another pair is kept as it was, and no row of
      another pair is added; and none of them had two rows to begin with. */
  ghost predicate QuizUpserted(start: seq<QuizAssignment>, current: seq<QuizAssignment>, quiz: int, done: seq<int>, due: Option<Time>)
  {
    && (forall u :: u in done ==> Count(current, QuizAssignmentOf(u, quiz)) == 1)
    && (forall u, a :: u in done && a in current && QuizAssignmentOf(u, quiz)(a) ==> a.status == "pending" && a.dueDate == due)
    && (forall u, q :: Count(current, QuizAssignmentOf(u, q)) == Count(start, QuizAssignmentOf(u, q)) ||
                       (q == quiz && u in done && Count(current, QuizAssignmentOf(u, q)) == 1))
    && (forall u :: u in done ==> Count(start, QuizAssignmentOf(u, quiz)) <= 1)
    && QuizRowsKept(start, current, quiz, done)
  }

  /** Every row of a pair other than (user of `done`, quiz) is in `current`
      exactly when it is in `start`. */
  ghost predicate QuizRowsKept(start: seq<QuizAssignment>, current: seq<QuizAssignment>, quiz: int, done: seq<int>)
  {
    && (forall a :: a in current && !(a.quiz == quiz && a.user in done) ==> a in start)
    && (forall a :: a in start && !(a.quiz == quiz && a.user in done) ==> a in current)
  }

  /** An upsert of (u, quiz) keeps every row of another pair and adds none. */
  lemma QuizRowsKeptStep(start: seq<QuizAssignment>, current: seq<QuizAssignment>, quiz: int, done: seq<int>, u: int, due: Option<Time>, created: QuizAssignment)
    requires QuizRowsKept(start, current, quiz, done)
    requires Count(current, QuizAssignmentOf(u, quiz)) <= 1
    requires created == NewQuizAssignment(created.id, u, quiz, created.assignedDate, due)
    ensures Upsert(current, QuizAssignmentOf(u, quiz), RefreshQuizAssignment(due), created).Ok?
    ensures QuizRowsKept(start, Upsert(current, QuizAssignmentOf(u, quiz), RefreshQuizAssignment(due), created).value, quiz, done + [u])
  {
    var p, update := QuizAssignmentOf(u, quiz), RefreshQuizAssignment(due);
    UpsertLeavesOne(current, p, update, created);
    var next := Upsert(current, p, update, created).value;
    forall a | a in next && !(a.quiz == quiz && a.user in done + [u]) ensures a in start {
      UpsertOtherKey(current, p, update, created, QuizAssignmentOf(a.user, a.quiz));
    }
    forall a | a in start && !(a.quiz == quiz && a.user in done + [u]) ensures a in next {
      var i :| 0 <= i < |current| && current[i] == a;
      assert next[i] == a;
    }
  }

  /** Upserting keeps the one-per-pair invariant. */
  lemma QuizUpsertedKeepsOnePerPair(start: seq<QuizAssignment>, current: seq<QuizAssignment>, quiz: int, done: seq<int>, due: Option<Time>)
    requires QuizUpserted(start, current, quiz, done, due)
    requires OneAssignmentPerQuiz(start)
    ensures OneAssignmentPerQuiz(current)
  {
  }

  /** A pair that has two rows now had them before: upserts never duplicate. */
  lemma QuizUpsertBlocked(start: seq<QuizAssignment>, current: seq<QuizAssignment>, quiz: int, done: seq<int>, due: Option<Time>, u: int)
    requires QuizUpserted(start, current, quiz, done, due)
    requires Count(current, QuizAssignmentOf(u, quiz)) >= 2
    ensures Count(start, QuizAssignmentOf(u, quiz)) >= 2
  {
  }

  function RefreshQuizAssignment(due: Option<Time>): QuizAssignment -> QuizAssignment
  {
    (a: QuizAssignment) => a.(dueDate := due, status := "pending")
  }

  /** One more upsert extends the invariant to one more user. */
  lemma QuizUpsertStep(start: seq<QuizAssignment>, current: seq<QuizAssignment>, quiz: int, done: seq<int>, due: Option<Time>, u: int, created: QuizAssignment, extended: seq<int>)
    requires QuizUpserted(start, current, quiz, done, due)
    requires extended == done + [u]
    requires Count(current, QuizAssignmentOf(u, quiz)) <= 1
    requires created == NewQuizAssignment(created.id, u, quiz, created.assignedDate, due)
    ensures Count(start, QuizAssignmentOf(u, quiz)) <= 1
    ensures Upsert(current, QuizAssignmentOf(u, quiz), RefreshQuizAssignment(due), created).Ok?
    ensures QuizUpserted(start, Upsert(current, QuizAssignmentOf(u, quiz), RefreshQuizAssignment(due), created).value, quiz, extended, due)
  {
    var p, update := QuizAssignmentOf(u, quiz), RefreshQuizAssignment(due);
    UpsertLeavesOne(current, p, update, created);
    var next := Upsert(current, p, update, created).value;
    forall v, q | (v, q) != (u, quiz)
      ensures Count(next, QuizAssignmentOf(v, q)) == Count(current, QuizAssignmentOf(v, q))
      ensures forall a :: a in next && QuizAssignmentOf(v, q)(a) ==> a in current
    {
      UpsertOtherKey(current, p, update, created, QuizAssignmentOf(v, q));
    }
    forall a | a in next && p(a) ensures a.status == "pending" && a.dueDate == due {
      var i :| 0 <= i < |next| && next[i] == a;
    }
    QuizRowsKeptStep(start, current, quiz, done, u, due, created);
  }

  /** One pass of the assign loop of `manage_quiz_assignments`: look the user
      up, `update_or_create` its (user, quiz) assignment (a created row takes
      the next id), then notify the user. */
  function UpsertQuizStep(users: seq<User>, quiz: Quiz, due: Option<Time>, now: Time): (Writes<QuizAssignment>, int) -> (Writes<QuizAssignment>, Option<Reply>)
  {
    (w: Writes<QuizAssignment>, u: int) =>
      var found := Get(users, UserWithId(u));
      if found.Missing? then (w, Some(NotFound))
      else if found.Ambiguous? then (w, Some(ServerError("MultipleObjectsReturned")))
      else
        var upserted := Upsert(w.assignments, QuizAssignmentOf(u, quiz.id), RefreshQuizAssignment(due), NewQuizAssignment(w.nextId, u, quiz.id, now, due));
        if upserted.Err? then (w, Some(ServerError(upserted.error)))
        else (Writes(upserted.value,
                     w.notifications + [NewNotification(u, "New quiz assigned: " + quiz.title, Url("take_quiz", [quiz.id]))],
                     if Count(w.assignments, QuizAssignmentOf(u, quiz.id)) == 0 then w.nextId + 1 else w.nextId), None)
  }

  /** The state of the assign loop of `manage_quiz_assignments` after its
      first `i` users, from `start`: they all exist, none of them had two rows
      for the quiz, each now has exactly one pending row due at `due`, and
      each was notified once per listing, in order. */
  ghost predicate QuizUpsertedFor(users: seq<User>, start: Writes<QuizAssignment>, w: Writes<QuizAssignment>, quiz: Quiz, userIds: seq<int>, i: nat, due: Option<Time>, now: Time)
    requires i <= |userIds|
  {
    && AllUsersFound(users, userIds, i)
    && (forall k :: 0 <= k < i ==> Count(start.assignments, QuizAssignmentOf(userIds[k], quiz.id)) <= 1)
    && QuizUpserted(start.assignments, w.assignments, quiz.id, userIds[..i], due)
    && NotifiedEach(start.notifications, w.notifications, userIds, i, "New quiz assigned: " + quiz.title, Url("take_quiz", [quiz.id]))
  }

  /** A user that exists and has at most one row passes the step and extends
      the state by one; one with two rows makes the step fail. */
  lemma UpsertQuizRunStepKeeps(users: seq<User>, start: Writes<QuizAssignment>, w: Writes<QuizAssignment>, quiz: Quiz, userIds: seq<int>, i: nat, due: Option<Time>, now: Time)
    requires i < |userIds| && QuizUpsertedFor(users, start, w, quiz, userIds, i, due, now)
    requires Get(users, UserWithId(userIds[i])).Found?
    ensures var next := UpsertQuizStep(users, quiz, due, now)(w, userIds[i]);
      && (next.1.None? <==> Count(start.assignments, QuizAssignmentOf(userIds[i], quiz.id)) <= 1)
      && (next.1.Some? ==> next.1.value.ServerError?)
      && (next.1.None? ==> QuizUpsertedFor(users, start, next.0, quiz, userIds, i + 1, due, now))
  {
    var u := userIds[i];
    if Count(w.assignments, QuizAssignmentOf(u, quiz.id)) >= 2 {
      QuizUpsertBlocked(start.assignments, w.assignments, quiz.id, userIds[..i], due, u);
    } else {
      assert userIds[..i + 1] == userIds[..i] + [u];
      QuizUpsertStep(start.assignments, w.assignments, quiz.id, userIds[..i], due, u, NewQuizAssignment(w.nextId, u, quiz.id, now, due), userIds[..i + 1]);
      NotifiedEachStep(start.notifications, w.notifications, userIds, i, "New quiz assigned: " + quiz.title, Url("take_quiz", [quiz.id]));
    }
  }

  /** The assign loop of `manage_quiz_assignments` from its `i`-th user on. */
  lemma {:induction false} UpsertQuizRunFrom(users: seq<User>, start: Writes<QuizAssignment>, w: Writes<QuizAssignment>, quiz: Quiz, userIds: seq<int>, i: nat, due: Option<Time>, now: Time)
    requires i <= |userIds| && QuizUpsertedFor(users, start, w, quiz, userIds, i, due, now)
    ensures var r := RunFrom(w, userIds, i, UpsertQuizStep(users, quiz, due, now));
      && (r.1.None? <==> AllUsersFound(users, userIds, |userIds|) && forall k :: 0 <= k < |userIds| ==> Count(start.assignments, QuizAssignmentOf(userIds[k], quiz.id)) <= 1)
      && (r.1.Some? ==> r.1.value == NotFound || r.1.value.ServerError?)
      && (r.1.None? ==> QuizUpsertedFor(users, start, r.0, quiz, userIds, |userIds|, due, now))
    decreases |userIds| - i
  {
    if i < |userIds| && Get(users, UserWithId(userIds[i])).Found? {
      UpsertQuizRunStepKeeps(users, start, w, quiz, userIds, i, due, now);
      if UpsertQuizStep(users, quiz, due, now)(w, userIds[i]).1.None? {
        UpsertQuizRunFrom(users, start, UpsertQuizStep(users, quiz, due, now)(w, userIds[i]).0, quiz, userIds, i + 1, due, now);
      }
    }
  }

  /** What the assign loop of `manage_quiz_assignments` leaves: it gets past
      every listed user exactly when they all exist and none of them already
      had two rows for the quiz, and then each of them has exactly one pending
      row due at `due`, every row of another pair is kept and none is added,
      and each was notified once
      per listing, in order; a failure is Http404 or a server error. */
  lemma UpsertQuizRun(users: seq<User>, start: Writes<QuizAssignment>, quiz: Quiz, userIds: seq<int>, due: Option<Time>, now: Time)
    ensures var r := RunFrom(start, userIds, 0, UpsertQuizStep(users, quiz, due, now));
      && (r.1.None? <==> AllUsersFound(users, userIds, |userIds|) && forall k :: 0 <= k < |userIds| ==> Count(start.assignments, QuizAssignmentOf(userIds[k], quiz.id)) <= 1)
      && (r.1.Some? ==> r.1.value == NotFound || r.1.value.ServerError?)
      && (r.1.None? ==>
            && QuizUpserted(start.assignments, r.0.assignments, quiz.id, userIds, due)
            && NotifiedEach(start.notifications, r.0.notifications, userIds, |userIds|, "New quiz assigned: " + quiz.title, Url("take_quiz", [quiz.id])))
  {
    assert start.notifications[..|start.notifications|] == start.notifications;
    UpsertQuizRunFrom(users, start, start, quiz, userIds, 0, due, now);
    assert userIds[..|userIds|] == userIds;
  }

  /** An assign action that completes keeps at most one assignment per
      (user, quiz), as `update_or_create` intends. */
  lemma UpsertQuizRunKeepsOnePerPair(users: seq<User>, start: Writes<QuizAssignment>, quiz: Quiz, userIds: seq<int>, due: Option<Time>, now: Time)
    requires OneAssignmentPerQuiz(start.assignments)
    requires RunFrom(start, userIds, 0, UpsertQuizStep(users, quiz, due, now)).1.None?
    ensures OneAssignmentPerQuiz(RunFrom(start, userIds, 0, UpsertQuizStep(users, quiz, due, now)).0.assignments)
  {
    UpsertQuizRun(users, start, quiz, userIds, due, now);
    QuizUpsertedKeepsOnePerPair(start.assignments, RunFrom(start, userIds, 0, UpsertQuizStep(users, quiz, due, now)).0.assignments, quiz.id, userIds, due);
  }

  /** One pass of the assign loop of `manage_quiz_assignments`, on the record store. */
  method UpsertQuizAssignment(db: Database, quiz: Quiz, user: int, due: Option<Time>, now: Time) returns (failure: Option<Reply>)
    modifies db`quizAssignments, db`notifications, db`nextId
    ensures (Writes(db.quizAssignments, db.notifications, db.nextId), failure) ==
      UpsertQuizStep(db.users, quiz, due, now)(Writes(old(db.quizAssignments), old(db.notifications), old(db.nextId)), user)
  {
    var target := Get(db.users, UserWithId(user));
    if target.Missing? {
      return Some(NotFound);
    } else if target.Ambiguous? {
      return Some(ServerError("MultipleObjectsReturned"));
    }
    var p := QuizAssignmentOf(user, quiz.id);
    var upserted := Upsert(db.quizAssignments, p, RefreshQuizAssignment(due), NewQuizAssignment(db.nextId, user, quiz.id, now, due));
    if upserted.Err? {
      return Some(ServerError(upserted.error));
    }
    if Count(db.quizAssignments, p) == 0 {
      db.nextId := db.nextId + 1;
    }
    db.quizAssignments := upserted.value;
    db.notifications := db.notifications + [NewNotification(user, "New quiz assigned: " + quiz.title, Url("take_quiz", [quiz.id]))];
    failure := None;
  }

  /** The loop of the assign action of `manage_quiz_assignments`. */
  method UpsertQuizAssignments(db: Database, quiz: Quiz, userIds: seq<int>, due: Option<Time>, now: Time) returns (failure: Option<Reply>)
    modifies db`quizAssignments, db`notifications, db`nextId
    ensures (Writes(db.quizAssignments, db.notifications, db.nextId), failure) == RunFrom(Writes(old(db.quizAssignments), old(db.notifications), old(db.nextId)), userIds, 0, UpsertQuizStep(db.users, quiz, due, now))
  {
    ghost var step := UpsertQuizStep(db.users, quiz, due, now);
    ghost var final := RunFrom(Writes(db.quizAssignments, db.notifications, db.nextId), userIds, 0, step);
    var k := 0;
    while k < |userIds|
      invariant 0 <= k <= |userIds|
      invariant RunFrom(Writes(db.quizAssignments, db.notifications, db.nextId), userIds, k, step) == final
    {
      failure := UpsertQuizAssignment(db, quiz, userIds[k], due, now);
      if failure.Some? {
        return;
      }
      k := k + 1;
    }
    failure := None;
  }

  function QuizAssignmentWithId(id: int): QuizAssignment -> bool { (a: QuizAssignment) => a.id == id }

  /** The remove action of `manage_quiz_assignments`: the assignment's user is
      told, then the row is deleted. */
  method RemoveQuizAssignment(db: Database, assignmentId: int) returns (reply: Reply)
    modifies db`quizAssignments, db`notifications
    ensures reply == Render("core/manage_quiz_assignments.html") <==>
      Get(old(db.quizAssignments), QuizAssignmentWithId(assignmentId)).Found? &&
      Get(db.quizzes, QuizWithId(old(db.quizAssignments[Get(db.quizAssignments, QuizAssignmentWithId(assignmentId)).index].quiz))).Found?
    ensures reply != Render("core/manage_quiz_assignments.html") ==> (reply == NotFound || reply.ServerError?) && unchanged(db)
    ensures reply == Render("core/manage_quiz_assignments.html") ==>
      var i := Get(old(db.quizAssignments), QuizAssignmentWithId(assignmentId)).index;
      var a := old(db.quizAssignments[i]);
      && db.quizAssignments == RemoveAt(old(db.quizAssignments), i)
      && Count(db.quizAssignments, QuizAssignmentWithId(assignmentId)) == 0
      && db.notifications == old(db.notifications) + [NewNotification(a.user,
           "Quiz assignment removed: " + db.quizzes[Get(db.quizzes, QuizWithId(a.quiz)).index].title, Url("course_list", []))]
  {
    var found := Get(db.quizAssignments, QuizAssignmentWithId(assignmentId));
    if found.Missing? {
      return NotFound;
    } else if found.Ambiguous? {
      return ServerError("MultipleObjectsReturned");
    }
    var a := db.quizAssignments[found.index];
    var quiz := Get(db.quizzes, QuizWithId(a.quiz));
    if !quiz.Found? {
      return ServerError("Quiz matching query does not exist.");
    }
    db.notifications := db.notifications + [NewNotification(a.user, "Quiz assignment removed: " + db.quizzes[quiz.index].title, Url("course_list", []))];
    CountRemoveAt(db.quizAssignments, found.index, QuizAssignmentWithId(assignmentId));
    db.quizAssignments := RemoveAt(db.quizAssignments, found.index);
    reply := Render("core/manage_quiz_assignments.html");
  }

  /** `manage_quiz_assignments(request)`: IT owners and site admins assign a
      quiz with `update_or_create` per (user, quiz) (see `UpsertQuizRun`), or
      remove one assignment; the page is then rendered. */
  method ManageQuizAssignments(db: Database, requester: int, action: AssignmentAction, now: Time) returns (reply: Reply)
    modifies db`quizAssignments, db`notifications, db`nextId
    ensures UserType(old(db.profiles), requester).Err? ==> reply.ServerError? && unchanged(db)
    ensures UserType(old(db.profiles), requester).Ok? && !MayAssign(old(db.profiles), requester) ==> reply == Redirect("dashboard") && unchanged(db)
    ensures MayAssign(old(db.profiles), requester) && action.NoAction? ==> reply == Render("core/manage_quiz_assignments.html") && unchanged(db)
    ensures MayAssign(old(db.profiles), requester) && action.Assign? && action.due.Malformed? ==> reply.ServerError? && unchanged(db)
    ensures MayAssign(old(db.profiles), requester) && action.Assign? && !action.due.Malformed? ==>
      match Get(old(db.quizzes), QuizWithId(action.target))
      case Missing => reply == NotFound && unchanged(db)
      case Ambiguous => reply.ServerError? && unchanged(db)
      case Found(i) =>
        var r := RunFrom(Writes(old(db.quizAssignments), old(db.notifications), old(db.nextId)), action.userIds, 0,
                         UpsertQuizStep(db.users, db.quizzes[i], QuizDue(action.due, now), now));
        && r.0 == Writes(db.quizAssignments, db.notifications, db.nextId)
        && reply == (if r.1.Some? then r.1.value else Render("core/manage_quiz_assignments.html"))
    ensures MayAssign(old(db.profiles), requester) && action.Remove? ==>
      (reply == Render("core/manage_quiz_assignments.html") <==>
        Get(old(db.quizAssignments), QuizAssignmentWithId(action.assignmentId)).Found? &&
        Get(db.quizzes, QuizWithId(old(db.quizAssignments[Get(db.quizAssignments, QuizAssignmentWithId(action.assignmentId)).index].quiz))).Found?)
    ensures MayAssign(old(db.profiles), requester) && action.Remove? && reply == Render("core/manage_quiz_assignments.html") ==>
      var i := Get(old(db.quizAssignments), QuizAssignmentWithId(action.assignmentId)).index;
      var a := old(db.quizAssignments[i]);
      && db.quizAssignments == RemoveAt(old(db.quizAssignments), i)
      && db.nextId == old(db.nextId)
      && db.notifications == old(db.notifications) + [NewNotification(a.user,
           "Quiz assignment removed: " + db.quizzes[Get(db.quizzes, QuizWithId(a.quiz)).index].title, Url("course_list", []))]
    ensures MayAssign(old(db.profiles), requester) && action.Remove? && reply != Render("core/manage_quiz_assignments.html") ==> unchanged(db)
  {
    var userType := UserType(db.profiles, requester);
    if userType.Err? {
      return ServerError(userType.error);
    }
    if !IsStaffType(userType.value) {
      return Redirect("dashboard");
    }
    match action
    case NoAction =>
      reply := Render("core/manage_quiz_assignments.html");
    case Remove(id) =>
      reply := RemoveQuizAssignment(db, id);
    case Assign(quizId, userIds, due) =>
      if due.Malformed? {
        return ServerError("ValueError: time data does not match format '%Y-%m-%d'");
      }
      var found := Get(db.quizzes, QuizWithId(quizId));
      if found.Missing? {
        return NotFound;
      } else if found.Ambiguous? {
        return ServerError("MultipleObjectsReturned");
      }
      var failure := UpsertQuizAssignments(db, db.quizzes[found.index], userIds, QuizDue(due, now), now);
      reply := if failure.Some? then failure.value else Render("core/manage_quiz_assignments.html");
  }

  // ---------------------------------------------------------------------------
  // manage_course_assignments

  function CourseAssignmentOf(user: int, course: int): CourseAssignment -> bool
  {
    (a: CourseAssignment) => a.user == user && a.course == course
  }

  function CourseAssignmentWithId(id: int): CourseAssignment -> bool { (a: CourseAssignment) => a.id == id }

  /** At most one course assignment per (user, course). */
  ghost predicate OneAssignmentPerCourse(rows: seq<CourseAssignment>)
  {
    forall u, c :: Count(rows, CourseAssignmentOf(u, c)) <= 1
  }

  /** As `QuizUpserted`, for course assignments: each user of `done` has exactly
      one row for the course, assigned by `assigner` and due at `due`. */
  ghost predicate CourseUpserted(start: seq<CourseAssignment>, current: seq<CourseAssignment>, course: int, done: seq<int>, assigner: int, due: Option<Time>)
  {
    && (forall u :: u in done ==> Count(current, CourseAssignmentOf(u, course)) == 1)
    && (forall u, a :: u in done && a in current && CourseAssignmentOf(u, course)(a) ==> a.assignedBy == assigner && a.dueDate == due)
    && (forall u, c :: Count(current, CourseAssignmentOf(u, c)) == Count(start, CourseAssignmentOf(u, c)) ||
                       (c == course && u in done && Count(current, CourseAssignmentOf(u, c)) == 1))
    && (forall u :: u in done ==> Count(start, CourseAssignmentOf(u, course)) <= 1)
    && CourseRowsKept(start, current, course, done)
  }

  /** Every row of a pair other than (user of `done`, course) is in `current`
      exactly when it is in `start`. */
  ghost predicate CourseRowsKept(start: seq<CourseAssignment>, current: seq<CourseAssignment>, course: int, done: seq<int>)
  {
    && (forall a :: a in current && !(a.course == course && a.user in done) ==> a in start)
    && (forall a :: a in start && !(a.course == course && a.user in done) ==> a in current)
  }

  /** An upsert of (u, course) keeps every row of another pair and adds none. */
  lemma CourseRowsKeptStep(start: seq<CourseAssignment>, current: seq<CourseAssignment>, course: int, done: seq<int>, u: int, assigner: int, due: Option<Time>, created: CourseAssignment)
    requires CourseRowsKept(start, current, course, done)
    requires Count(current, CourseAssignmentOf(u, course)) <= 1
    requires created == CourseAssignment(created.id, u, course, assigner, due)
    ensures Upsert(current, CourseAssignmentOf(u, course), RefreshCourseAssignment(assigner, due), created).Ok?
    ensures CourseRowsKept(start, Upsert(current, CourseAssignmentOf(u, course), RefreshCourseAssignment(assigner, due), created).value, course, done + [u])
  {
    var p, update := CourseAssignmentOf(u, course), RefreshCourseAssignment(assigner, due);
    UpsertLeavesOne(current, p, update, created);
    var next := Upsert(current, p, update, created).value;
    forall a | a in next && !(a.course == course && a.user in done + [u]) ensures a in start {
      UpsertOtherKey(current, p, update, created, CourseAssignmentOf(a.user, a.course));
    }
    forall a | a in start && !(a.course == course && a.user in done + [u]) ensures a in next {
      var i :| 0 <= i < |current| && current[i] == a;
      assert next[i] == a;
    }
  }

  lemma CourseUpsertedKeepsOnePerPair(start: seq<CourseAssignment>, current: seq<CourseAssignment>, course: int, done: seq<int>, assigner: int, due: Option<Time>)
    requires CourseUpserted(start, current, course, done, assigner, due)
    requires OneAssignmentPerCourse(start)
    ensures OneAssignmentPerCourse(current)
  {
  }

  lemma CourseUpsertBlocked(start: seq<CourseAssignment>, current: seq<CourseAssignment>, course: int, done: seq<int>, assigner: int, due: Option<Time>, u: int)
    requires CourseUpserted(start, current, course, done, assigner, due)
    requires Count(current, CourseAssignmentOf(u, course)) >= 2
    ensures Count(start, CourseAssignmentOf(u, course)) >= 2
  {
  }

  function RefreshCourseAssignment(assigner: int, due: Option<Time>): CourseAssignment -> CourseAssignment
  {
    (a: CourseAssignment) => a.(assignedBy := assigner, dueDate := due)
  }

  lemma CourseUpsertStep(start: seq<CourseAssignment>, current: seq<CourseAssignment>, course: int, done: seq<int>, assigner: int, due: Option<Time>, u: int, created: CourseAssignment, extended: seq<int>)
    requires CourseUpserted(start, current, course, done, assigner, due)
    requires extended == done + [u]
    requires Count(current, CourseAssignmentOf(u, course)) <= 1
    requires created == CourseAssignment(created.id, u, course, assigner, due)
    ensures Count(start, CourseAssignmentOf(u, course)) <= 1
    ensures Upsert(current, CourseAssignmentOf(u, course), RefreshCourseAssignment(assigner, due), created).Ok?
    ensures CourseUpserted(start, Upsert(current, CourseAssignmentOf(u, course), RefreshCourseAssignment(assigner, due), created).value, course, extended, assigner, due)
  {
    var p, update := CourseAssignmentOf(u, course), RefreshCourseAssignment(assigner, due);
    UpsertLeavesOne(current, p, update, created);
    var next := Upsert(current, p, update, created).value;
    forall v, c | (v, c) != (u, course)
      ensures Count(next, CourseAssignmentOf(v, c)) == Count(current, CourseAssignmentOf(v, c))
      ensures forall a :: a in next && CourseAssignmentOf(v, c)(a) ==> a in current
    {
      UpsertOtherKey(current, p, update, created, CourseAssignmentOf(v, c));
    }
    forall a | a in next && p(a) ensures a.assignedBy == assigner && a.dueDate == due {
      var i :| 0 <= i < |next| && next[i] == a;
    }
    CourseRowsKeptStep(start, current, course, done, u, assigner, due, created);
  }

  /** One pass of the assign loop of `manage_course_assignments`. */
  function UpsertCourseStep(users: seq<User>, course: Course, assigner: int, due: Option<Time>): (Writes<CourseAssignment>, int) -> (Writes<CourseAssignment>, Option<Reply>)
  {
    (w: Writes<CourseAssignment>, u: int) =>
      var found := Get(users, UserWithId(u));
      if found.Missing? then (w, Some(NotFound))
      else if found.Ambiguous? then (w, Some(ServerError("MultipleObjectsReturned")))
      else
        var upserted := Upsert(w.assignments, CourseAssignmentOf(u, course.id), RefreshCourseAssignment(assigner, due), CourseAssignment(w.nextId, u, course.id, assigner, due));
        if upserted.Err? then (w, Some(ServerError(upserted.error)))
        else (Writes(upserted.value,
                     w.notifications + [NewNotification(u, "New course assigned: " + course.title, Url("course_detail", [course.id]))],
                     if Count(w.assignments, CourseAssignmentOf(u, course.id)) == 0 then w.nextId + 1 else w.nextId), None)
  }

  /** As `QuizUpsertedFor`, for the assign loop of `manage_course_assignments`. */
  ghost predicate CourseUpsertedFor(users: seq<User>, start: Writes<CourseAssignment>, w: Writes<CourseAssignment>, course: Course, userIds: seq<int>, i: nat, assigner: int, due: Option<Time>)
    requires i <= |userIds|
  {
    && AllUsersFound(users, userIds, i)
    && (forall k :: 0 <= k < i ==> Count(start.assignments, CourseAssignmentOf(userIds[k], course.id)) <= 1)
    && CourseUpserted(start.assignments, w.assignments, course.id, userIds[..i], assigner, due)
    && NotifiedEach(start.notifications, w.notifications, userIds, i, "New course assigned: " + course.title, Url("course_detail", [course.id]))
  }

  /** A user that exists and has at most one row passes the step and extends
      the state by one; one with two rows makes the step fail. */
  lemma UpsertCourseRunStepKeeps(users: seq<User>, start: Writes<CourseAssignment>, w: Writes<CourseAssignment>, course: Course, userIds: seq<int>, i: nat, assigner: int, due: Option<Time>)
    requires i < |userIds| && CourseUpsertedFor(users, start, w, course, userIds, i, assigner, due)
    requires Get(users, UserWithId(userIds[i])).Found?
    ensures var next := UpsertCourseStep(users, course, assigner, due)(w, userIds[i]);
      && (next.1.None? <==> Count(start.assignments, CourseAssignmentOf(userIds[i], course.id)) <= 1)
      && (next.1.Some? ==> next.1.value.ServerError?)
      && (next.1.None? ==> CourseUpsertedFor(users, start, next.0, course, userIds, i + 1, assigner, due))
  {
    var u := userIds[i];
    if Count(w.assignments, CourseAssignmentOf(u, course.id)) >= 2 {
      CourseUpsertBlocked(start.assignments, w.assignments, course.id, userIds[..i], assigner, due, u);
    } else {
      assert userIds[..i + 1] == userIds[..i] + [u];
      CourseUpsertStep(start.assignments, w.assignments, course.id, userIds[..i], assigner, due, u, CourseAssignment(w.nextId, u, course.id, assigner, due), userIds[..i + 1]);
      NotifiedEachStep(start.notifications, w.notifications, userIds, i, "New course assigned: " + course.title, Url("course_detail", [course.id]));
    }
  }

  /** The assign loop of `manage_course_assignments` from its `i`-th user on. */
  lemma {:induction false} UpsertCourseRunFrom(users: seq<User>, start: Writes<CourseAssignment>, w: Writes<CourseAssignment>, course: Course, userIds: seq<int>, i: nat, assigner: int, due: Option<Time>)
    requires i <= |userIds| && CourseUpsertedFor(users, start, w, course, userIds, i, assigner, due)
    ensures var r := RunFrom(w, userIds, i, UpsertCourseStep(users, course, assigner, due));
      && (r.1.None? <==> AllUsersFound(users, userIds, |userIds|) && forall k :: 0 <= k < |userIds| ==> Count(start.assignments, CourseAssignmentOf(userIds[k], course.id)) <= 1)
      && (r.1.Some? ==> r.1.value == NotFound || r.1.value.ServerError?)
      && (r.1.None? ==> CourseUpsertedFor(users, start, r.0, course, userIds, |userIds|, assigner, due))
    decreases |userIds| - i
  {
    if i < |userIds| && Get(users, UserWithId(userIds[i])).Found? {
      UpsertCourseRunStepKeeps(users, start, w, course, userIds, i, assigner, due);
      if UpsertCourseStep(users, course, assigner, due)(w, userIds[i]).1.None? {
        UpsertCourseRunFrom(users, start, UpsertCourseStep(users, course, assigner, due)(w, userIds[i]).0, course, userIds, i + 1, assigner, due);
      }
    }
  }

  /** As `UpsertQuizRun`, for the assign loop of `manage_course_assignments`:
      each listed user ends with exactly one row for the course, assigned by
      `assigner` and due at `due`. */
  lemma UpsertCourseRun(users: seq<User>, start: Writes<CourseAssignment>, course: Course, userIds: seq<int>, assigner: int, due: Option<Time>)
    ensures var r := RunFrom(start, userIds, 0, UpsertCourseStep(users, course, assigner, due));
      && (r.1.None? <==> AllUsersFound(users, userIds, |userIds|) && forall k :: 0 <= k < |userIds| ==> Count(start.assignments, CourseAssignmentOf(userIds[k], course.id)) <= 1)
      && (r.1.Some? ==> r.1.value == NotFound || r.1.value.ServerError?)
      && (r.1.None? ==>
            && CourseUpserted(start.assignments, r.0.assignments, course.id, userIds, assigner, due)
            && NotifiedEach(start.notifications, r.0.notifications, userIds, |userIds|, "New course assigned: " + course.title, Url("course_detail", [course.id])))
  {
    assert start.notifications[..|start.notifications|] == start.notifications;
    UpsertCourseRunFrom(users, start, start, course, userIds, 0, assigner, due);
    assert userIds[..|userIds|] == userIds;
  }

  /** An assign action that completes keeps at most one assignment per
      (user, course). */
  lemma UpsertCourseRunKeepsOnePerPair(users: seq<User>, start: Writes<CourseAssignment>, course: Course, userIds: seq<int>, assigner: int, due: Option<Time>)
    requires OneAssignmentPerCourse(start.assignments)
    requires RunFrom(start, userIds, 0, UpsertCourseStep(users, course, assigner, due)).1.None?
    ensures OneAssignmentPerCourse(RunFrom(start, userIds, 0, UpsertCourseStep(users, course, assigner, due)).0.assignments)
  {
    UpsertCourseRun(users, start, course, userIds, assigner, due);
    CourseUpsertedKeepsOnePerPair(start.assignments, RunFrom(start, userIds, 0, UpsertCourseStep(users, course, assigner, due)).0.assignments, course.id, userIds, assigner, due);
  }

  /** One pass of the assign loop of `manage_course_assignments`, on the record store. */
  method UpsertCourseAssignment(db: Database, course: Course, user: int, assigner: int, due: Option<Time>) returns (failure: Option<Reply>)
    modifies db`courseAssignments, db`notifications, db`nextId
    ensures (Writes(db.courseAssignments, db.notifications, db.nextId), failure) ==
      UpsertCourseStep(db.users, course, assigner, due)(Writes(old(db.courseAssignments), old(db.notifications), old(db.nextId)), user)
  {
    var target := Get(db.users, UserWithId(user));
    if target.Missing? {
      return Some(NotFound);
    } else if target.Ambiguous? {
      return Some(ServerError("MultipleObjectsReturned"));
    }
    var p := CourseAssignmentOf(user, course.id);
    var upserted := Upsert(db.courseAssignments, p, RefreshCourseAssignment(assigner, due), CourseAssignment(db.nextId, user, course.id, assigner, due));
    if upserted.Err? {
      return Some(ServerError(upserted.error));
    }
    if Count(db.courseAssignments, p) == 0 {
      db.nextId := db.nextId + 1;
    }
    db.courseAssignments := upserted.value;
    db.notifications := db.notifications + [NewNotification(user, "New course assigned: " + course.title, Url("course_detail", [course.id]))];
    failure := None;
  }

  /** The loop of the assign action of `manage_course_assignments`. */
  method UpsertCourseAssignments(db: Database, course: Course, userIds: seq<int>, assigner: int, due: Option<Time>) returns (failure: Option<Reply>)
    modifies db`courseAssignments, db`notifications, db`nextId
    ensures (Writes(db.courseAssignments, db.notifications, db.nextId), failure) == RunFrom(Writes(old(db.courseAssignments), old(db.notifications), old(db.nextId)), userIds, 0, UpsertCourseStep(db.users, course, assigner, due))
  {
    ghost var step := UpsertCourseStep(db.users, course, assigner, due);
    ghost var final := RunFrom(Writes(db.courseAssignments, db.notifications, db.nextId), userIds, 0, step);
    var k := 0;
    while k < |userIds|
      invariant 0 <= k <= |userIds|
      invariant RunFrom(Writes(db.courseAssignments, db.notifications, db.nextId), userIds, k, step) == final
    {
      failure := UpsertCourseAssignment(db, course, userIds[k], assigner, due);
      if failure.Some? {
        return;
      }
      k := k + 1;
    }
    failure := None;
  }

  /** The remove action of `manage_course_assignments`. */
  method RemoveCourseAssignment(db: Database, assignmentId: int) returns (reply: Reply)
    modifies db`courseAssignments, db`notifications
    ensures reply == Render("core/manage_course_assignments.html") <==>
      Get(old(db.courseAssignments), CourseAssignmentWithId(assignmentId)).Found? &&
      Get(db.courses, CourseWithId(old(db.courseAssignments[Get(db.courseAssignments, CourseAssignmentWithId(assignmentId)).index].course))).Found?
    ensures reply != Render("core/manage_course_assignments.html") ==> (reply == NotFound || reply.ServerError?) && unchanged(db)
    ensures reply == Render("core/manage_course_assignments.html") ==>
      var i := Get(old(db.courseAssignments), CourseAssignmentWithId(assignmentId)).index;
      var a := old(db.courseAssignments[i]);
      && db.courseAssignments == RemoveAt(old(db.courseAssignments), i)
      && Count(db.courseAssignments, CourseAssignmentWithId(assignmentId)) == 0
      && db.notifications == old(db.notifications) + [NewNotification(a.user,
           "Course assignment removed: " + db.courses[Get(db.courses, CourseWithId(a.course)).index].title, Url("course_list", []))]
  {
    var found := Get(db.courseAssignments, CourseAssignmentWithId(assignmentId));
    if found.Missing? {
      return NotFound;
    } else if found.Ambiguous? {
      return ServerError("MultipleObjectsReturned");
    }
    var a := db.courseAssignments[found.index];
    var course := Get(db.courses, CourseWithId(a.course));
    if !course.Found? {
      return ServerError("Course matching query does not exist.");
    }
    db.notifications := db.notifications + [NewNotification(a.user, "Course assignment removed: " + db.courses[course.index].title, Url("course_list", []))];
    CountRemoveAt(db.courseAssignments, found.index, CourseAssignmentWithId(assignmentId));
    db.courseAssignments := RemoveAt(db.courseAssignments, found.index);
    reply := Render("core/manage_course_assignments.html");
  }

  /** `manage_course_assignments(request)`: as `manage_quiz_assignments`, for
      courses (see `UpsertCourseRun`); an assignment records who assigned it,
      and no due date is stored when none is given. */
  method ManageCourseAssignments(db: Database, requester: int, action: AssignmentAction) returns (reply: Reply)
    modifies db`courseAssignments, db`notifications, db`nextId
    ensures UserType(old(db.profiles), requester).Err? ==> reply.ServerError? && unchanged(db)
    ensures UserType(old(db.profiles), requester).Ok? && !MayAssign(old(db.profiles), requester) ==> reply == Redirect("dashboard") && unchanged(db)
    ensures MayAssign(old(db.profiles), requester) && action.NoAction? ==> reply == Render("core/manage_course_assignments.html") && unchanged(db)
    ensures MayAssign(old(db.profiles), requester) && action.Assign? && action.due.Malformed? ==> reply.ServerError? && unchanged(db)
    ensures MayAssign(old(db.profiles), requester) && action.Assign? && !action.due.Malformed? ==>
      match Get(old(db.courses), CourseWithId(action.target))
      case Missing => reply == NotFound && unchanged(db)
      case Ambiguous => reply.ServerError? && unchanged(db)
      case Found(i) =>
        var r := RunFrom(Writes(old(db.courseAssignments), old(db.notifications), old(db.nextId)), action.userIds, 0,
                         UpsertCourseStep(db.users, db.courses[i], requester, CourseDue(action.due)));
        && r.0 == Writes(db.courseAssignments, db.notifications, db.nextId)
        && reply == (if r.1.Some? then r.1.value else Render("core/manage_course_assignments.html"))
    ensures MayAssign(old(db.profiles), requester) && action.Remove? ==>
      (reply == Render("core/manage_course_assignments.html") <==>
        Get(old(db.courseAssignments), CourseAssignmentWithId(action.assignmentId)).Found? &&
        Get(db.courses, CourseWithId(old(db.courseAssignments[Get(db.courseAssignments, CourseAssignmentWithId(action.assignmentId)).index].course))).Found?)
    ensures MayAssign(old(db.profiles), requester) && action.Remove? && reply == Render("core/manage_course_assignments.html") ==>
      var i := Get(old(db.courseAssignments), CourseAssignmentWithId(action.assignmentId)).index;
      var a := old(db.courseAssignments[i]);
      && db.courseAssignments == RemoveAt(old(db.courseAssignments), i)
      && db.nextId == old(db.nextId)
      && db.notifications == old(db.notifications) + [NewNotification(a.user,
           "Course assignment removed: " + db.courses[Get(db.courses, CourseWithId(a.course)).index].title, Url("course_list", []))]
    ensures MayAssign(old(db.profiles), requester) && action.Remove? && reply != Render("core/manage_course_assignments.html") ==> unchanged(db)
  {
    var userType := UserType(db.profiles, requester);
    if userType.Err? {
      return ServerError(userType.error);
    }
    if !IsStaffType(userType.value) {
      return Redirect("dashboard");
    }
    match action
    case NoAction =>
      reply := Render("core/manage_course_assignments.html");
    case Remove(id) =>
      reply := RemoveCourseAssignment(db, id);
    case Assign(courseId, userIds, due) =>
      if due.Malformed? {
        return ServerError("ValueError: time data does not match format '%Y-%m-%d'");
      }
      var found := Get(db.courses, CourseWithId(courseId));
      if found.Missing? {
        return NotFound;
      } else if found.Ambiguous? {
        return ServerError("MultipleObjectsReturned");
      }
      var failure := UpsertCourseAssignments(db, db.courses[found.index], userIds, requester, CourseDue(due));
      reply := if failure.Some? then failure.value else Render("core/manage_course_assignments.html");
  }
}
