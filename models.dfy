/** PhishLearn's records (the Django models), their field defaults and choice
    lists, their `__str__` renderings, and the record store the views change.
    Foreign keys are held as the referenced row's integer id. */
module Models {
  import opened Python
  import opened Tables

  /** A point in time, in seconds; the clock itself is an input of the views. */
  type Time = int

  /** One day, for the views' `timezone.timedelta(days=14)`. */
  const Day: int := 86400

  /** Django's `auth.User`; `__str__` of a user is its username. */
  datatype User = User(id: int, username: string, email: string, firstName: string, lastName: string, isActive: bool)

  datatype UserProfile = UserProfile(user: int, userType: string, organization: string)

  /** `isPublished` is read and written by the views but not declared in the model class. */
  datatype Course = Course(id: int, title: string, description: string, content: string, createdBy: int, isPublished: bool)

  datatype Quiz = Quiz(id: int, course: int, title: string, description: string, dueDate: Option<Time>)

  datatype Question = Question(id: int, quiz: int, questionText: string)

  datatype Choice = Choice(id: int, question: int, choiceText: string, isCorrect: bool)

  datatype QuizAttempt = QuizAttempt(user: int, quiz: int, score: int)

  datatype PhishingTemplate = PhishingTemplate(id: int, title: string, subject: string, content: string, createdBy: int)

  /** `opened` (here `wasOpened`, as `opened` is a Dafny keyword) and `bounced` are read by the IT-owner dashboard but not declared in the model class. */
  datatype PhishingTest = PhishingTest(template: int, sentBy: int, sentTo: int, sentAt: Time, clicked: bool, wasOpened: bool, bounced: bool)

  datatype EmployeeGroup = EmployeeGroup(id: int, name: string, itOwner: int, employees: set<int>)

  /** `timestamp` is kept as the text `str()` gives for it. */
  datatype LoginAttempt = LoginAttempt(user: Option<int>, ipAddress: Option<string>, timestamp: string, success: bool, username: Option<string>, browserInfo: Option<string>)

  datatype TrainingModule = TrainingModule(id: int, title: string, description: string)

  datatype ModuleCompletion = ModuleCompletion(user: int, trainingModule: int, score: int)

  /** The target of `reverse(name, args=...)`; URL routing is not modelled. */
  datatype Url = Url(name: string, args: seq<int>)

  datatype Notification = Notification(user: int, message: string, link: Url, isRead: bool)

  datatype QuizAssignment = QuizAssignment(id: int, user: int, quiz: int, assignedDate: Time, dueDate: Option<Time>, status: string)

  // The views import three models that the models module does not declare;
  // they are modelled with the fields the views use.

  /** `score` is the float the views compute. */
  datatype CourseCompletion = CourseCompletion(user: int, course: int, score: real)

  datatype CourseProgress = CourseProgress(user: int, course: int)

  datatype CourseAssignment = CourseAssignment(id: int, user: int, course: int, assignedBy: int, dueDate: Option<Time>)

  // ---------------------------------------------------------------------------
  // Choices and defaults

  /** `UserProfile.USER_TYPES`: (stored value, label). */
  const UserTypes: seq<(string, string)> :=
    [("employee", "Employee"), ("it_owner", "IT Owner"), ("site_admin", "Site Admin")]

  /** The choices of `QuizAssignment.status`. */
  const AssignmentStatuses: seq<(string, string)> :=
    [("pending", "Pending"), ("completed", "Completed"), ("overdue", "Overdue")]

  predicate IsChoice(choices: seq<(string, string)>, value: string)
  {
    exists i :: 0 <= i < |choices| && choices[i].0 == value
  }

  /** The choice list's label for a stored value (`get_FOO_display()`); a value
      outside the list is shown as itself. */
  function ChoiceLabel(choices: seq<(string, string)>, value: string): (shown: string)
    ensures !IsChoice(choices, value) ==> shown == value
    ensures forall i :: (0 <= i < |choices| && choices[i].0 == value &&
                         forall j :: 0 <= j < i ==> choices[j].0 != value) ==> shown == choices[i].1
    decreases |choices|
  {
    if choices == [] then value
    else if choices[0].0 == value then choices[0].1
    else
      assert forall i :: 1 <= i < |choices| ==> choices[i] == choices[1..][i - 1];
      ChoiceLabel(choices[1..], value)
  }

  const DefaultUserType: string := "employee"
  const DefaultAssignmentStatus: string := "pending"

  /** The profile `create_user_profile` saves: every field at its default. */
  function NewProfile(user: int): (p: UserProfile)
    ensures p.user == user && p.userType == "employee" && p.organization == ""
    ensures IsChoice(UserTypes, p.userType) && ChoiceLabel(UserTypes, p.userType) == "Employee"
  {
    assert UserTypes[0].0 == DefaultUserType;
    UserProfile(user, DefaultUserType, "")
  }

  /** A notification as `Notification.objects.create(user=, message=, link=)` saves it. */
  function NewNotification(user: int, message: string, link: Url): (n: Notification)
    ensures n.user == user && n.message == message && n.link == link
    ensures !n.isRead
  {
    Notification(user, message, link, false)
  }

  /** A quiz assignment created without a status. */
  function NewQuizAssignment(id: int, user: int, quiz: int, assignedDate: Time, dueDate: Option<Time>): (a: QuizAssignment)
    ensures a.id == id && a.user == user && a.quiz == quiz && a.assignedDate == assignedDate && a.dueDate == dueDate
    ensures a.status == "pending" && IsChoice(AssignmentStatuses, a.status)
  {
    assert AssignmentStatuses[0].0 == DefaultAssignmentStatus;
    QuizAssignment(id, user, quiz, assignedDate, dueDate, DefaultAssignmentStatus)
  }

  // ---------------------------------------------------------------------------
  // __str__ of each model; a related row reached through a foreign key is a parameter

  /** "<a> - <b>", the shape every two-part `__str__` uses. */
  function Dashed(a: string, b: string): string
  {
    a + " - " + b
  }

  /** `Dashed` keeps both parts where a reader can find them again. */
  lemma DashedParts(a: string, b: string)
    ensures |Dashed(a, b)| == |a| + 3 + |b|
    ensures Dashed(a, b)[..|a|] == a
    ensures Dashed(a, b)[|a|..|a| + 3] == " - "
    ensures Dashed(a, b)[|a| + 3..] == b
  {
  }

  function UserProfileToString(p: UserProfile, u: User): string
    requires p.user == u.id
  {
    Dashed(u.email, p.userType)
  }

  function CourseToString(c: Course): string { c.title }

  function QuizToString(q: Quiz, c: Course): string
    requires q.course == c.id
  {
    Dashed(c.title, q.title)
  }

  function QuestionToString(q: Question): string { q.questionText }

  function ChoiceToString(c: Choice): string { c.choiceText }

  function QuizAttemptToString(a: QuizAttempt, u: User, q: Quiz): string
    requires a.user == u.id && a.quiz == q.id
  {
    Dashed(Dashed(u.email, q.title), IntToString(a.score))
  }

  function PhishingTemplateToString(t: PhishingTemplate): string { t.title }

  function PhishingTestToString(t: PhishingTest, template: PhishingTemplate, sentTo: User): string
    requires t.template == template.id && t.sentTo == sentTo.id
  {
    Dashed(template.title, sentTo.email)
  }

  function EmployeeGroupToString(g: EmployeeGroup, owner: User): string
    requires g.itOwner == owner.id
  {
    Dashed(g.name, owner.email)
  }

  /** A login attempt whose user was deleted (`SET_NULL`) shows "None". */
  function LoginAttemptToString(a: LoginAttempt, u: Option<User>): string
    requires a.user.Some? <==> u.Some?
    requires u.Some? ==> a.user.value == u.value.id
  {
    var who := match u case None => "None" case Some(user) => user.username;
    Dashed(Dashed(who, BoolToString(a.success)), a.timestamp)
  }

  function TrainingModuleToString(m: TrainingModule): string { m.title }

  function ModuleCompletionToString(c: ModuleCompletion, u: User, m: TrainingModule): string
    requires c.user == u.id && c.trainingModule == m.id
  {
    Dashed(u.username, m.title)
  }

  /** `message[:30]`. */
  function Prefix30(message: string): string
  {
    if |message| <= 30 then message else message[..30]
  }

  function NotificationToString(n: Notification, u: User): string
    requires n.user == u.id
  {
    Dashed(u.username, Prefix30(n.message))
  }

  function QuizAssignmentToString(a: QuizAssignment, u: User, q: Quiz): string
    requires a.user == u.id && a.quiz == q.id
  {
    Dashed(u.username, q.title)
  }

  // Properties of the renderings that the model tests assert

  /** A quiz renders as its course's title, " - ", then its own title. */
  lemma QuizRendering(q: Quiz, c: Course)
    requires q.course == c.id
    ensures var s := QuizToString(q, c);
      s[..|c.title|] == c.title && s[|c.title|..|c.title| + 3] == " - " && s[|c.title| + 3..] == q.title
  {
    DashedParts(c.title, q.title);
  }

  /** An attempt renders as "<email> - <quiz title> - <score>", and the score
      can be read back from the text after the last separator. */
  lemma QuizAttemptRendering(a: QuizAttempt, u: User, q: Quiz)
    requires a.user == u.id && a.quiz == q.id
    ensures var s := QuizAttemptToString(a, u, q);
      var head := u.email + " - " + q.title + " - ";
      |s| >= |head| && s[..|head|] == head && ParseInt(s[|head|..]) == Some(a.score)
  {
    var head := u.email + " - " + q.title + " - ";
    var s := QuizAttemptToString(a, u, q);
    assert s == head + IntToString(a.score);
    assert s[|head|..] == IntToString(a.score);
    IntToStringRoundTrip(a.score);
  }

  /** A group renders as "<name> - <owner email>"; an assignment as "<username> - <quiz title>". */
  lemma GroupAndAssignmentRendering(g: EmployeeGroup, owner: User, a: QuizAssignment, u: User, q: Quiz)
    requires g.itOwner == owner.id
    requires a.user == u.id && a.quiz == q.id
    ensures EmployeeGroupToString(g, owner)[..|g.name|] == g.name
    ensures EmployeeGroupToString(g, owner)[|g.name|..|g.name| + 3] == " - "
    ensures EmployeeGroupToString(g, owner)[|g.name| + 3..] == owner.email
    ensures QuizAssignmentToString(a, u, q)[..|u.username|] == u.username
    ensures QuizAssignmentToString(a, u, q)[|u.username|..|u.username| + 3] == " - "
    ensures QuizAssignmentToString(a, u, q)[|u.username| + 3..] == q.title
  {
    DashedParts(g.name, owner.email);
    DashedParts(u.username, q.title);
  }

  /** A login attempt's text starts with the text of its user. */
  lemma LoginAttemptRendering(a: LoginAttempt, u: User)
    requires a.user == Some(u.id)
    ensures var s := LoginAttemptToString(a, Some(u)); |s| >= |u.username| && s[..|u.username|] == u.username
  {
    DashedParts(Dashed(u.username, BoolToString(a.success)), a.timestamp);
    DashedParts(u.username, BoolToString(a.success));
  }

  /** After "<username> - " a notification shows its message in full exactly
      when the message has at most 30 characters; otherwise its first 30. */
  lemma NotificationShowsWholeMessage(n: Notification, u: User)
    requires n.user == u.id
    ensures var s := NotificationToString(n, u);
      && s[..|u.username| + 3] == u.username + " - "
      && (s[|u.username| + 3..] == n.message <==> |n.message| <= 30)
      && (|n.message| > 30 ==> s[|u.username| + 3..] == n.message[..30])
  {
    var s := NotificationToString(n, u);
    DashedParts(u.username, Prefix30(n.message));
    if |n.message| > 30 {
      assert |s[|u.username| + 3..]| == 30;
    }
  }

  // ---------------------------------------------------------------------------
  // The record store

  /** The tables the views read and write, rows in primary-key order.
      `nextId` is the next primary key the database hands out. */
  class Database {
    var users: seq<User>
    var profiles: seq<UserProfile>
    var courses: seq<Course>
    var quizzes: seq<Quiz>
    var questions: seq<Question>
    var choices: seq<Choice>
    var attempts: seq<QuizAttempt>
    var completions: seq<CourseCompletion>
    var progress: seq<CourseProgress>
    var notifications: seq<Notification>
    var quizAssignments: seq<QuizAssignment>
    var courseAssignments: seq<CourseAssignment>
    var phishingTests: seq<PhishingTest>
    var nextId: int

    constructor ()
      ensures users == [] && profiles == [] && courses == [] && quizzes == []
      ensures questions == [] && choices == [] && attempts == [] && completions == []
      ensures progress == [] && notifications == [] && quizAssignments == []
      ensures courseAssignments == [] && phishingTests == [] && nextId == 1
    {
      users, profiles, courses, quizzes := [], [], [], [];
      questions, choices, attempts, completions := [], [], [], [];
      progress, notifications, quizAssignments := [], [], [];
      courseAssignments, phishingTests, nextId := [], [], 1;
    }
  }

  /** The rows of one user's profile. */
  function ProfileCount(profiles: seq<UserProfile>, user: int): nat
  {
    Count(profiles, (p: UserProfile) => p.user == user)
  }

  /** The `post_save` receiver `create_user_profile`: a newly created user gets
      a profile with default fields. `UserProfile.user` is one-to-one, so a
      second profile for the same user fails with IntegrityError. */
  method CreateUserProfile(db: Database, instance: User, created: bool) returns (r: Result<bool>)
    modifies db`profiles
    ensures !created ==> r == Ok(false) && db.profiles == old(db.profiles)
    ensures created && old(ProfileCount(db.profiles, instance.id)) == 0 ==>
      r == Ok(true) && db.profiles == old(db.profiles) + [NewProfile(instance.id)]
      && ProfileCount(db.profiles, instance.id) == 1
    ensures created && old(ProfileCount(db.profiles, instance.id)) > 0 ==>
      r.Err? && db.profiles == old(db.profiles)
  {
    if !created {
      return Ok(false);
    }
    if ProfileCount(db.profiles, instance.id) > 0 {
      return Err("IntegrityError: UNIQUE constraint failed: core_userprofile.user_id");
    }
    CountSnoc(db.profiles, NewProfile(instance.id), (p: UserProfile) => p.user == instance.id);
    db.profiles := db.profiles + [NewProfile(instance.id)];
    r := Ok(true);
  }

  /** `user.save()` followed by the `post_save` signal: `created` is true when
      no row had the user's id before. A profile row always refers to a user
      row, so a new user never has one yet. */
  method SaveUser(db: Database, u: User) returns (created: bool)
    requires forall i :: 0 <= i < |db.profiles| ==> exists j :: 0 <= j < |db.users| && db.users[j].id == db.profiles[i].user
    modifies db`users, db`profiles
    ensures created <==> old(Count(db.users, (x: User) => x.id == u.id)) == 0
    ensures created ==> db.users == old(db.users) + [u]
    ensures created ==> db.profiles == old(db.profiles) + [NewProfile(u.id)] && ProfileCount(db.profiles, u.id) == 1
    ensures !created ==> db.profiles == old(db.profiles) && |db.users| == old(|db.users|)
    ensures !created ==> forall i :: 0 <= i < |db.users| ==> db.users[i] == (if old(db.users[i]).id == u.id then u else old(db.users[i]))
  {
    var sameId := (x: User) => x.id == u.id;
    created := Count(db.users, sameId) == 0;
    if created {
      CountZero(db.users, sameId);
      CountZero(db.profiles, (p: UserProfile) => p.user == u.id);
      db.users := db.users + [u];
    } else {
      db.users := seq(|db.users|, i requires 0 <= i < |db.users| reads db => if db.users[i].id == u.id then u else db.users[i]);
    }
    var r := CreateUserProfile(db, u, created);
  }
}
