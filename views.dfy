/** PhishLearn's training views: the per-user course state machine
    (`course_detail`), quiz scoring (`take_quiz`), the dashboards and bulk
    "mark all read".
    Each view that writes is a method on the record store; the requester,
    the form fields and the clock are parameters. */
module Views {
  import opened Python
  import opened Tables
  import opened Models

  /** How a view answers. */
  datatype Reply =
    | Redirect(view: string)        // redirect(...) to a named URL
    | Render(template: string)      // render(request, template, context)
    | NotFound                      // Http404 from get_object_or_404
    | ServerError(reason: string)   // an exception the view does not catch

  // ---------------------------------------------------------------------------
  // Row predicates (the keyword arguments of the views' queries)

  function CourseWithId(id: int): Course -> bool { (c: Course) => c.id == id }
  function QuizWithId(id: int): Quiz -> bool { (q: Quiz) => q.id == id }
  function UserWithId(id: int): User -> bool { (u: User) => u.id == id }
  function QuestionOfQuiz(quiz: int): Question -> bool { (q: Question) => q.quiz == quiz }
  function CompletionOf(user: int, course: int): CourseCompletion -> bool
  {
    (c: CourseCompletion) => c.user == user && c.course == course
  }
  function ProgressOf(user: int, course: int): CourseProgress -> bool
  {
    (p: CourseProgress) => p.user == user && p.course == course
  }

  /** `request.user.userprofile.user_type`; a user without a profile row
      raises RelatedObjectDoesNotExist. */
  function UserType(profiles: seq<UserProfile>, user: int): (r: Result<string>)
    ensures r.Ok? <==> Count(profiles, (p: UserProfile) => p.user == user) == 1
    ensures r.Ok? ==> exists p :: p in profiles && p.user == user && p.userType == r.value
  {
    match Get(profiles, (p: UserProfile) => p.user == user)
    case Found(i) => Ok(profiles[i].userType)
    case Missing => Err("User has no userprofile.")
    case Ambiguous => Err("MultipleObjectsReturned")
  }

  /** The requester may manage assignments: `user_type in ['it_owner', 'site_admin']`. */
  predicate IsStaffType(t: string)
  {
    t == "it_owner" || t == "site_admin"
  }

  // ---------------------------------------------------------------------------
  // Percentages

  /** `int((n / d) * 100)` for `d > 0`. On exact rationals the floor of
      `n / d * 100` is the integer quotient of `100 * n` by `d`. */
  function Percent(n: nat, d: nat): (r: int)
    requires d > 0
    ensures r >= 0
    ensures n <= d ==> r <= 100
    ensures r == 0 <==> 100 * n < d
    ensures r >= 100 <==> n >= d
  {
    PercentFacts(n, d);
    (100 * n) / d
  }

  lemma PercentFacts(n: nat, d: nat)
    requires d > 0
    ensures (100 * n) / d >= 0
    ensures n <= d ==> (100 * n) / d <= 100
    ensures (100 * n) / d == 0 <==> 100 * n < d
    ensures (100 * n) / d >= 100 <==> n >= d
  {
    var q, m := (100 * n) / d, (100 * n) % d;
    assert 100 * n == q * d + m && 0 <= m < d;
    if q < 0 {
      MulAtMost(q, -1, d);
    }
    if q >= 101 {
      MulAtLeast(q, 101, d);
    }
    if q >= 100 {
      MulAtLeast(q, 100, d);
    } else {
      MulAtMost(q, 99, d);
    }
    if q >= 1 {
      MulAtLeast(q, 1, d);
    }
  }

  lemma MulAtLeast(q: int, k: int, d: nat)
    requires q >= k
    ensures q * d >= k * d
  {
  }

  lemma MulAtMost(q: int, k: int, d: nat)
    requires q <= k
    ensures q * d <= k * d
  {
  }

  /** `int((n / d * 100) if d > 0 else 0)`, as the dashboards write it. */
  function GuardedPercent(n: nat, d: nat): (r: int)
    ensures d == 0 ==> r == 0
    ensures r >= 0
    ensures n <= d ==> r <= 100
    ensures d > 0 ==> (r >= 100 <==> n >= d)
  {
    if d > 0 then Percent(n, d) else 0
  }

  /** The quiz score `int((score / total_questions) * 100)`: a quiz without
      questions raises ZeroDivisionError. */
  function QuizPercentage(score: nat, total: nat): (r: Result<int>)
    ensures r.Err? <==> total == 0
    ensures r.Ok? && score <= total ==> 0 <= r.value <= 100
    ensures r.Ok? && score <= total ==> (r.value == 100 <==> score == total)
  {
    if total == 0 then Err("ZeroDivisionError: division by zero") else Ok(Percent(score, total))
  }

  // ---------------------------------------------------------------------------
  // Averages of attempt scores

  function Sum(xs: seq<int>): int
    decreases |xs|
  {
    if xs == [] then 0 else Sum(xs[..|xs| - 1]) + xs[|xs| - 1]
  }

  lemma {:induction false} SumBounds(xs: seq<int>, lo: int, hi: int)
    requires forall i :: 0 <= i < |xs| ==> lo <= xs[i] <= hi
    ensures lo * |xs| <= Sum(xs) <= hi * |xs|
    decreases |xs|
  {
    if xs != [] {
      var init := xs[..|xs| - 1];
      assert forall i :: 0 <= i < |init| ==> init[i] == xs[i];
      SumBounds(init, lo, hi);
    }
  }

  /** `sum(scores) / len(scores)`, or 0 when there are no scores. */
  function Mean(xs: seq<int>): real
  {
    if |xs| == 0 then 0.0 else Sum(xs) as real / |xs| as real
  }

  /** A mean lies between the smallest and the largest score. */
  lemma MeanBounds(xs: seq<int>, lo: int, hi: int)
    requires |xs| > 0
    requires forall i :: 0 <= i < |xs| ==> lo <= xs[i] <= hi
    ensures lo as real <= Mean(xs) <= hi as real
  {
    SumBounds(xs, lo, hi);
    var n := |xs| as real;
    CastProduct(lo, |xs|);
    CastProduct(hi, |xs|);
    QuotientBounds(Sum(xs) as real, n, lo as real, hi as real);
  }

  lemma QuotientBounds(s: real, n: real, lo: real, hi: real)
    requires n > 0.0
    requires lo * n <= s <= hi * n
    ensures lo <= s / n <= hi
  {
  }

  lemma CastProduct(a: int, b: int)
    ensures (a * b) as real == a as real * b as real
  {
  }

  /** The ids of the quizzes of a course (`Quiz.objects.filter(course=course)`). */
  function CourseQuizIds(quizzes: seq<Quiz>, course: int): set<int>
  {
    set q | q in quizzes && q.course == course :: q.id
  }

  /** The scores of the user's attempts on the given quizzes, in table order. */
  function ScoresOn(attempts: seq<QuizAttempt>, user: int, quizIds: set<int>): (r: seq<int>)
    ensures |r| == Count(attempts, (a: QuizAttempt) => a.user == user && a.quiz in quizIds)
    decreases |attempts|
  {
    if attempts == [] then []
    else
      var a := attempts[|attempts| - 1];
      var init := ScoresOn(attempts[..|attempts| - 1], user, quizIds);
      if a.user == user && a.quiz in quizIds then init + [a.score] else init
  }

  lemma {:induction false} ScoresOnBounds(attempts: seq<QuizAttempt>, user: int, quizIds: set<int>, lo: int, hi: int)
    requires forall i :: 0 <= i < |attempts| ==> lo <= attempts[i].score <= hi
    ensures forall i :: 0 <= i < |ScoresOn(attempts, user, quizIds)| ==> lo <= ScoresOn(attempts, user, quizIds)[i] <= hi
    decreases |attempts|
  {
    if attempts != [] {
      var init := attempts[..|attempts| - 1];
      assert forall i :: 0 <= i < |init| ==> init[i] == attempts[i];
      ScoresOnBounds(init, user, quizIds, lo, hi);
    }
  }

  /** The quiz ids among `quizIds` the user has an attempt on
      (`set(user_quiz_attempts)` in `take_quiz`). */
  function AttemptedQuizIds(attempts: seq<QuizAttempt>, user: int, quizIds: set<int>): set<int>
  {
    set a | a in attempts && a.user == user && a.quiz in quizIds :: a.quiz
  }

  /** The score `complete` gives a course: the mean of the user's attempt
      scores on the course's quizzes, 0 without attempts. */
  function CompletionScore(attempts: seq<QuizAttempt>, quizzes: seq<Quiz>, user: int, course: int): real
  {
    Mean(ScoresOn(attempts, user, CourseQuizIds(quizzes, course)))
  }

  /** With every attempt scored in 0..100, so is every completion score. */
  lemma CompletionScoreBounds(attempts: seq<QuizAttempt>, quizzes: seq<Quiz>, user: int, course: int)
    requires forall i :: 0 <= i < |attempts| ==> 0 <= attempts[i].score <= 100
    ensures 0.0 <= CompletionScore(attempts, quizzes, user, course) <= 100.0
  {
    var xs := ScoresOn(attempts, user, CourseQuizIds(quizzes, course));
    ScoresOnBounds(attempts, user, CourseQuizIds(quizzes, course), 0, 100);
    if |xs| > 0 {
      MeanBounds(xs, 0, 100);
    }
  }

  /** A user without an attempt on the course's quizzes completes it with score 0. */
  lemma CompletionScoreWithoutAttempts(attempts: seq<QuizAttempt>, quizzes: seq<Quiz>, user: int, course: int)
    requires Count(attempts, (a: QuizAttempt) => a.user == user && a.quiz in CourseQuizIds(quizzes, course)) == 0
    ensures CompletionScore(attempts, quizzes, user, course) == 0.0
  {
    var xs := ScoresOn(attempts, user, CourseQuizIds(quizzes, course));
    assert |xs| == 0;
  }

  // ---------------------------------------------------------------------------
  // Grading a quiz submission

  /** How the loop of `take_quiz` grades: a question counts when a choice was
      submitted for it and `Choice.objects.get(id=...)` finds a correct one;
      a submitted id that finds no choice raises DoesNotExist, and the first
      question that raises decides the error. */
  function Grade(questions: seq<Question>, answers: map<int, int>, choices: seq<Choice>): (r: Result<nat>)
    ensures r.Ok? ==> r.value <= |questions|
    decreases |questions|
  {
    if questions == [] then Ok(0)
    else
      var q := questions[|questions| - 1];
      match Grade(questions[..|questions| - 1], answers, choices)
      case Err(e) => Err(e)
      case Ok(n) =>
        if q.id !in answers then Ok(n)
        else match Get(choices, (c: Choice) => c.id == answers[q.id])
          case Missing => Err("DoesNotExist: Choice matching query does not exist.")
          case Ambiguous => Err("MultipleObjectsReturned")
          case Found(i) =>
            var m: nat := if choices[i].isCorrect then n + 1 else n;
            Ok(m)
  }

  /** Once a prefix of the questions raises, the whole submission raises the same error. */
  lemma {:induction false} GradeErrorSticks(questions: seq<Question>, answers: map<int, int>, choices: seq<Choice>, k: nat)
    requires k <= |questions|
    requires Grade(questions[..k], answers, choices).Err?
    ensures Grade(questions, answers, choices) == Grade(questions[..k], answers, choices)
    decreases |questions| - k
  {
    if k < |questions| {
      var next := questions[..k + 1];
      assert next[..k] == questions[..k];
      GradeErrorSticks(questions, answers, choices, k + 1);
    } else {
      assert questions[..k] == questions;
    }
  }

  /** Every question adds at most one point, and only an answered question
      whose submitted choice is correct adds one. */
  lemma GradeStep(questions: seq<Question>, q: Question, answers: map<int, int>, choices: seq<Choice>)
    requires Grade(questions + [q], answers, choices).Ok?
    ensures Grade(questions, answers, choices).Ok?
    ensures var before := Grade(questions, answers, choices).value;
      var after := Grade(questions + [q], answers, choices).value;
      && (after == before || after == before + 1)
      && (after == before + 1 <==>
            q.id in answers &&
            exists i :: 0 <= i < |choices| && choices[i].id == answers[q.id] && choices[i].isCorrect)
  {
    var all := questions + [q];
    assert all[..|all| - 1] == questions;
    if q.id in answers {
      var p := (c: Choice) => c.id == answers[q.id];
      match Get(choices, p)
      case Found(i) =>
        forall j | 0 <= j < |choices| && choices[j].id == answers[q.id] ensures j == i {
          if j != i { OnlyMatch(choices, p, i, j); }
        }
      case _ =>
    }
  }

  /** The scoring loop of `take_quiz`. */
  method ScoreSubmission(questions: seq<Question>, answers: map<int, int>, choices: seq<Choice>) returns (r: Result<nat>)
    ensures r == Grade(questions, answers, choices)
    ensures r.Ok? ==> r.value <= |questions|
  {
    var score := 0;
    var i := 0;
    while i < |questions|
      invariant 0 <= i <= |questions|
      invariant Grade(questions[..i], answers, choices) == Ok(score)
    {
      var q := questions[i];
      assert questions[..i + 1][..i] == questions[..i];
      if q.id in answers {
        match Get(choices, (c: Choice) => c.id == answers[q.id])
        case Missing =>
          r := Err("DoesNotExist: Choice matching query does not exist.");
          GradeErrorSticks(questions, answers, choices, i + 1);
          return;
        case Ambiguous =>
          r := Err("MultipleObjectsReturned");
          GradeErrorSticks(questions, answers, choices, i + 1);
          return;
        case Found(k) =>
          if choices[k].isCorrect {
            score := score + 1;
          }
      }
      i := i + 1;
    }
    assert questions[..i] == questions;
    r := Ok(score);
  }

  // ---------------------------------------------------------------------------
  // course_detail: not started -> in progress -> completed

  datatype CourseState = NotStarted | InProgress | Completed

  /** What the course page shows for (user, course): a completion row wins over a progress row. */
  function StateOf(completions: seq<CourseCompletion>, progress: seq<CourseProgress>, user: int, course: int): CourseState
  {
    if Count(completions, CompletionOf(user, course)) > 0 then Completed
    else if Count(progress, ProgressOf(user, course)) > 0 then InProgress
    else NotStarted
  }

  /** The invariant the course views keep: at most one completion and at most
      one progress row per (user, course). */
  ghost predicate OnePerCourse(completions: seq<CourseCompletion>, progress: seq<CourseProgress>)
  {
    && (forall u, c :: Count(completions, CompletionOf(u, c)) <= 1)
    && (forall u, c :: Count(progress, ProgressOf(u, c)) <= 1)
  }

  /** The progress rows after `progress.delete()` on the first row of (user, course), if any. */
  function WithoutFirstProgress(progress: seq<CourseProgress>, user: int, course: int): seq<CourseProgress>
  {
    match FirstIndex(progress, ProgressOf(user, course))
    case None => progress
    case Some(i) => RemoveAt(progress, i)
  }

  lemma WithoutFirstProgressCounts(progress: seq<CourseProgress>, user: int, course: int)
    ensures var after := WithoutFirstProgress(progress, user, course);
      && (Count(progress, ProgressOf(user, course)) <= 1 ==> Count(after, ProgressOf(user, course)) == 0)
      && (forall u, c :: Count(after, ProgressOf(u, c)) <= Count(progress, ProgressOf(u, c)))
  {
    match FirstIndex(progress, ProgressOf(user, course))
    case None =>
      CountZero(progress, ProgressOf(user, course));
    case Some(i) =>
      CountRemoveAt(progress, i, ProgressOf(user, course));
      forall u, c ensures Count(RemoveAt(progress, i), ProgressOf(u, c)) <= Count(progress, ProgressOf(u, c)) {
        CountRemoveAt(progress, i, ProgressOf(u, c));
      }
  }

  /** `course_detail(request, course_id)`. On POST, action "complete" on a
      course without a completion records one scored by `CompletionScore`,
      deletes the first progress row and notifies the user; action
      "mark_in_progress" records a progress row when there is neither a
      completion nor a progress row. Anything else changes nothing. */
  method CourseDetail(db: Database, user: int, courseId: int, isPost: bool, action: Option<string>) returns (reply: Reply)
    modifies db`completions, db`progress, db`notifications
    ensures Get(old(db.courses), CourseWithId(courseId)).Missing? ==> reply == NotFound && unchanged(db)
    ensures Get(old(db.courses), CourseWithId(courseId)).Ambiguous? ==> reply.ServerError? && unchanged(db)
    ensures Get(old(db.courses), CourseWithId(courseId)).Found? && !isPost ==>
      reply == Render("core/course_detail.html") && unchanged(db)
    ensures Get(old(db.courses), CourseWithId(courseId)).Found? && isPost ==> reply == Redirect("course_detail")
    // complete
    ensures Get(old(db.courses), CourseWithId(courseId)).Found? && isPost && action == Some("complete") &&
            old(StateOf(db.completions, db.progress, user, courseId)) != Completed ==>
      && db.completions == old(db.completions) + [CourseCompletion(user, courseId, old(CompletionScore(db.attempts, db.quizzes, user, courseId)))]
      && db.progress == old(WithoutFirstProgress(db.progress, user, courseId))
      && db.notifications == old(db.notifications) + [NewNotification(user,
           "You've completed the course: " + old(db.courses[Get(db.courses, CourseWithId(courseId)).index].title),
           Url("course_detail", [courseId]))]
      && StateOf(db.completions, db.progress, user, courseId) == Completed
      && (old(OnePerCourse(db.completions, db.progress)) ==>
            OnePerCourse(db.completions, db.progress) && Count(db.progress, ProgressOf(user, courseId)) == 0)
    // mark_in_progress
    ensures Get(old(db.courses), CourseWithId(courseId)).Found? && isPost && action == Some("mark_in_progress") &&
            old(StateOf(db.completions, db.progress, user, courseId)) == NotStarted ==>
      && db.progress == old(db.progress) + [CourseProgress(user, courseId)]
      && db.completions == old(db.completions) && db.notifications == old(db.notifications)
      && StateOf(db.completions, db.progress, user, courseId) == InProgress
      && (old(OnePerCourse(db.completions, db.progress)) ==> OnePerCourse(db.completions, db.progress))
    // every other request
    ensures !(isPost && action == Some("complete") && old(StateOf(db.completions, db.progress, user, courseId)) != Completed) &&
            !(isPost && action == Some("mark_in_progress") && old(StateOf(db.completions, db.progress, user, courseId)) == NotStarted) ==>
      unchanged(db)
  {
    var found := Get(db.courses, CourseWithId(courseId));
    if found.Missing? {
      return NotFound;
    } else if found.Ambiguous? {
      return ServerError("MultipleObjectsReturned");
    }
    var course := db.courses[found.index];
    var completion := FirstIndex(db.completions, CompletionOf(user, courseId));
    var progress := FirstIndex(db.progress, ProgressOf(user, courseId));
    CountZero(db.completions, CompletionOf(user, courseId));
    CountZero(db.progress, ProgressOf(user, courseId));
    if !isPost {
      return Render("core/course_detail.html");
    }
    if action == Some("complete") && completion.None? {
      var score := CompletionScore(db.attempts, db.quizzes, user, courseId);
      var row := CourseCompletion(user, courseId, score);
      ghost var before := db.completions;
      ghost var progressBefore := db.progress;
      db.completions := db.completions + [row];
      forall u, c ensures Count(db.completions, CompletionOf(u, c)) == Count(before, CompletionOf(u, c)) + (if u == user && c == courseId then 1 else 0) {
        CountSnoc(before, row, CompletionOf(u, c));
      }
      db.progress := WithoutFirstProgress(db.progress, user, courseId);
      WithoutFirstProgressCounts(progressBefore, user, courseId);
      db.notifications := db.notifications + [NewNotification(user, "You've completed the course: " + course.title, Url("course_detail", [courseId]))];
    } else if action == Some("mark_in_progress") && completion.None? && progress.None? {
      ghost var before := db.progress;
      var row := CourseProgress(user, courseId);
      db.progress := db.progress + [row];
      forall u, c ensures Count(db.progress, ProgressOf(u, c)) == Count(before, ProgressOf(u, c)) + (if u == user && c == courseId then 1 else 0) {
        CountSnoc(before, row, ProgressOf(u, c));
      }
    }
    reply := Redirect("course_detail");
  }

  // ---------------------------------------------------------------------------
  // take_quiz

  /** Every quiz of the course has an attempt by the user
      (`set(user_quiz_attempts) == set(all_course_quizzes...)`). */
  predicate AllQuizzesAttempted(attempts: seq<QuizAttempt>, quizzes: seq<Quiz>, user: int, course: int)
  {
    AttemptedQuizIds(attempts, user, CourseQuizIds(quizzes, course)) == CourseQuizIds(quizzes, course)
  }

  /** The completion score `take_quiz` records: the rounded mean of the user's
      attempt scores on the course's quizzes. */
  function QuizCompletionScore(attempts: seq<QuizAttempt>, quizzes: seq<Quiz>, user: int, course: int): real
  {
    Round(Mean(ScoresOn(attempts, user, CourseQuizIds(quizzes, course)))) as real
  }

  /** The completion step of `take_quiz` as the code reads: `Avg` is used but never
      imported, so reaching the aggregate raises NameError. */
  function CompletionAfterQuizAsWritten(completions: seq<CourseCompletion>, attempts: seq<QuizAttempt>, quizzes: seq<Quiz>, user: int, course: int): (r: Result<seq<CourseCompletion>>)
    ensures r.Err? <==> AllQuizzesAttempted(attempts, quizzes, user, course)
    ensures r.Ok? ==> r.value == completions
  {
    if AllQuizzesAttempted(attempts, quizzes, user, course) then Err("NameError: name 'Avg' is not defined")
    else Ok(completions)
  }

  /** The completion step as intended: once every quiz of the course has an
      attempt, `update_or_create` the (user, course) completion with the
      rounded mean score. */
  function CompletionAfterQuiz(completions: seq<CourseCompletion>, attempts: seq<QuizAttempt>, quizzes: seq<Quiz>, user: int, course: int): (r: Result<seq<CourseCompletion>>)
    ensures !AllQuizzesAttempted(attempts, quizzes, user, course) ==> r == Ok(completions)
    ensures r.Err? <==> AllQuizzesAttempted(attempts, quizzes, user, course) && Count(completions, CompletionOf(user, course)) >= 2
  {
    if !AllQuizzesAttempted(attempts, quizzes, user, course) then Ok(completions)
    else
      var score := QuizCompletionScore(attempts, quizzes, user, course);
      Upsert(completions, CompletionOf(user, course), (c: CourseCompletion) => c.(score := score), CourseCompletion(user, course, score))
  }

  /** When every quiz has an attempt and the invariant holds, the intended step
      leaves exactly one completion for (user, course), scored with the
      rounded mean, and no other (user, course) pair gains or loses a row. */
  lemma CompletionAfterQuizLeavesOne(completions: seq<CourseCompletion>, attempts: seq<QuizAttempt>, quizzes: seq<Quiz>, user: int, course: int)
    requires AllQuizzesAttempted(attempts, quizzes, user, course)
    requires Count(completions, CompletionOf(user, course)) <= 1
    ensures CompletionAfterQuiz(completions, attempts, quizzes, user, course).Ok?
    ensures var r := CompletionAfterQuiz(completions, attempts, quizzes, user, course).value;
      && Count(r, CompletionOf(user, course)) == 1
      && (forall x :: x in r && CompletionOf(user, course)(x) ==> x.score == QuizCompletionScore(attempts, quizzes, user, course))
      && (forall u, c :: (u, c) != (user, course) ==> Count(r, CompletionOf(u, c)) == Count(completions, CompletionOf(u, c)))
  {
    var score := QuizCompletionScore(attempts, quizzes, user, course);
    var p := CompletionOf(user, course);
    var update := (c: CourseCompletion) => c.(score := score);
    var created := CourseCompletion(user, course, score);
    UpsertLeavesOne(completions, p, update, created);
    forall u, c | (u, c) != (user, course)
      ensures Count(Upsert(completions, p, update, created).value, CompletionOf(u, c)) == Count(completions, CompletionOf(u, c))
    {
      UpsertOtherKey(completions, p, update, created, CompletionOf(u, c));
    }
  }

  /** The missing import makes every submission that completes a course's
      quizzes fail, where the intended step records the completion. */
  lemma MissingAvgImportBreaksCompletion(completions: seq<CourseCompletion>, attempts: seq<QuizAttempt>, quizzes: seq<Quiz>, user: int, course: int)
    requires AllQuizzesAttempted(attempts, quizzes, user, course)
    requires Count(completions, CompletionOf(user, course)) <= 1
    ensures CompletionAfterQuizAsWritten(completions, attempts, quizzes, user, course).Err?
    ensures CompletionAfterQuiz(completions, attempts, quizzes, user, course).Ok?
    ensures Count(CompletionAfterQuiz(completions, attempts, quizzes, user, course).value, CompletionOf(user, course)) == 1
  {
    CompletionAfterQuizLeavesOne(completions, attempts, quizzes, user, course);
  }

  /** With attempt scores in 0..100 the recorded completion score is too. */
  lemma QuizCompletionScoreBounds(attempts: seq<QuizAttempt>, quizzes: seq<Quiz>, user: int, course: int)
    requires forall i :: 0 <= i < |attempts| ==> 0 <= attempts[i].score <= 100
    ensures 0.0 <= QuizCompletionScore(attempts, quizzes, user, course) <= 100.0
  {
    CompletionScoreBounds(attempts, quizzes, user, course);
  }

  /** The notification text `take_quiz` sends. */
  function QuizResultMessage(title: string, percentage: int): string
  {
    "You've completed the quiz: " + title + " with a score of " + IntToString(percentage) + "%"
  }

  /** The percentage a graded submission records; the quiz must have questions. */
  function SubmissionPercent(questions: seq<Question>, answers: map<int, int>, choices: seq<Choice>): (p: int)
    requires Grade(questions, answers, choices).Ok? && |questions| > 0
    ensures 0 <= p <= 100
    ensures p == 100 <==> Grade(questions, answers, choices).value == |questions|
  {
    Percent(Grade(questions, answers, choices).value, |questions|)
  }

  /** `take_quiz(request, quiz_id)`. A POST grades the submission, records one
      attempt, runs the completion step and sends one notification; the
      writes are not transactional, so an attempt stays recorded when the
      completion step raises. */
  method TakeQuiz(db: Database, user: int, quizId: int, isPost: bool, answers: map<int, int>) returns (reply: Reply)
    modifies db`attempts, db`completions, db`notifications
    ensures Get(old(db.quizzes), QuizWithId(quizId)).Missing? ==> reply == NotFound && unchanged(db)
    ensures Get(old(db.quizzes), QuizWithId(quizId)).Ambiguous? ==> reply.ServerError? && unchanged(db)
    ensures Get(old(db.quizzes), QuizWithId(quizId)).Found? && !isPost ==> reply == Render("core/take_quiz.html") && unchanged(db)
    // a submission that cannot be graded, or a quiz without questions, writes nothing
    ensures Get(old(db.quizzes), QuizWithId(quizId)).Found? && isPost &&
            (Grade(Filter(old(db.questions), QuestionOfQuiz(quizId)), answers, old(db.choices)).Err? ||
             |Filter(old(db.questions), QuestionOfQuiz(quizId))| == 0) ==>
      reply.ServerError? && unchanged(db)
    // a graded submission records exactly one attempt
    ensures var questions := Filter(old(db.questions), QuestionOfQuiz(quizId));
      Get(old(db.quizzes), QuizWithId(quizId)).Found? && isPost &&
      Grade(questions, answers, old(db.choices)).Ok? && |questions| > 0 ==>
      && db.attempts == old(db.attempts) + [QuizAttempt(user, quizId, SubmissionPercent(questions, answers, old(db.choices)))]
      && (reply == Redirect("dashboard") <==> CompletionAfterQuiz(old(db.completions), db.attempts, old(db.quizzes), user, old(db.quizzes[Get(db.quizzes, QuizWithId(quizId)).index].course)).Ok?)
      && (reply == Redirect("dashboard") ==>
            && Ok(db.completions) == CompletionAfterQuiz(old(db.completions), db.attempts, old(db.quizzes), user, old(db.quizzes[Get(db.quizzes, QuizWithId(quizId)).index].course))
            && db.notifications == old(db.notifications) + [NewNotification(user,
                 QuizResultMessage(old(db.quizzes[Get(db.quizzes, QuizWithId(quizId)).index].title), SubmissionPercent(questions, answers, old(db.choices))),
                 Url("course_detail", [old(db.quizzes[Get(db.quizzes, QuizWithId(quizId)).index].course)]))])
      && (reply != Redirect("dashboard") ==> reply.ServerError? && db.completions == old(db.completions) && db.notifications == old(db.notifications))
    // the invariant: once all quizzes of the course have an attempt, exactly one completion
    ensures reply == Redirect("dashboard") && AllQuizzesAttempted(db.attempts, db.quizzes, user, db.quizzes[Get(db.quizzes, QuizWithId(quizId)).index].course) ==>
      Count(db.completions, CompletionOf(user, db.quizzes[Get(db.quizzes, QuizWithId(quizId)).index].course)) == 1
  {
    var found := Get(db.quizzes, QuizWithId(quizId));
    if found.Missing? {
      return NotFound;
    } else if found.Ambiguous? {
      return ServerError("MultipleObjectsReturned");
    }
    var quiz := db.quizzes[found.index];
    var questions := Filter(db.questions, QuestionOfQuiz(quizId));
    if !isPost {
      return Render("core/take_quiz.html");
    }
    var graded := ScoreSubmission(questions, answers, db.choices);
    if graded.Err? {
      return ServerError(graded.error);
    }
    var percentage := QuizPercentage(graded.value, |questions|);
    if percentage.Err? {
      return ServerError(percentage.error);
    }
    db.attempts := db.attempts + [QuizAttempt(user, quizId, percentage.value)];
    var updated := CompletionAfterQuiz(db.completions, db.attempts, db.quizzes, user, quiz.course);
    if updated.Err? {
      return ServerError(updated.error);
    }
    if AllQuizzesAttempted(db.attempts, db.quizzes, user, quiz.course) {
      CompletionAfterQuizLeavesOne(db.completions, db.attempts, db.quizzes, user, quiz.course);
    }
    db.completions := updated.value;
    db.notifications := db.notifications + [NewNotification(user, QuizResultMessage(quiz.title, percentage.value), Url("course_detail", [quiz.course]))];
    reply := Redirect("dashboard");
  }

  // ---------------------------------------------------------------------------
  // mark_all_read

  /** The notifications after `filter(user=user, is_read=False).update(is_read=True)`. */
  function MarkedRead(notifications: seq<Notification>, user: int): (r: seq<Notification>)
    ensures |r| == |notifications|
    ensures forall i :: 0 <= i < |r| ==> r[i].user == notifications[i].user && r[i].message == notifications[i].message && r[i].link == notifications[i].link
    ensures forall i :: 0 <= i < |r| && notifications[i].user == user ==> r[i].isRead
    ensures forall i :: 0 <= i < |r| && notifications[i].user != user ==> r[i] == notifications[i]
  {
    seq(|notifications|, i requires 0 <= i < |notifications| =>
      if notifications[i].user == user then notifications[i].(isRead := true) else notifications[i])
  }

  function UnreadOf(user: int): Notification -> bool { (n: Notification) => n.user == user && !n.isRead }
  function ReadOf(user: int): Notification -> bool { (n: Notification) => n.user == user && n.isRead }

  /** After marking, the user has no unread notification and as many read
      ones as they had read and unread ones before. */
  lemma {:induction false} MarkedReadCounts(notifications: seq<Notification>, user: int)
    ensures Count(MarkedRead(notifications, user), UnreadOf(user)) == 0
    ensures Count(MarkedRead(notifications, user), ReadOf(user)) == Count(notifications, ReadOf(user)) + Count(notifications, UnreadOf(user))
    decreases |notifications|
  {
    if notifications != [] {
      var init := notifications[..|notifications| - 1];
      var r := MarkedRead(notifications, user);
      assert r[..|r| - 1] == MarkedRead(init, user);
      MarkedReadCounts(init, user);
    }
  }

  /** Another user's read and unread counts are untouched. */
  lemma {:induction false} MarkedReadOthers(notifications: seq<Notification>, user: int, other: int)
    requires other != user
    ensures Count(MarkedRead(notifications, user), UnreadOf(other)) == Count(notifications, UnreadOf(other))
    ensures Count(MarkedRead(notifications, user), ReadOf(other)) == Count(notifications, ReadOf(other))
    decreases |notifications|
  {
    if notifications != [] {
      var init := notifications[..|notifications| - 1];
      var r := MarkedRead(notifications, user);
      assert r[..|r| - 1] == MarkedRead(init, user);
      MarkedReadOthers(init, user, other);
    }
  }

  /** Marking twice is marking once. */
  lemma MarkedReadIdempotent(notifications: seq<Notification>, user: int)
    ensures MarkedRead(MarkedRead(notifications, user), user) == MarkedRead(notifications, user)
  {
  }

  /** `mark_all_read(request)`. */
  method MarkAllRead(db: Database, user: int) returns (reply: Reply)
    modifies db`notifications
    ensures db.notifications == MarkedRead(old(db.notifications), user)
    ensures Count(db.notifications, UnreadOf(user)) == 0
    ensures reply == Redirect("dashboard")
  {
    db.notifications := MarkedRead(db.notifications, user);
    MarkedReadCounts(old(db.notifications), user);
    reply := Redirect("dashboard");
  }

  // ---------------------------------------------------------------------------
  // dashboard: the employee's course counts

  predicate IsPublished(c: Course) { c.isPublished }
  function CourseId(c: Course): int { c.id }
  function CompletionCourse(c: CourseCompletion): int { c.course }
  function ProgressCourse(p: CourseProgress): int { p.course }
  function CompletionsBy(user: int): CourseCompletion -> bool { (c: CourseCompletion) => c.user == user }
  function ProgressBy(user: int): CourseProgress -> bool { (p: CourseProgress) => p.user == user }

  /** The ids of the published courses (`Course.objects.filter(is_published=True)`). */
  function PublishedIds(courses: seq<Course>): set<int>
  {
    KeysOf(courses, IsPublished, CourseId)
  }

  /** `completed_course_ids`: the courses the user has a completion for. */
  function CompletedCourseIds(completions: seq<CourseCompletion>, user: int): set<int>
  {
    KeysOf(completions, CompletionsBy(user), CompletionCourse)
  }

  /** The courses the user has a progress row for. */
  function ProgressCourseIds(progress: seq<CourseProgress>, user: int): set<int>
  {
    KeysOf(progress, ProgressBy(user), ProgressCourse)
  }

  /** The in-progress query: the user's progress rows on published courses,
      excluding courses the user has completed. */
  function InProgressRow(courses: seq<Course>, completions: seq<CourseCompletion>, user: int): CourseProgress -> bool
  {
    (p: CourseProgress) => p.user == user && p.course in PublishedIds(courses) && p.course !in CompletedCourseIds(completions, user)
  }

  /** A completion of the user on a published course. */
  function PublishedCompletionBy(courses: seq<Course>, user: int): CourseCompletion -> bool
  {
    (c: CourseCompletion) => c.user == user && c.course in PublishedIds(courses)
  }

  datatype CourseCounts = CourseCounts(total: nat, completed: nat, inProgress: nat, notStarted: int, percentage: int)

  /** The employee dashboard's counts as the code computes them: every completion
      of the user counts as completed, published course or not. */
  function EmployeeCountsAsWritten(courses: seq<Course>, completions: seq<CourseCompletion>, progress: seq<CourseProgress>, user: int): CourseCounts
  {
    var total := Count(courses, IsPublished);
    var completed := Count(completions, CompletionsBy(user));
    var inProgress := Count(progress, InProgressRow(courses, completions, user));
    CourseCounts(total, completed, inProgress, total - completed - inProgress, GuardedPercent(completed, total))
  }

  /** The counts as intended: only completions of published courses count as
      completed, so the three counts share the published courses between them. */
  function EmployeeCounts(courses: seq<Course>, completions: seq<CourseCompletion>, progress: seq<CourseProgress>, user: int): CourseCounts
  {
    var total := Count(courses, IsPublished);
    var completed := Count(completions, PublishedCompletionBy(courses, user));
    var inProgress := Count(progress, InProgressRow(courses, completions, user));
    CourseCounts(total, completed, inProgress, total - completed - inProgress, ProgressPercent(courses, completions, user))
  }

  /** The user's progress percentage as intended: completions of published
      courses over published courses. */
  function ProgressPercent(courses: seq<Course>, completions: seq<CourseCompletion>, user: int): int
  {
    GuardedPercent(Count(completions, PublishedCompletionBy(courses, user)), Count(courses, IsPublished))
  }

  /** The per-employee progress of the IT owner's dashboard as the code computes
      it, over all of the employee's completions. */
  function ProgressPercentAsWritten(courses: seq<Course>, completions: seq<CourseCompletion>, user: int): int
  {
    GuardedPercent(Count(completions, CompletionsBy(user)), Count(courses, IsPublished))
  }

  /** The published courses the user has neither completed nor marked in progress. */
  function NotStartedIds(courses: seq<Course>, completions: seq<CourseCompletion>, progress: seq<CourseProgress>, user: int): set<int>
  {
    PublishedIds(courses) - CompletedCourseIds(completions, user) - ProgressCourseIds(progress, user)
  }

  /** A course is counted as not started exactly when `course_detail` shows it as not started. */
  lemma NotStartedMatchesCourseState(courses: seq<Course>, completions: seq<CourseCompletion>, progress: seq<CourseProgress>, user: int, course: int)
    ensures course in NotStartedIds(courses, completions, progress, user) <==>
      course in PublishedIds(courses) && StateOf(completions, progress, user, course) == NotStarted
  {
    KeysOfMembers(completions, CompletionsBy(user), CompletionCourse, course);
    KeysOfMembers(progress, ProgressBy(user), ProgressCourse, course);
    CountZero(completions, CompletionOf(user, course));
    CountZero(progress, ProgressOf(user, course));
  }

  lemma SplitCard<X>(a: set<X>, b: set<X>)
    ensures |a| == |a * b| + |a - b|
  {
    var i, d := a * b, a - b;
    assert i * d == {};
    assert i + d == a;
  }

  /** Primary keys: no two course rows share an id. */
  predicate UniqueCourseIds(courses: seq<Course>)
  {
    forall i, j :: 0 <= i < j < |courses| ==> courses[i].id != courses[j].id
  }

  lemma CompletionKeysDistinct(completions: seq<CourseCompletion>, progress: seq<CourseProgress>, user: int, p: CourseCompletion -> bool)
    requires OnePerCourse(completions, progress)
    requires forall c :: p(c) ==> c.user == user
    ensures DistinctKeys(completions, p, CompletionCourse)
  {
    forall i, j | 0 <= i < j < |completions| && p(completions[i]) && p(completions[j])
      ensures completions[i].course != completions[j].course
    {
      AtMostOneMatch(completions, CompletionOf(user, completions[i].course), i, j);
    }
  }

  lemma ProgressKeysDistinct(completions: seq<CourseCompletion>, progress: seq<CourseProgress>, user: int, p: CourseProgress -> bool)
    requires OnePerCourse(completions, progress)
    requires forall r :: p(r) ==> r.user == user
    ensures DistinctKeys(progress, p, ProgressCourse)
  {
    forall i, j | 0 <= i < j < |progress| && p(progress[i]) && p(progress[j])
      ensures progress[i].course != progress[j].course
    {
      AtMostOneMatch(progress, ProgressOf(user, progress[i].course), i, j);
    }
  }

  /** With unique course ids and at most one completion and one progress row
      per (user, course), the intended counts split the published courses:
      completed, in progress and not started are the sizes of three disjoint
      sets whose union is the published courses, so none is negative and the
      percentage lies in 0..100. */
  lemma EmployeeCountsPartition(courses: seq<Course>, completions: seq<CourseCompletion>, progress: seq<CourseProgress>, user: int)
    requires UniqueCourseIds(courses)
    requires OnePerCourse(completions, progress)
    ensures var r := EmployeeCounts(courses, completions, progress, user);
      var published := PublishedIds(courses);
      var completed := CompletedCourseIds(completions, user);
      && r.total == |published|
      && r.completed == |published * completed|
      && r.inProgress == |(published - completed) * ProgressCourseIds(progress, user)|
      && r.notStarted == |NotStartedIds(courses, completions, progress, user)|
      && r.notStarted >= 0
      && 0 <= r.percentage <= 100
  {
    var published := PublishedIds(courses);
    var completed := CompletedCourseIds(completions, user);
    var started := ProgressCourseIds(progress, user);
    KeysOfDistinct(courses, IsPublished, CourseId);
    var pc := PublishedCompletionBy(courses, user);
    CompletionKeysDistinct(completions, progress, user, pc);
    KeysOfDistinct(completions, pc, CompletionCourse);
    var ip := InProgressRow(courses, completions, user);
    ProgressKeysDistinct(completions, progress, user, ip);
    KeysOfDistinct(progress, ip, ProgressCourse);
    forall k ensures k in KeysOf(completions, pc, CompletionCourse) <==> k in published * completed {
      KeysOfMembers(completions, pc, CompletionCourse, k);
      KeysOfMembers(completions, CompletionsBy(user), CompletionCourse, k);
    }
    assert KeysOf(completions, pc, CompletionCourse) == published * completed;
    forall k ensures k in KeysOf(progress, ip, ProgressCourse) <==> k in (published - completed) * started {
      KeysOfMembers(progress, ip, ProgressCourse, k);
      KeysOfMembers(progress, ProgressBy(user), ProgressCourse, k);
    }
    assert KeysOf(progress, ip, ProgressCourse) == (published - completed) * started;
    SplitCard(published, completed);
    SplitCard(published - completed, started);
  }

  /** When the user's completions are all on published courses the code's
      counts are the intended ones, so the partition holds for them too. */
  lemma AsWrittenCountsWhenCompletionsPublished(courses: seq<Course>, completions: seq<CourseCompletion>, progress: seq<CourseProgress>, user: int)
    requires OnePerCourse(completions, progress)
    requires CompletedCourseIds(completions, user) <= PublishedIds(courses)
    ensures EmployeeCountsAsWritten(courses, completions, progress, user) == EmployeeCounts(courses, completions, progress, user)
  {
    var pc := PublishedCompletionBy(courses, user);
    CompletionKeysDistinct(completions, progress, user, pc);
    CompletionKeysDistinct(completions, progress, user, CompletionsBy(user));
    KeysOfDistinct(completions, pc, CompletionCourse);
    KeysOfDistinct(completions, CompletionsBy(user), CompletionCourse);
    forall k ensures k in KeysOf(completions, pc, CompletionCourse) <==> k in CompletedCourseIds(completions, user) {
      KeysOfMembers(completions, pc, CompletionCourse, k);
      KeysOfMembers(completions, CompletionsBy(user), CompletionCourse, k);
    }
    assert KeysOf(completions, pc, CompletionCourse) == CompletedCourseIds(completions, user);
  }

  /** A completion kept after its course is unpublished makes the code report
      a negative number of courses not started and a progress above 100%. */
  lemma UnpublishedCompletionMiscounts()
    ensures var courses := [Course(1, "Phishing basics", "", "", 7, false), Course(2, "Passwords", "", "", 7, true)];
      var completions := [CourseCompletion(5, 1, 80.0), CourseCompletion(5, 2, 90.0)];
      var r := EmployeeCountsAsWritten(courses, completions, [], 5);
      r.total == 1 && r.completed == 2 && r.notStarted == -1 && r.percentage == 200 &&
      EmployeeCounts(courses, completions, [], 5).notStarted == 0
  {
    var courses := [Course(1, "Phishing basics", "", "", 7, false), Course(2, "Passwords", "", "", 7, true)];
    var completions := [CourseCompletion(5, 1, 80.0), CourseCompletion(5, 2, 90.0)];
    assert courses[..1][..0] == [] && completions[..1][..0] == [];
    assert courses[..1] == [courses[0]] && completions[..1] == [completions[0]];
    assert KeysOf(courses[..1], IsPublished, CourseId) == {};
    assert PublishedIds(courses) == {2};
  }

  // ---------------------------------------------------------------------------
  // dashboard: the IT owner's figures

  function EmployeeProfileOf(user: int): UserProfile -> bool
  {
    (p: UserProfile) => p.user == user && p.userType == "employee"
  }

  /** The employee query: an employee profile, active, and not both names
      empty (`exclude(first_name='', last_name='')` drops a user only when
      both are empty). */
  predicate Listed(profiles: seq<UserProfile>, u: User)
  {
    Count(profiles, EmployeeProfileOf(u.id)) > 0 && u.isActive && !(u.firstName == "" && u.lastName == "")
  }

  function ListedEmployees(users: seq<User>, profiles: seq<UserProfile>): seq<User>
  {
    Filter(users, (u: User) => Listed(profiles, u))
  }

  /** Who the IT owner's dashboard lists; a user with only a first or only a
      last name is listed. */
  lemma ListedEmployeesMembers(users: seq<User>, profiles: seq<UserProfile>, u: User)
    ensures u in ListedEmployees(users, profiles) <==>
      && u in users && u.isActive && (u.firstName != "" || u.lastName != "")
      && exists i :: 0 <= i < |profiles| && profiles[i].user == u.id && profiles[i].userType == "employee"
  {
    CountZero(profiles, EmployeeProfileOf(u.id));
  }

  /** `int((count / total_tests) * 100)` when there are tests, 0 otherwise. */
  function Rate(tests: seq<PhishingTest>, p: PhishingTest -> bool): (r: int)
    ensures 0 <= r <= 100
    ensures |tests| == 0 ==> r == 0
    ensures r == 100 <==> |tests| > 0 && forall i :: 0 <= i < |tests| ==> p(tests[i])
  {
    if |tests| > 0 then
      CountAll(tests, p);
      Percent(Count(tests, p), |tests|)
    else 0
  }

  predicate WasOpened(t: PhishingTest) { t.wasOpened }
  predicate WasClicked(t: PhishingTest) { t.clicked }
  predicate Bounced(t: PhishingTest) { t.bounced }

  datatype Rates = Rates(openRate: int, clickRate: int, bounceRate: int)

  /** The campaign statistics over every phishing test. */
  function CampaignRates(tests: seq<PhishingTest>): (r: Rates)
    ensures 0 <= r.openRate <= 100 && 0 <= r.clickRate <= 100 && 0 <= r.bounceRate <= 100
    ensures |tests| == 0 ==> r == Rates(0, 0, 0)
  {
    Rates(Rate(tests, WasOpened), Rate(tests, WasClicked), Rate(tests, Bounced))
  }

  /** Per-employee progress is a percentage whenever the schema's keys hold. */
  lemma ProgressPercentBounds(courses: seq<Course>, completions: seq<CourseCompletion>, progress: seq<CourseProgress>, user: int)
    requires UniqueCourseIds(courses)
    requires OnePerCourse(completions, progress)
    ensures 0 <= ProgressPercent(courses, completions, user) <= 100
  {
    EmployeeCountsPartition(courses, completions, progress, user);
  }

  /** The IT owner's per-employee figure as the code computes it is a
      percentage as long as every course the employee completed is still
      published; `UnpublishedCompletionMiscounts` shows it reaching 200 otherwise. */
  lemma ProgressPercentAsWrittenBounds(courses: seq<Course>, completions: seq<CourseCompletion>, user: int)
    requires UniqueCourseIds(courses)
    requires forall u, c :: Count(completions, CompletionOf(u, c)) <= 1
    requires CompletedCourseIds(completions, user) <= PublishedIds(courses)
    ensures 0 <= ProgressPercentAsWritten(courses, completions, user) <= 100
  {
    var none: seq<CourseProgress> := [];
    assert forall u, c :: Count(none, ProgressOf(u, c)) == 0;
    AsWrittenCountsWhenCompletionsPublished(courses, completions, none, user);
    EmployeeCountsPartition(courses, completions, none, user);
    assert ProgressPercentAsWritten(courses, completions, user) == EmployeeCountsAsWritten(courses, completions, none, user).percentage;
  }

  // ---------------------------------------------------------------------------
  // dashboard: dispatch on the user type

  datatype DashboardPage =
    | EmployeeDashboard(counts: CourseCounts, unreadCount: nat, pending: seq<QuizAssignment>)
    | ItOwnerDashboard(employees: seq<User>, progress: seq<int>, rates: Rates)
    | AdminDashboard
    | BackHome(error: string)   // the exception was reported and the user sent to `home`

  function PendingFor(user: int): QuizAssignment -> bool
  {
    (a: QuizAssignment) => a.user == user && a.status == "pending"
  }

  /** `dashboard(request)`: employees see their course counts, unread
      notifications and pending quiz assignments; IT owners see the listed
      employees with their progress and the campaign rates; a missing
      profile sends the user home; every other user type falls through to
      the admin dashboard. Nothing is written. */
  method Dashboard(db: Database, user: int) returns (page: DashboardPage)
    ensures UserType(db.profiles, user).Err? ==> page == BackHome("Error loading dashboard: " + UserType(db.profiles, user).error)
    ensures UserType(db.profiles, user) == Ok("employee") ==>
      page == EmployeeDashboard(EmployeeCounts(db.courses, db.completions, db.progress, user),
                                Count(db.notifications, UnreadOf(user)),
                                Filter(db.quizAssignments, PendingFor(user)))
    ensures UserType(db.profiles, user) == Ok("it_owner") ==>
      && page.ItOwnerDashboard?
      && page.employees == ListedEmployees(db.users, db.profiles)
      && |page.progress| == |page.employees|
      && (forall i :: 0 <= i < |page.progress| ==> page.progress[i] == ProgressPercent(db.courses, db.completions, page.employees[i].id))
      && page.rates == CampaignRates(db.phishingTests)
    ensures UserType(db.profiles, user).Ok? && UserType(db.profiles, user).value != "employee" && UserType(db.profiles, user).value != "it_owner" ==>
      page == AdminDashboard
  {
    var userType := UserType(db.profiles, user);
    if userType.Err? {
      return BackHome("Error loading dashboard: " + userType.error);
    }
    if userType.value == "employee" {
      return EmployeeDashboard(EmployeeCounts(db.courses, db.completions, db.progress, user),
                               Count(db.notifications, UnreadOf(user)),
                               Filter(db.quizAssignments, PendingFor(user)));
    } else if userType.value == "it_owner" {
      var employees := ListedEmployees(db.users, db.profiles);
      var progress := [];
      var i := 0;
      while i < |employees|
        invariant 0 <= i <= |employees|
        invariant |progress| == i
        invariant forall k :: 0 <= k < i ==> progress[k] == ProgressPercent(db.courses, db.completions, employees[k].id)
      {
        progress := progress + [ProgressPercent(db.courses, db.completions, employees[i].id)];
        i := i + 1;
      }
      return ItOwnerDashboard(employees, progress, CampaignRates(db.phishingTests));
    }
    page := AdminDashboard;
  }
}
