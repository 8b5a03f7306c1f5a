/**
 * The navigation sidebar (App.tsx `Sidebar`): the category headings, the
 * per-lesson progress counter, and the lesson/lab lookup behind the
 * random-question button.
 */
module Sidebar {
  import opened Wrappers
  import opened Types
  import Progress
  import SmartPractice

  // ---------------------------------------------------------------------
  // Categories: `[...new Set(lessons.map(l => l.category))]`
  // ---------------------------------------------------------------------

  /** `lessons.map(l => l.category)`. */
  function CategoryList(lessons: seq<Lesson>): (cs: seq<string>)
    ensures |cs| == |lessons|
    ensures forall i :: 0 <= i < |lessons| ==> cs[i] == lessons[i].category
  {
    if lessons == [] then [] else [lessons[0].category] + CategoryList(lessons[1..])
  }

  /** Spreading a `Set` built from `s`: each value once, in the order it was first inserted. */
  function Distinct(s: seq<string>): (r: seq<string>)
    ensures forall x :: x in r <==> x in s
    ensures forall i, j :: 0 <= i < j < |r| ==> r[i] != r[j]
  {
    if s == [] then []
    else
      var d := Distinct(s[..|s| - 1]);
      var x := s[|s| - 1];
      assert s == s[..|s| - 1] + [x];
      if x in d then d else d + [x]
  }

  /** The index of the first occurrence of `x` in `s`. */
  function FirstIndex(s: seq<string>, x: string): (k: nat)
    requires x in s
    ensures k < |s| && s[k] == x
    ensures forall j :: 0 <= j < k ==> s[j] != x
  {
    if s[0] == x then 0 else 1 + FirstIndex(s[1..], x)
  }

  /** Extending a sequence does not move a first occurrence already in it. */
  lemma FirstIndexOfPrefix(s: seq<string>, t: seq<string>, x: string)
    requires x in s
    ensures x in s + t && FirstIndex(s + t, x) == FirstIndex(s, x)
  {
    var k, k' := FirstIndex(s, x), FirstIndex(s + t, x);
    assert (s + t)[k] == x;
    assert k' <= k;
    assert s[k'] == (s + t)[k'];
  }

  /** The distinct values come out in the order of their first occurrence. */
  lemma {:induction false} DistinctFirstOccurrenceOrder(s: seq<string>)
    ensures forall i, j :: 0 <= i < j < |Distinct(s)| ==>
      FirstIndex(s, Distinct(s)[i]) < FirstIndex(s, Distinct(s)[j])
  {
    if s != [] {
      var p, x := s[..|s| - 1], s[|s| - 1];
      assert s == p + [x];
      DistinctFirstOccurrenceOrder(p);
      var d := Distinct(p);
      forall y | y in d
        ensures FirstIndex(s, y) == FirstIndex(p, y) < |p|
      {
        FirstIndexOfPrefix(p, [x], y);
      }
      if x !in d {
        assert FirstIndex(s, x) == |p|;
      }
    }
  }

  /**
   * The category headings: each lesson's category once, the headings in the
   * order in which their first lesson appears.
   */
  function Categories(lessons: seq<Lesson>): (r: seq<string>)
    ensures forall c :: c in r <==> exists i :: 0 <= i < |lessons| && lessons[i].category == c
    ensures forall i, j :: 0 <= i < j < |r| ==> r[i] != r[j]
    ensures forall c :: c in r <==> c in CategoryList(lessons)
    ensures forall i, j :: 0 <= i < j < |r| ==>
      FirstIndex(CategoryList(lessons), r[i]) < FirstIndex(CategoryList(lessons), r[j])
  {
    var cs := CategoryList(lessons);
    assert forall c :: c in cs <==> exists i :: 0 <= i < |lessons| && lessons[i].category == c by {
      forall c | c in cs ensures exists i :: 0 <= i < |lessons| && lessons[i].category == c {
        var i :| 0 <= i < |cs| && cs[i] == c;
      }
    }
    DistinctFirstOccurrenceOrder(cs);
    Distinct(cs)
  }

  // ---------------------------------------------------------------------
  // Lesson progress: `getProgress`
  // ---------------------------------------------------------------------

  /** `lessons.find(l => l.id === lessonId)`: the first lesson with that id. */
  function FindLesson(lessons: seq<Lesson>, lessonId: string): (r: Option<Lesson>)
    ensures r.None? <==> forall i :: 0 <= i < |lessons| ==> lessons[i].id != lessonId
    ensures r.Some? ==> r.value.id == lessonId
    ensures r.Some? ==>
      exists i :: (0 <= i < |lessons| && lessons[i] == r.value && forall k :: 0 <= k < i ==> lessons[k].id != lessonId)
  {
    if lessons == [] then None
    else if lessons[0].id == lessonId then Some(lessons[0])
    else
      var r := FindLesson(lessons[1..], lessonId);
      assert r.Some? ==>
        exists i :: (0 <= i < |lessons| && lessons[i] == r.value && forall k :: 0 <= k < i ==> lessons[k].id != lessonId) by {
        if r.Some? {
          var i :| 0 <= i < |lessons[1..]| && lessons[1..][i] == r.value
            && forall k :: 0 <= k < i ==> lessons[1..][k].id != lessonId;
          assert lessons[i + 1] == r.value;
          forall k | 0 <= k < i + 1 ensures lessons[k].id != lessonId {
            if k > 0 { assert lessons[k] == lessons[1..][k - 1]; }
          }
        }
      }
      r
  }

  /** `lab.questions.map(q => q.id)` over the lesson's labs, in order. */
  function QuestionIds(qs: seq<LabQuestion>): (ids: seq<string>)
    ensures |ids| == |qs|
    ensures forall i :: 0 <= i < |qs| ==> ids[i] == qs[i].id
  {
    if qs == [] then [] else [qs[0].id] + QuestionIds(qs[1..])
  }

  /**
   * `questionIds.filter(id => userProgress[id]?.correct)`: each id marked
   * correct as often as in the input, every other id not at all, in the
   * input's order.
   */
  function CorrectIds(ids: seq<string>, p: UserProgress): (r: seq<string>)
    ensures |r| <= |ids|
    ensures forall id :: id in r <==> id in ids && Progress.MarkedCorrect(p, id)
    ensures forall id :: multiset(r)[id] == if Progress.MarkedCorrect(p, id) then multiset(ids)[id] else 0
  {
    if ids == [] then []
    else
      var rest := CorrectIds(ids[1..], p);
      assert ids == [ids[0]] + ids[1..];
      (if Progress.MarkedCorrect(p, ids[0]) then [ids[0]] else []) + rest
  }

  lemma {:induction false} CorrectIdsIsSubsequence(ids: seq<string>, p: UserProgress)
    ensures SmartPractice.IsSubsequence(CorrectIds(ids, p), ids)
    decreases |ids|
  {
    if ids != [] {
      CorrectIdsIsSubsequence(ids[1..], p);
      var rest := CorrectIds(ids[1..], p);
      if Progress.MarkedCorrect(p, ids[0]) {
        assert CorrectIds(ids, p) == [ids[0]] + rest;
        assert ([ids[0]] + rest)[1..] == rest;
      } else {
        assert CorrectIds(ids, p) == rest;
        SmartPractice.SkipHeadKeepsSubsequence(rest, ids);
      }
    }
  }

  /** The questions of `qs` whose id is marked correct, counted one by one. */
  function CountMarkedCorrect(qs: seq<LabQuestion>, p: UserProgress): nat {
    if qs == [] then 0
    else (if Progress.MarkedCorrect(p, qs[0].id) then 1 else 0) + CountMarkedCorrect(qs[1..], p)
  }

  /** The questions of `qs` whose id has no entry, counted one by one. */
  function CountUnattempted(qs: seq<LabQuestion>, p: UserProgress): nat {
    if qs == [] then 0
    else (if qs[0].id !in p then 1 else 0) + CountUnattempted(qs[1..], p)
  }

  /** Each lab's count of questions marked correct, added up. */
  function SumMarkedCorrect(labs: seq<Lab>, p: UserProgress): nat {
    if labs == [] then 0 else CountMarkedCorrect(labs[0].questions, p) + SumMarkedCorrect(labs[1..], p)
  }

  /** Filtering the ids keeps one id per question marked correct. */
  lemma {:induction false} CorrectIdsCount(qs: seq<LabQuestion>, p: UserProgress)
    ensures |CorrectIds(QuestionIds(qs), p)| == CountMarkedCorrect(qs, p)
    decreases |qs|
  {
    if qs != [] {
      CorrectIdsCount(qs[1..], p);
      assert QuestionIds(qs)[1..] == QuestionIds(qs[1..]);
    }
  }

  lemma {:induction false} CountMarkedCorrectAppend(a: seq<LabQuestion>, b: seq<LabQuestion>, p: UserProgress)
    ensures CountMarkedCorrect(a + b, p) == CountMarkedCorrect(a, p) + CountMarkedCorrect(b, p)
    decreases |a|
  {
    if a != [] {
      assert (a + b)[1..] == a[1..] + b;
      CountMarkedCorrectAppend(a[1..], b, p);
    } else {
      assert a + b == b;
    }
  }

  /** Over flattened labs, the count of questions marked correct is the sum of the labs' counts. */
  lemma {:induction false} LabsMarkedCorrect(labs: seq<Lab>, p: UserProgress)
    ensures CountMarkedCorrect(SmartPractice.LabsQuestions(labs), p) == SumMarkedCorrect(labs, p)
  {
    if labs != [] {
      LabsMarkedCorrect(labs[1..], p);
      CountMarkedCorrectAppend(labs[0].questions, SmartPractice.LabsQuestions(labs[1..]), p);
    }
  }

  datatype LessonCounts = LessonCounts(total: nat, correct: nat)

  /**
   * `getProgress(lessonId)`: for the first lesson with that id, the number
   * of its questions and the number of them marked correct; 0/0 for an
   * unknown id.
   */
  function GetProgress(lessons: seq<Lesson>, lessonId: string, p: UserProgress): (r: LessonCounts)
    ensures FindLesson(lessons, lessonId).None? ==> r == LessonCounts(0, 0)
    ensures FindLesson(lessons, lessonId).Some? ==>
      var qs := SmartPractice.LabsQuestions(FindLesson(lessons, lessonId).value.labs);
      r.total == |qs| && r.correct == CountMarkedCorrect(qs, p)
    ensures r.correct <= r.total
  {
    match FindLesson(lessons, lessonId)
    case None => LessonCounts(0, 0)
    case Some(lesson) =>
      var qs := SmartPractice.LabsQuestions(lesson.labs);
      var ids := QuestionIds(qs);
      CorrectIdsCount(qs, p);
      LessonCounts(|ids|, |CorrectIds(ids, p)|)
  }

  /**
   * For a lesson found by id, the total is the sum of its labs' question
   * counts and the correct count the sum of its labs' counts of questions
   * marked correct; an unknown id gives 0/0.
   */
  lemma LessonProgressCounts(lessons: seq<Lesson>, lessonId: string, p: UserProgress)
    ensures var r := GetProgress(lessons, lessonId, p);
      && (FindLesson(lessons, lessonId).None? ==> r == LessonCounts(0, 0))
      && (FindLesson(lessons, lessonId).Some? ==>
            && r.total == SmartPractice.SumQuestionCounts(FindLesson(lessons, lessonId).value.labs)
            && r.correct == SumMarkedCorrect(FindLesson(lessons, lessonId).value.labs, p))
  {
    if FindLesson(lessons, lessonId).Some? {
      LabsMarkedCorrect(FindLesson(lessons, lessonId).value.labs, p);
    }
  }

  /**
   * Every question of a lesson is counted correct, listed for review, or
   * not yet attempted, and exactly one of these: the three counts add up
   * to the total.
   */
  lemma {:induction false} CorrectAndReviewDisjoint(qs: seq<LabQuestion>, p: UserProgress)
    ensures |CorrectIds(QuestionIds(qs), p)| + |SmartPractice.KeepForReview(qs, p)| + CountUnattempted(qs, p) == |qs|
    decreases |qs|
  {
    if qs != [] {
      CorrectAndReviewDisjoint(qs[1..], p);
      assert QuestionIds(qs)[1..] == QuestionIds(qs[1..]);
    }
  }

  // ---------------------------------------------------------------------
  // Random question: the lesson/lab lookup after the random pick
  // ---------------------------------------------------------------------

  /** `questions.some(q => q.id === questionId)`. */
  predicate HasQuestion(qs: seq<LabQuestion>, questionId: string) {
    exists k :: 0 <= k < |qs| && qs[k].id == questionId
  }

  /** `labs.find(lab => lab.questions.some(...))`: the first lab holding a question with that id. */
  function FindLabWith(labs: seq<Lab>, questionId: string): (r: Option<Lab>)
    ensures r.None? <==> forall j :: 0 <= j < |labs| ==> !HasQuestion(labs[j].questions, questionId)
    ensures r.Some? ==> exists j :: (
      && 0 <= j < |labs| && labs[j] == r.value && HasQuestion(labs[j].questions, questionId)
      && forall k :: 0 <= k < j ==> !HasQuestion(labs[k].questions, questionId))
  {
    if labs == [] then None
    else if HasQuestion(labs[0].questions, questionId) then Some(labs[0])
    else
      var r := FindLabWith(labs[1..], questionId);
      assert r.None? ==> forall j :: 0 <= j < |labs| ==> !HasQuestion(labs[j].questions, questionId) by {
        if r.None? {
          forall j | 0 <= j < |labs| ensures !HasQuestion(labs[j].questions, questionId) {
            if j > 0 { assert labs[j] == labs[1..][j - 1]; }
          }
        }
      }
      assert r.Some? ==> exists j :: (
        && 0 <= j < |labs| && labs[j] == r.value && HasQuestion(labs[j].questions, questionId)
        && forall k :: 0 <= k < j ==> !HasQuestion(labs[k].questions, questionId)) by {
        if r.Some? {
          var j :| && 0 <= j < |labs[1..]| && labs[1..][j] == r.value
            && HasQuestion(labs[1..][j].questions, questionId)
            && forall k :: 0 <= k < j ==> !HasQuestion(labs[1..][k].questions, questionId);
          assert labs[j + 1] == labs[1..][j];
          forall k | 0 <= k < j + 1 ensures !HasQuestion(labs[k].questions, questionId) {
            if k > 0 { assert labs[k] == labs[1..][k - 1]; }
          }
        }
      }
      r
  }

  /** `lessons.find(l => l.labs.some(...))`: the first lesson one of whose labs holds a question with that id. */
  function FindLessonWith(lessons: seq<Lesson>, questionId: string): (r: Option<Lesson>)
    ensures r.None? <==> forall i :: 0 <= i < |lessons| ==> FindLabWith(lessons[i].labs, questionId).None?
    ensures r.Some? ==> exists i :: (
      && 0 <= i < |lessons| && lessons[i] == r.value && FindLabWith(lessons[i].labs, questionId).Some?
      && forall k :: 0 <= k < i ==> FindLabWith(lessons[k].labs, questionId).None?)
  {
    if lessons == [] then None
    else if FindLabWith(lessons[0].labs, questionId).Some? then Some(lessons[0])
    else
      var r := FindLessonWith(lessons[1..], questionId);
      assert r.None? ==> forall i :: 0 <= i < |lessons| ==> FindLabWith(lessons[i].labs, questionId).None? by {
        if r.None? {
          forall i | 0 <= i < |lessons| ensures FindLabWith(lessons[i].labs, questionId).None? {
            if i > 0 { assert lessons[i] == lessons[1..][i - 1]; }
          }
        }
      }
      assert r.Some? ==> exists i :: (
        && 0 <= i < |lessons| && lessons[i] == r.value && FindLabWith(lessons[i].labs, questionId).Some?
        && forall k :: 0 <= k < i ==> FindLabWith(lessons[k].labs, questionId).None?) by {
        if r.Some? {
          var i :| && 0 <= i < |lessons[1..]| && lessons[1..][i] == r.value
            && FindLabWith(lessons[1..][i].labs, questionId).Some?
            && forall k :: 0 <= k < i ==> FindLabWith(lessons[1..][k].labs, questionId).None?;
          assert lessons[i + 1] == lessons[1..][i];
          forall k | 0 <= k < i + 1 ensures FindLabWith(lessons[k].labs, questionId).None? {
            if k > 0 { assert lessons[k] == lessons[1..][k - 1]; }
          }
        }
      }
      r
  }

  /**
   * The view the random-question button opens for the picked question: the
   * first lab holding it, inside the first lesson that has such a lab; no
   * view iff no lab of any lesson holds it.
   */
  function RandomQuestionView(lessons: seq<Lesson>, questionId: string): (r: Option<ViewState>)
    ensures r.None? <==>
      forall i, j :: 0 <= i < |lessons| && 0 <= j < |lessons[i].labs| ==>
        !HasQuestion(lessons[i].labs[j].questions, questionId)
    ensures r.Some? ==> exists i, j :: (
      && 0 <= i < |lessons| && 0 <= j < |lessons[i].labs|
      && HasQuestion(lessons[i].labs[j].questions, questionId)
      && (forall k, m :: 0 <= k < i && 0 <= m < |lessons[k].labs| ==>
            !HasQuestion(lessons[k].labs[m].questions, questionId))
      && (forall m :: 0 <= m < j ==> !HasQuestion(lessons[i].labs[m].questions, questionId))
      && r.value == ViewState(LabView, Some(lessons[i].id), Some(lessons[i].labs[j].id)))
  {
    match FindLessonWith(lessons, questionId)
    case None => None
    case Some(lesson) =>
      var i :| && 0 <= i < |lessons| && lessons[i] == lesson && FindLabWith(lessons[i].labs, questionId).Some?
        && forall k :: 0 <= k < i ==> FindLabWith(lessons[k].labs, questionId).None?;
      var lab := FindLabWith(lesson.labs, questionId).value;
      var j :| && 0 <= j < |lesson.labs| && lesson.labs[j] == lab && HasQuestion(lesson.labs[j].questions, questionId)
        && forall m :: 0 <= m < j ==> !HasQuestion(lesson.labs[m].questions, questionId);
      Some(ViewState(LabView, Some(lesson.id), Some(lab.id)))
  }

  /** Whatever catalog question is picked, the lookup finds its lesson and lab. */
  lemma RandomQuestionAlwaysOpensLab(lessons: seq<Lesson>, q: LabQuestion)
    requires q in SmartPractice.AllQuestions(lessons)
    ensures RandomQuestionView(lessons, q.id).Some?
    ensures RandomQuestionView(lessons, q.id).value.kind == LabView
  {
    SmartPractice.InAllQuestions(lessons, q);
    var i :| 0 <= i < |lessons| && q in SmartPractice.LabsQuestions(lessons[i].labs);
    SmartPractice.InLabsQuestions(lessons[i].labs, q);
    var j :| 0 <= j < |lessons[i].labs| && q in lessons[i].labs[j].questions;
    var k :| 0 <= k < |lessons[i].labs[j].questions| && lessons[i].labs[j].questions[k] == q;
    assert HasQuestion(lessons[i].labs[j].questions, q.id);
    assert FindLabWith(lessons[i].labs, q.id).Some?;
  }
}
