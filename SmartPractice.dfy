/**
 * The smart-review selection (App.tsx `SmartPracticeView`): the catalog is
 * flattened lesson by lesson, lab by lab, and the questions whose latest
 * recorded outcome is incorrect are kept, in catalog order.
 */
module SmartPractice {
  import opened Types
  import Progress

  /** The number of questions of each lab, added up. */
  function SumQuestionCounts(labs: seq<Lab>): nat {
    if labs == [] then 0 else |labs[0].questions| + SumQuestionCounts(labs[1..])
  }

  /** The number of questions of each lesson, added up. */
  function SumLessonCounts(lessons: seq<Lesson>): nat {
    if lessons == [] then 0 else SumQuestionCounts(lessons[0].labs) + SumLessonCounts(lessons[1..])
  }

  /** `labs.flatMap(lab => lab.questions)`: as many questions as the labs hold together. */
  function LabsQuestions(labs: seq<Lab>): (r: seq<LabQuestion>)
    ensures |r| == SumQuestionCounts(labs)
  {
    if labs == [] then [] else labs[0].questions + LabsQuestions(labs[1..])
  }

  /** `lessons.flatMap(l => l.labs.flatMap(lab => lab.questions))`: as many questions as the lessons hold together. */
  function AllQuestions(lessons: seq<Lesson>): (r: seq<LabQuestion>)
    ensures |r| == SumLessonCounts(lessons)
  {
    if lessons == [] then [] else LabsQuestions(lessons[0].labs) + AllQuestions(lessons[1..])
  }

  /** A question is in some lab of the list. */
  lemma {:induction false} InLabsQuestions(labs: seq<Lab>, q: LabQuestion)
    ensures q in LabsQuestions(labs) <==> exists j :: 0 <= j < |labs| && q in labs[j].questions
  {
    if labs != [] {
      InLabsQuestions(labs[1..], q);
      if q in LabsQuestions(labs[1..]) {
        var j :| 0 <= j < |labs[1..]| && q in labs[1..][j].questions;
        assert labs[j + 1] == labs[1..][j];
      }
      if exists j :: 0 <= j < |labs| && q in labs[j].questions {
        var j :| 0 <= j < |labs| && q in labs[j].questions;
        if j > 0 {
          assert labs[1..][j - 1] == labs[j];
        }
      }
    }
  }

  /** The flattened catalog holds exactly the questions of the labs of the lessons. */
  lemma {:induction false} InAllQuestions(lessons: seq<Lesson>, q: LabQuestion)
    ensures q in AllQuestions(lessons) <==>
      exists i :: 0 <= i < |lessons| && q in LabsQuestions(lessons[i].labs)
  {
    if lessons != [] {
      InAllQuestions(lessons[1..], q);
      if q in AllQuestions(lessons[1..]) {
        var i :| 0 <= i < |lessons[1..]| && q in LabsQuestions(lessons[1..][i].labs);
        assert lessons[i + 1] == lessons[1..][i];
      }
      if exists i :: 0 <= i < |lessons| && q in LabsQuestions(lessons[i].labs) {
        var i :| 0 <= i < |lessons| && q in LabsQuestions(lessons[i].labs);
        if i > 0 {
          assert lessons[1..][i - 1] == lessons[i];
        }
      }
    }
  }

  /**
   * `userProgress[q.id] && !userProgress[q.id].correct`: the question has
   * been checked and is not marked correct.
   */
  predicate NeedsReview(p: UserProgress, q: LabQuestion): (b: bool)
    ensures b <==> q.id in p && !Progress.MarkedCorrect(p, q.id)
  {
    q.id in p && !p[q.id].correct
  }

  /** `allQuestions.filter(q => NeedsReview(q))`. */
  function KeepForReview(qs: seq<LabQuestion>, p: UserProgress): (r: seq<LabQuestion>)
    ensures |r| <= |qs|
    ensures forall q :: q in r <==> q in qs && NeedsReview(p, q)
  {
    if qs == [] then []
    else (if NeedsReview(p, qs[0]) then [qs[0]] else []) + KeepForReview(qs[1..], p)
  }

  /** `incorrectQuestions`: the catalog's questions that need review, and only those. */
  function IncorrectQuestions(lessons: seq<Lesson>, p: UserProgress): (r: seq<LabQuestion>)
    ensures |r| <= SumLessonCounts(lessons)
    ensures forall q :: q in r <==> q in AllQuestions(lessons) && NeedsReview(p, q)
  {
    KeepForReview(AllQuestions(lessons), p)
  }

  /**
   * A question is up for review iff it is in the catalog and has an entry
   * marked incorrect; so a question never checked, or last answered
   * correctly, is not.
   */
  lemma ReviewMembership(lessons: seq<Lesson>, p: UserProgress, q: LabQuestion)
    ensures q in IncorrectQuestions(lessons, p) <==>
      && (exists i, j :: 0 <= i < |lessons| && 0 <= j < |lessons[i].labs| && q in lessons[i].labs[j].questions)
      && q.id in p && !p[q.id].correct
    ensures q.id !in p ==> q !in IncorrectQuestions(lessons, p)
    ensures q.id in p && p[q.id].correct ==> q !in IncorrectQuestions(lessons, p)
  {
    InAllQuestions(lessons, q);
    forall i | 0 <= i < |lessons| {
      InLabsQuestions(lessons[i].labs, q);
    }
  }

  /** `a` is `b` with some elements left out, the rest in the same order. */
  predicate IsSubsequence<T(==)>(a: seq<T>, b: seq<T>)
    decreases |b|
  {
    if a == [] then true
    else if b == [] then false
    else if a[0] == b[0] then IsSubsequence(a[1..], b[1..])
    else IsSubsequence(a, b[1..])
  }

  lemma {:induction false} KeepIsSubsequence(qs: seq<LabQuestion>, p: UserProgress)
    ensures IsSubsequence(KeepForReview(qs, p), qs)
    decreases |qs|
  {
    if qs != [] {
      KeepIsSubsequence(qs[1..], p);
      var rest := KeepForReview(qs[1..], p);
      if NeedsReview(p, qs[0]) {
        assert KeepForReview(qs, p) == [qs[0]] + rest;
        assert ([qs[0]] + rest)[1..] == rest;
      } else {
        assert KeepForReview(qs, p) == rest;
        SkipHeadKeepsSubsequence(rest, qs);
      }
    }
  }

  /** A subsequence of the tail is a subsequence of the whole. */
  lemma {:induction false} SkipHeadKeepsSubsequence<T>(a: seq<T>, b: seq<T>)
    requires b != [] && IsSubsequence(a, b[1..])
    ensures IsSubsequence(a, b)
    decreases |a| + |b|
  {
    if a != [] && a[0] == b[0] {
      // a[1..] is a subsequence of b[1..] because a is.
      SubsequenceOfTail(a, b[1..]);
    }
  }

  /** Dropping the head of a non-empty subsequence keeps it a subsequence. */
  lemma {:induction false} SubsequenceOfTail<T>(a: seq<T>, b: seq<T>)
    requires a != [] && IsSubsequence(a, b)
    ensures IsSubsequence(a[1..], b)
    decreases |a| + |b|
  {
    if a[0] == b[0] {
      if a[1..] != [] {
        SkipHeadKeepsSubsequence(a[1..], b);
      }
    } else {
      SubsequenceOfTail(a, b[1..]);
      SkipHeadKeepsSubsequence(a[1..], b);
    }
  }

  /** The review set keeps catalog order: lesson, then lab, then question. */
  lemma ReviewKeepsCatalogOrder(lessons: seq<Lesson>, p: UserProgress)
    ensures IsSubsequence(IncorrectQuestions(lessons, p), AllQuestions(lessons))
  {
    KeepIsSubsequence(AllQuestions(lessons), p);
  }

  /** No two questions of the sequence share an id. */
  predicate UniqueIds(qs: seq<LabQuestion>) {
    forall i, j :: 0 <= i < j < |qs| ==> qs[i].id != qs[j].id
  }

  lemma {:induction false} KeepCount(qs: seq<LabQuestion>, p: UserProgress, q: LabQuestion)
    ensures multiset(KeepForReview(qs, p))[q] == if NeedsReview(p, q) then multiset(qs)[q] else 0
    decreases |qs|
  {
    if qs != [] {
      KeepCount(qs[1..], p, q);
      assert qs == [qs[0]] + qs[1..];
    }
  }

  lemma {:induction false} UniqueOccursOnce(qs: seq<LabQuestion>, q: LabQuestion)
    requires UniqueIds(qs) && q in qs
    ensures multiset(qs)[q] == 1
    decreases |qs|
  {
    assert qs == [qs[0]] + qs[1..];
    if qs[0] == q {
      assert q !in qs[1..];
    } else {
      UniqueOccursOnce(qs[1..], q);
    }
  }

  /**
   * When catalog ids are unique, each question to review is listed exactly
   * once, however many times it was attempted.
   */
  lemma ReviewListsOnce(lessons: seq<Lesson>, p: UserProgress, q: LabQuestion)
    requires UniqueIds(AllQuestions(lessons))
    requires q in AllQuestions(lessons) && NeedsReview(p, q)
    ensures multiset(IncorrectQuestions(lessons, p))[q] == 1
  {
    KeepCount(AllQuestions(lessons), p, q);
    UniqueOccursOnce(AllQuestions(lessons), q);
  }

  /** Attempt counts play no part: progress that agrees on keys and outcomes gives the same review set. */
  lemma {:induction false} ReviewIgnoresAttempts(qs: seq<LabQuestion>, p1: UserProgress, p2: UserProgress)
    requires p1.Keys == p2.Keys
    requires forall k :: k in p1 ==> p1[k].correct == p2[k].correct
    ensures KeepForReview(qs, p1) == KeepForReview(qs, p2)
    decreases |qs|
  {
    if qs != [] {
      ReviewIgnoresAttempts(qs[1..], p1, p2);
    }
  }

  /** With no progress recorded there is nothing to review. */
  lemma {:induction false} NothingToReviewAtFirst(qs: seq<LabQuestion>)
    ensures KeepForReview(qs, map[]) == []
    decreases |qs|
  {
    if qs != [] {
      NothingToReviewAtFirst(qs[1..]);
    }
  }

  /**
   * Checking a catalog question puts it up for review exactly when it was
   * answered incorrectly; whether any question with another id is up for
   * review does not change.
   */
  lemma RecordingDecidesReview(
    lessons: seq<Lesson>, p: UserProgress, q: LabQuestion, correct: bool, other: LabQuestion)
    requires q in AllQuestions(lessons)
    ensures q in IncorrectQuestions(lessons, Progress.Recorded(p, q.id, correct)) <==> !correct
    ensures other.id != q.id ==>
      (other in IncorrectQuestions(lessons, Progress.Recorded(p, q.id, correct)) <==>
       other in IncorrectQuestions(lessons, p))
  {
  }
}
