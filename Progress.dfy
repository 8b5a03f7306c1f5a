/**
 * Recording answer outcomes (App.tsx `handleUpdateProgress`): the updater
 * handed to the progress state setter, and the state it is applied to.
 */
module Progress {
  import opened Types

  /** The attempt count recorded for a question, 0 when it has no entry. */
  function AttemptsSoFar(p: UserProgress, questionId: string): nat {
    if questionId in p then p[questionId].attempts else 0
  }

  /** `userProgress[id]?.correct`: only a question with an entry can be marked correct. */
  predicate MarkedCorrect(p: UserProgress, id: string): (b: bool)
    ensures b ==> id in p
  {
    id in p && p[id].correct
  }

  /**
   * The progress after one check of `questionId`: its entry is created or
   * replaced, with one more attempt and the latest outcome; no other key is
   * added and no other entry changes.
   */
  function Recorded(prev: UserProgress, questionId: string, correct: bool): (next: UserProgress)
    ensures next.Keys == prev.Keys + {questionId}
    ensures next[questionId].correct == correct
    ensures next[questionId].attempts == AttemptsSoFar(prev, questionId) + 1
    ensures forall k :: k in prev && k != questionId ==> next[k] == prev[k]
  {
    prev[questionId := AttemptRecord(correct, AttemptsSoFar(prev, questionId) + 1)]
  }

  /** Every recorded question has been checked at least once. */
  ghost predicate WellFormed(p: UserProgress) {
    forall k :: k in p ==> p[k].attempts >= 1
  }

  lemma RecordedKeepsWellFormed(prev: UserProgress, questionId: string, correct: bool)
    requires WellFormed(prev)
    ensures WellFormed(Recorded(prev, questionId, correct))
  {
  }

  /** Recording never lowers any question's attempt count. */
  lemma RecordedAttemptsGrow(prev: UserProgress, questionId: string, correct: bool, k: string)
    ensures AttemptsSoFar(Recorded(prev, questionId, correct), k) >= AttemptsSoFar(prev, k)
    ensures k != questionId ==> AttemptsSoFar(Recorded(prev, questionId, correct), k) == AttemptsSoFar(prev, k)
  {
  }

  /** The progress after checking `questionId` once per outcome, in order. */
  function Replay(p: UserProgress, questionId: string, outcomes: seq<bool>): UserProgress
    decreases |outcomes|
  {
    if outcomes == [] then p
    else Replay(Recorded(p, questionId, outcomes[0]), questionId, outcomes[1..])
  }

  /**
   * n checks of one question add n to its attempts and leave the last
   * outcome; every other entry is as before.
   */
  lemma {:induction false} ReplayEffect(p: UserProgress, questionId: string, outcomes: seq<bool>)
    requires |outcomes| > 0
    ensures var q := Replay(p, questionId, outcomes);
      && q.Keys == p.Keys + {questionId}
      && q[questionId] == AttemptRecord(outcomes[|outcomes| - 1], AttemptsSoFar(p, questionId) + |outcomes|)
      && (forall k :: k in p && k != questionId ==> q[k] == p[k])
    decreases |outcomes|
  {
    var p' := Recorded(p, questionId, outcomes[0]);
    if |outcomes| > 1 {
      ReplayEffect(p', questionId, outcomes[1..]);
      assert outcomes[1..][|outcomes[1..]| - 1] == outcomes[|outcomes| - 1];
    }
  }

  /** From no entry, n checks leave exactly n attempts and the n-th outcome. */
  lemma RepeatedRecording(p: UserProgress, questionId: string, outcomes: seq<bool>)
    requires |outcomes| > 0 && questionId !in p
    ensures questionId in Replay(p, questionId, outcomes)
    ensures Replay(p, questionId, outcomes)[questionId] ==
      AttemptRecord(outcomes[|outcomes| - 1], |outcomes|)
  {
    ReplayEffect(p, questionId, outcomes);
  }

  /** The progress state held by the application; it starts empty. */
  class ProgressStore {
    var progress: UserProgress

    constructor ()
      ensures progress == map[]
      ensures WellFormed(progress)
    {
      progress := map[];
    }

    /** `handleUpdateProgress`: apply the updater to the current progress. */
    method RecordOutcome(questionId: string, correct: bool)
      modifies this
      ensures progress == Recorded(old(progress), questionId, correct)
      ensures WellFormed(old(progress)) ==> WellFormed(progress)
    {
      progress := Recorded(progress, questionId, correct);
    }
  }
}
