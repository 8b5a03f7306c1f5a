/**
 * The shipped data (constants.ts): the free OpenRouter models offered at
 * setup and the initial lesson catalog, used here as a concrete fixture.
 * Every id, title, question, option, answer key, explanation and
 * placeholder is as shipped; the lessons' markdown bodies are left empty.
 */
module Catalog {
  import opened Wrappers
  import opened Types
  import SmartPractice
  import LabView

  /** The models the setup screen offers; the first one is preselected. */
  const OpenRouterFreeModels: seq<string> := [
    "mistralai/mistral-7b-instruct:free",
    "google/gemma-7b-it:free",
    "huggingfaceh4/zephyr-7b-beta:free",
    "openchat/openchat-7b:free"
  ]

  const AlgorithmQuestions: seq<LabQuestion> := [
    McqQuestion(
      "q-algo-1",
      "Which characteristic ensures that an algorithm will eventually stop?",
      [McqOption("1", "Input"), McqOption("2", "Finiteness"), McqOption("3", "Effectiveness"), McqOption("4", "Definiteness")],
      "2",
      "Finiteness guarantees that an algorithm will terminate after a finite number of steps."),
    McqQuestion(
      "q-algo-2",
      "What is the primary purpose of an algorithm?",
      [McqOption("1", "To write code"), McqOption("2", "To solve a problem or perform a computation"),
       McqOption("3", "To store data"), McqOption("4", "To design a user interface")],
      "2",
      "Algorithms are fundamental recipes for solving problems or performing computations in a systematic way.")
  ]

  /** The code q-net-2's answer box starts with, written in three pieces around its mention of the layer. */
  const Net2PlaceholderHead := "# TCP is part of the "
  const Net2PlaceholderTail :=
    ".\n# Which layer does the `socket` library abstract?\n\nanswer = 'Your answer here (e.g., Application Layer)'"
  const Net2Placeholder := Net2PlaceholderHead + "Transport Layer" + Net2PlaceholderTail

  const NetworkingQuestions: seq<LabQuestion> := [
    McqQuestion(
      "q-net-1",
      "Which layer of the OSI model is responsible for routing packets between networks?",
      [McqOption("1", "Transport Layer"), McqOption("2", "Data Link Layer"),
       McqOption("3", "Network Layer"), McqOption("4", "Physical Layer")],
      "3",
      "The Network Layer handles logical addressing (like IP addresses) and determines the best path for data to travel across multiple networks."),
    CodeQuestion(
      "q-net-2",
      "In Python, you might use the `socket` library to work with TCP connections. This library primarily operates at which layer?",
      "The socket library in most programming languages provides an API to the Transport Layer protocols like TCP and UDP, allowing applications to send and receive data reliably.",
      Net2Placeholder)
  ]

  const InitialLessons: seq<Lesson> := [
    Lesson("ds-algo-1", "Introduction to Algorithms", "Data Structures & Algorithms", "",
      [Lab("lab-algo-1", "Algorithm Concepts", AlgorithmQuestions)]),
    Lesson("net-1", "The OSI Model", "Networking", "",
      [Lab("lab-net-1", "OSI Layer Challenge", NetworkingQuestions)])
  ]

  /** Every question of the shipped catalog. */
  lemma CatalogQuestions()
    ensures SmartPractice.AllQuestions(InitialLessons) == AlgorithmQuestions + NetworkingQuestions
  {
    var rest := InitialLessons[1..];
    assert rest == [InitialLessons[1]] && rest[1..] == [];
    assert SmartPractice.LabsQuestions(InitialLessons[1].labs) == NetworkingQuestions + [];
    assert SmartPractice.AllQuestions(rest) == NetworkingQuestions + [];
    assert SmartPractice.LabsQuestions(InitialLessons[0].labs) == AlgorithmQuestions + [];
  }

  /** The shipped catalog has no two questions with the same id. */
  lemma CatalogIdsUnique()
    ensures SmartPractice.UniqueIds(SmartPractice.AllQuestions(InitialLessons))
  {
    CatalogQuestions();
  }

  /** In the shipped catalog every multiple-choice answer key names one of the question's options. */
  lemma CatalogAnswerKeysOffered()
    ensures forall q :: q in SmartPractice.AllQuestions(InitialLessons) && q.McqQuestion? ==>
      exists k :: 0 <= k < |q.options| && q.options[k].id == q.correctOptionId
  {
    CatalogQuestions();
    assert AlgorithmQuestions[0].options[1].id == "2";
    assert AlgorithmQuestions[1].options[1].id == "2";
    assert NetworkingQuestions[0].options[2].id == "3";
  }

  /** For the shipped catalog, each question last answered incorrectly is listed for review exactly once. */
  lemma CatalogReviewListsOnce(p: UserProgress, q: LabQuestion)
    requires q in SmartPractice.AllQuestions(InitialLessons) && SmartPractice.NeedsReview(p, q)
    ensures multiset(SmartPractice.IncorrectQuestions(InitialLessons, p))[q] == 1
  {
    CatalogIdsUnique();
    SmartPractice.ReviewListsOnce(InitialLessons, p, q);
  }

  /**
   * The placeholder's first line already names the Transport Layer. The
   * answer box shows the placeholder only while no answer is stored (and
   * an unstored answer grades false), but an answer written by editing the
   * placeholder that keeps its first line is graded correct whatever
   * follows, a wrong layer included.
   */
  lemma PlaceholderLineGradesCorrect(tail: string)
    ensures NetworkingQuestions[1].CodeQuestion?
    ensures NetworkingQuestions[1].placeholderCode == Net2PlaceholderHead + "Transport Layer" + Net2PlaceholderTail
    ensures LabView.IsCorrect(NetworkingQuestions[1], Some(Net2PlaceholderHead + "Transport Layer" + tail))
  {
    LabView.MixedCasePhraseLowers();
    LabView.CodeAcceptsAnyCase(NetworkingQuestions[1], Net2PlaceholderHead, "Transport Layer", tail);
  }
}
