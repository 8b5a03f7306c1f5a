/**
 * The data model of the learning portal (types.ts): the AI provider
 * configuration, the question tagged union, the Lesson/Lab catalog tree,
 * the per-question progress map and the navigation state.
 */
module Types {
  import opened Wrappers

  /** The two AI backends a configuration can select. */
  datatype AIProvider = Gemini | OpenRouter {

    /** The string under which the provider is stored in a serialized configuration. */
    function Name(): string {
      match this
      case Gemini => "gemini"
      case OpenRouter => "openrouter"
    }
  }

  /** Both credentials and the OpenRouter model are always present, whichever provider is active. */
  datatype ApiConfig = ApiConfig(
    provider: AIProvider,
    geminiApiKey: string,
    openRouterApiKey: string,
    openRouterModel: string)

  /** The tag that tells the two question variants apart. */
  datatype QuestionType = MCQ | CODE

  datatype McqOption = McqOption(id: string, text: string)

  /**
   * A lab question is exactly one of two variants: only a multiple-choice
   * question has options and a correct option id, only a code question
   * has placeholder code.
   */
  datatype LabQuestion =
    | McqQuestion(
        id: string,
        questionText: string,
        options: seq<McqOption>,
        correctOptionId: string,
        explanation: string)
    | CodeQuestion(
        id: string,
        questionText: string,
        explanation: string,
        placeholderCode: string)
  {
    /** The `type` tag of the question. */
    function Type(): QuestionType {
      match this
      case McqQuestion(_, _, _, _, _) => MCQ
      case CodeQuestion(_, _, _, _) => CODE
    }
  }

  /** A lab owns an ordered list of questions. */
  datatype Lab = Lab(id: string, title: string, questions: seq<LabQuestion>)

  /** A lesson owns an ordered list of labs; `content` is its markdown body. */
  datatype Lesson = Lesson(id: string, title: string, category: string, content: string, labs: seq<Lab>)

  /** The latest outcome for one question and how many times it was checked. */
  datatype AttemptRecord = AttemptRecord(correct: bool, attempts: nat)

  /** Progress: question id to its latest record. */
  type UserProgress = map<string, AttemptRecord>

  datatype ViewKind = DashboardView | LessonView | LabView | PracticeView

  /** What the main panel shows; the ids are present only where the kind needs them. */
  datatype ViewState = ViewState(kind: ViewKind, lessonId: Option<string>, labId: Option<string>)
}
