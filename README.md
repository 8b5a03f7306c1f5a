# IT Learning Hub core, modelled in Dafny

IT Learning Hub is a browser learning portal. It shows lessons, grades
multiple-choice (MCQ) and code (CODE) lab questions, and keeps a record of
each question's latest outcome. It also offers an AI tutor chat backed by
one of two providers: Google Gemini or OpenRouter. This project models the
three pieces of that application that hold logic, and proves what they
promise.

- **Progress and review engine** (App.tsx). `handleUpdateProgress` records
  one outcome per check. The smart-review list keeps the catalog questions
  whose latest outcome is incorrect. The sidebar shows category headings,
  a per-lesson "correct/total" counter, and a random-question button that
  looks up the picked question's lesson and lab. `checkAnswer` grades one
  answer, shows the verdict and records it.
- **Provider gateway** (services/aiService.ts). `generateText` reads the
  stored configuration and dispatches on the provider. It checks each
  provider's credentials before any request and turns every later failure
  into a reply string.
- **Setup form** (components/ApiKeySetup.tsx). It has four fields with
  setters. `handleSubmit` checks only the active provider's key and then
  hands all four fields to `onConfigured`.

The data model of types.ts is in `Types`. The shipped catalog and model
list of constants.ts are in `Catalog`, used as a concrete fixture.

Modules: `Wrappers` (Option), `Types`, `Strings` (ASCII `toLowerCase`,
`includes`, decimal rendering), `Progress`, `SmartPractice`, `Sidebar`,
`LabView`, `Gateway`, `ApiKeySetup`, `Catalog`, `AppWiring`.

State that the source updates in place is a class:
- `Progress.ProgressStore` holds the progress map.
- `LabView.LabSession` holds the answers and feedback maps and sends
  outcomes to the store.
- `ApiKeySetup.SetupForm` holds the four form fields.

The rest is functions and lemmas. The gateway is pure. What the Gemini SDK
and `fetch` deliver is an input (`GeminiResponse`, `OpenRouterResponse`).
The request the code would send is part of the result (`Call.request`), so
"no request was made" reads as `request == None`. How the returned promise
settles is `Call.settlement`: `Resolved(text)`, or `Rejected` with a bare
string (`Promise.reject(...)`) or with an `Error` (a `throw` inside the
async function).

Three facts about the code that the model keeps:
- A missing configuration is not a caller precondition. `generateText`
  rejects with "API configuration not found. Please set it up first."
- Code questions do not carry their own expected answer. Every CODE
  question is graded against the one phrase "transport layer".
- An empty Gemini key is not turned into a reply string. The promise
  rejects with the `Error` "Gemini API key is not set."

## Model

| member | source | states |
|---|---|---|
| `Strings.ToLower` | App.tsx:158 | lower-casing keeps the length, turns each ASCII upper-case letter into its lower-case letter and keeps every other character in place |
| `Strings.Includes` | App.tsx:158 | `includes` is true iff the pattern occurs at some index of the string |
| `Strings.DecimalString` | services/aiService.ts:55 | the rendered status is a non-empty string of digits without a leading zero |
| `Strings.DecimalRoundTrip` | services/aiService.ts:55 | reading the rendered status back gives the status |
| `Progress.MarkedCorrect` | App.tsx:22 | only a question with an entry can count as correct |
| `Progress.Recorded` | App.tsx:266-272 | after a check of q, q has attempts = previous attempts (0 if absent) + 1 and the given outcome; the only key added is q; every other entry is unchanged |
| `Progress.RecordedKeepsWellFormed` | App.tsx:269-270 | recording keeps every entry's attempt count at 1 or more |
| `Progress.RecordedAttemptsGrow` | App.tsx:270 | no attempt count goes down; other questions' counts stay the same |
| `Progress.ReplayEffect` | App.tsx:265-273 | n checks of q add n to its attempts, leave the n-th outcome, add only q and change no other entry |
| `Progress.RepeatedRecording` | App.tsx:269-270 | n checks of q from no entry give attempts == n and the n-th outcome |
| `Progress.ProgressStore.constructor` | App.tsx:262 | progress starts as the empty map |
| `Progress.ProgressStore.RecordOutcome` | App.tsx:265-273 | the new progress is the updater applied to the old one; attempt counts of at least 1 stay that way |
| `SmartPractice.LabsQuestions` | App.tsx:21 | flattening a lesson's labs yields as many questions as the labs hold together |
| `SmartPractice.AllQuestions` | App.tsx:229 | flattening the catalog yields as many questions as the lessons hold together |
| `SmartPractice.InLabsQuestions` | App.tsx:229 | a question is in a lesson's flattened labs iff some lab holds it |
| `SmartPractice.InAllQuestions` | App.tsx:229 | a question is in the flattened catalog iff some lesson's labs hold it |
| `SmartPractice.NeedsReview` | App.tsx:230 | a question needs review iff it has an entry and that entry is not marked correct |
| `SmartPractice.KeepForReview` | App.tsx:230 | the filter keeps exactly the questions with an entry marked incorrect, and is no longer than its input |
| `SmartPractice.IncorrectQuestions` | App.tsx:228-231 | the review set holds exactly the catalog questions that need review and is no longer than the catalog |
| `SmartPractice.ReviewMembership` | App.tsx:229-230 | a question is in the review set iff some lesson's lab holds it and it has an entry marked incorrect; never-attempted questions and questions last answered correctly are excluded |
| `SmartPractice.KeepIsSubsequence` | App.tsx:230 | filtering keeps the relative order of the questions it keeps |
| `SmartPractice.ReviewKeepsCatalogOrder` | App.tsx:229-230 | the review set is a subsequence of the catalog in lesson, lab, question order |
| `SmartPractice.KeepCount` | App.tsx:230 | a question occurs in the filtered list as often as in the input if it needs review, otherwise not at all |
| `SmartPractice.ReviewListsOnce` | App.tsx:229-230 | with unique catalog ids, each question to review appears exactly once |
| `SmartPractice.ReviewIgnoresAttempts` | App.tsx:230 | the review set depends only on which questions have entries and their outcomes, not on attempt counts |
| `SmartPractice.NothingToReviewAtFirst` | App.tsx:230 | with no progress recorded the review set is empty |
| `SmartPractice.RecordingDecidesReview` | App.tsx:229-230 | after checking a catalog question it is up for review iff it was answered incorrectly; for questions with other ids, review membership does not change |
| `Sidebar.CategoryList` | App.tsx:16 | one category per lesson, in lesson order |
| `Sidebar.Distinct` | App.tsx:16 | the set-and-spread has the same values as its input, each once |
| `Sidebar.DistinctFirstOccurrenceOrder` | App.tsx:16 | the distinct values come out in the order of their first occurrence |
| `Sidebar.Categories` | App.tsx:16 | the headings are exactly the lessons' categories, without repeats, in the order of each category's first lesson |
| `Sidebar.FindLesson` | App.tsx:19 | the result is the first lesson with that id, or none iff no lesson has it |
| `Sidebar.QuestionIds` | App.tsx:21 | the ids of the lesson's questions, one per question, in order |
| `Sidebar.CorrectIds` | App.tsx:22 | each id marked correct is kept as often as it occurs, every other id is dropped; no longer than its input |
| `Sidebar.CorrectIdsIsSubsequence` | App.tsx:22 | the kept ids stay in their input order |
| `Sidebar.CorrectIdsCount` | App.tsx:21-22 | the filtered list has one id per question marked correct, counted question by question |
| `Sidebar.LabsMarkedCorrect` | App.tsx:21-22 | over the flattened labs, the questions marked correct number the sum of each lab's count |
| `Sidebar.GetProgress` | App.tsx:18-24 | for the first lesson with the id, total is its number of questions and correct the number of them marked correct; an unknown lesson gives 0/0; correct never exceeds total |
| `Sidebar.LessonProgressCounts` | App.tsx:18-23 | for a found lesson, total is the sum of its labs' question counts and correct the sum of its labs' counts of questions marked correct; an unknown id gives 0/0 |
| `Sidebar.CorrectAndReviewDisjoint` | App.tsx:22 | every question of a lesson is counted correct, listed for review or not yet attempted, exactly one of the three; the counts add up to the total |
| `Sidebar.FindLabWith` | App.tsx:54 | the result is the first lab holding a question with that id, or none iff no lab holds one |
| `Sidebar.FindLessonWith` | App.tsx:53 | the result is the first lesson with such a lab, or none iff no lesson has one |
| `Sidebar.RandomQuestionView` | App.tsx:53-56 | the view opens the first lab holding the question, inside the first lesson that has such a lab; there is no view iff no lab holds it |
| `Sidebar.RandomQuestionAlwaysOpensLab` | App.tsx:50-56 | for every catalog question the lookup finds its lesson and lab, so the button always navigates |
| `LabView.Lookup` | App.tsx:155 | the answer lookup gives the stored answer, and none exactly when no answer is stored |
| `LabView.IsCorrect` | App.tsx:152-159 | a missing answer is never graded correct |
| `LabView.McqGrading` | App.tsx:154-155 | an MCQ answer is correct iff it equals `correctOptionId`; any other option id is wrong |
| `LabView.CodeGradingIsUniform` | App.tsx:156-158 | every CODE question gets the same verdict for the same answer: correct iff the lowercased answer contains "transport layer" |
| `LabView.CodeAcceptsAnyCase` | App.tsx:158 | an answer containing the phrase in any ASCII letter case is correct |
| `LabView.CodeAcceptsExample` | App.tsx:158 | "The Transport Layer" is graded correct |
| `LabView.CodeRefusesExample` | App.tsx:158 | "Network Layer" is graded incorrect |
| `LabView.LabSession.constructor` | App.tsx:140-141 | answers and feedback start empty |
| `LabView.LabSession.HandleMcqSelect` | App.tsx:143-146 | the option becomes the answer; the feedback is hidden and keeps its earlier verdict |
| `LabView.LabSession.HandleCodeChange` | App.tsx:148-150 | the text becomes the answer; feedback is unchanged |
| `LabView.LabSession.CheckAnswer` | App.tsx:152-162 | shows the verdict for the current answer and records exactly one outcome, that verdict, for this question; answers are unchanged |
| `Gateway.Stored` | App.tsx:260 | a configuration from the setup screen is stored under one of the two provider names the gateway dispatches on, different names for different providers, with keys and model as given |
| `Gateway.CaughtMessage` | services/aiService.ts:19-25 | a caught `Error` becomes the API's prefix followed by its message, readable back from the reply; any other thrown value becomes the fixed unknown-error reply |
| `Gateway.HttpErrorMessage` | services/aiService.ts:55 | the thrown message is the body's non-empty error message, otherwise the status line; it is never empty |
| `Gateway.OpenRouterReply` | services/aiService.ts:53-67 | a completion resolves to its content unchanged; a non-ok response is thrown as an `Error` with the HTTP error message and caught; any other thrown value goes through the same catch |
| `Gateway.CallGemini` | services/aiService.ts:5-26 | an empty key rejects with "Gemini API key is not set." and sends nothing; otherwise exactly the Gemini request is sent and the call resolves |
| `Gateway.CallOpenRouter` | services/aiService.ts:28-68 | a request is sent iff key and model are both non-empty; an empty key rejects first, then an empty model; once sent, the call resolves to the reply for the response (content, or the caught-error string) |
| `Gateway.GenerateText` | services/aiService.ts:70-85 | no config rejects with the not-found string and sends nothing; an unknown provider rejects with "Invalid AI provider selected."; a rejection happens iff no request is sent; a sent request is for the configured provider with its credentials |
| `Gateway.DispatchGemini` | services/aiService.ts:78-79 | `'gemini'` is exactly the Gemini call with the Gemini key; the OpenRouter fields play no part |
| `Gateway.DispatchOpenRouter` | services/aiService.ts:80-81 | `'openrouter'` is exactly the OpenRouter call with its key and model; the Gemini key plays no part |
| `Gateway.OpenRouterKeyCheckedFirst` | services/aiService.ts:29-34 | an empty OpenRouter key fails with the key message whatever the model, before any request |
| `Gateway.OpenRouterRequestShape` | services/aiService.ts:36-50 | the request goes to the fixed endpoint with the key, the configured model and exactly two messages: system/instruction, then user/prompt |
| `Gateway.SuccessPassesThrough` | services/aiService.ts:18-59 | on success the result is Gemini's `text` or OpenRouter's first choice content, unchanged |
| `Gateway.HttpFailureReply` | services/aiService.ts:53-65 | a non-ok response resolves to "Error calling OpenRouter API: " followed by the error message, or the status line when there is none |
| `Gateway.HttpFailureStatusReadable` | services/aiService.ts:55 | the fallback reply is the fixed prefix followed by digits that read back as the status |
| `Gateway.RateLimitedReplyMentionsReason` | services/aiService.ts:53-64 | a non-ok response with message "rate limited" yields a reply that contains "rate limited" |
| `Gateway.ThrownFailuresResolve` | services/aiService.ts:19-67 | once a request is sent, a thrown value never propagates: it resolves to that provider's error string |
| `ApiKeySetup.Decide` | components/ApiKeySetup.tsx:17-33 | an accepted submit carries the current provider, both keys and the model unchanged |
| `ApiKeySetup.SubmitRefusedIffActiveKeyEmpty` | components/ApiKeySetup.tsx:19-26 | submit is refused iff the active provider's key is empty, with that provider's alert |
| `ApiKeySetup.InactiveFieldsIgnored` | components/ApiKeySetup.tsx:19-26 | the inactive provider's key and the model never change whether submit is accepted |
| `ApiKeySetup.SetupForm.constructor` | components/ApiKeySetup.tsx:12-15 | the form starts on Gemini with both keys empty and the first free model selected |
| `ApiKeySetup.SetupForm.SetProvider` | components/ApiKeySetup.tsx:49 | only the provider changes |
| `ApiKeySetup.SetupForm.SetGeminiApiKey` | components/ApiKeySetup.tsx:79 | only the Gemini key changes |
| `ApiKeySetup.SetupForm.SetOpenRouterApiKey` | components/ApiKeySetup.tsx:94 | only the OpenRouter key changes |
| `ApiKeySetup.SetupForm.SetOpenRouterModel` | components/ApiKeySetup.tsx:104 | only the model changes |
| `ApiKeySetup.SetupForm.HandleSubmit` | components/ApiKeySetup.tsx:17-33 | the outcome is the submit decision on the form's current fields; `onConfigured` is called once or not at all |
| `Catalog.CatalogQuestions` | constants.ts:11-131 | the shipped catalog flattens to its four questions in order |
| `Catalog.PlaceholderLineGradesCorrect` | constants.ts:124 | the shipped placeholder's first line names the Transport Layer, so any answer that keeps that line is graded correct whatever follows it, a wrong layer included |
| `Catalog.CatalogIdsUnique` | constants.ts:11-131 | no two shipped questions share an id |
| `Catalog.CatalogAnswerKeysOffered` | constants.ts:11-131 | every shipped MCQ's `correctOptionId` is one of its option ids |
| `Catalog.CatalogReviewListsOnce` | constants.ts:11-131 | for the shipped catalog each question to review is listed exactly once |
| `AppWiring.AcceptedConfigReachesProvider` | services/aiService.ts:70-85 | a configuration accepted at setup never takes the invalid-provider path; with Gemini a request is made and resolves; with OpenRouter a request is made iff a model is set |
| `AppWiring.PreselectedModelPassesGuard` | components/ApiKeySetup.tsx:15 | the preselected model is non-empty, so it passes the gateway's model check |

## Left out

- Browser storage, JSON parsing and the `useLocalStorage` hook. The stored configuration is an input, `None` for a missing or empty item. A stored value that does not parse as JSON is not modelled. Progress persistence and its serialize/parse round trip are not modelled; the store starts empty.
- The Gemini SDK call, `fetch` and `response.json()`. Their results are inputs. HTTP headers (the `Bearer` prefix, content type, referer, title) are not modelled; the request records only the key.
- An OpenRouter success body whose `content` is missing or not a string is not modelled. An envelope so malformed that reading it throws is covered by the thrown-value input.
- `console.error` logging, `alert` (the alert text is the `Alerted` outcome), JSX, styling, and React state and effect mechanics.
- Components/Chatbot.tsx, which only calls the gateway, is not part of this model.
- LessonView's markdown-to-HTML rendering (App.tsx:118-129). The lessons' markdown bodies are not reproduced in the catalog fixture (see `Catalog.CatalogQuestions` below).
- The `Math.random()` pick of the random-question button (App.tsx:52). The lookup is modelled for every catalog question instead.
- The active lesson/lab lookups and view switch of `App` (App.tsx:279-295).
- The Check Answer button is disabled while the answer is empty (App.tsx:199). That is a UI guard; `CheckAnswer` is modelled for every state, with a missing answer graded false.
- Catalog.CatalogQuestions: the lessons' markdown bodies (constants.ts:16-45, 85-101) are empty strings in the fixture; every other field of the catalog is as shipped. No modelled operation reads a lesson body.
- SmartPractice.NeedsReview: App.tsx indexes plain objects, so an id that names an `Object.prototype` property (such as "constructor") finds an inherited value with no entry. The model assumes question ids are not such names. With that id the source puts a never-attempted question in the review set; the model does not.
- SmartPractice.ReviewMembership: rests on `NeedsReview`, with the same assumption about question ids.
- LabView.LabSession.CheckAnswer: with the same kind of id and no typed answer, the source throws a `TypeError` at App.tsx:158 before writing feedback or progress. The model records `false`.
- Gateway.CallGemini: the SDK's `response.text` can be `undefined`, and then the promise resolves to `undefined`. The model's `GeminiText` always carries a string.
- Progress.Recorded: `attempts` is a JavaScript number, so `+ 1` stops increasing it beyond 2^53. The model's `nat` always grows.
- LabView.IsCorrect: for a CODE question with no answer the source yields `undefined`, not `false`. Every later use (feedback, progress, review set, counter) treats it as false, so the model uses false. For an id that names an `Object.prototype` property the source throws instead (see `LabView.LabSession.CheckAnswer` above).
- Strings.ToLower: lower-cases ASCII letters only. JavaScript's `toLowerCase` also maps other Unicode letters, which is not modelled.
