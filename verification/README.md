# Quiz simulator: session state machine, attempt store and history view

This project models the two pieces of logic in the Next.js quiz application:

- **The quiz page** (`my-app/src/app/page.tsx`). It holds a player name, a started flag,
  the current question index, a score, a 30-second countdown, a results flag and a free-form
  answer buffer, over a fixed list of ten questions (five multiple-choice, five integer).
  Its handlers are start, multiple-choice answer, integer answer, next question, the
  one-second timer tick and "Try Again". When the last question is answered, the page saves
  one attempt record to the on-device IndexedDB database `quizDB`.
- **The history page** (`my-app/src/app/history/page.tsx`). It reads every stored attempt,
  sorts them newest first and renders one row per attempt. Each row is coloured green,
  yellow or red by the percentage score. The results screen of the quiz page uses the same
  80/60 thresholds.

Modules:

- `Wrappers`: `Option`.
- `JsText`: `String.prototype.trim` and `parseInt` with ECMAScript semantics.
- `Questions`: the question types and the sample set.
- `AttemptStore`: the database as a value. It has a created flag, an `attempts`-store flag,
  the records and the key generator's next key. It also has the opens, add, read and save
  the pages perform, and replays of save and read events.
- `QuizSession`: the quiz page as a class `Session`, whose methods are the handlers.
- `Performance`: percentages and tiers.
- `History`: the in-place sort, the `HistoryPage` class and the rendered listing.

The session's `Valid()` invariant states these bounds:

- the index is always in `0..|questions|-1`;
- the score never exceeds the number of questions already left behind (plus the last one
  once results are shown), so any saved score lies in `0..|questions|`;
- the countdown stays in `1..30`;
- the start screen always has index 0 and score 0;
- a run has called `saveAttempt` exactly once if it has finished and never otherwise;
- the database is in any state either page can leave it in. That includes a `quizDB` that
  exists without its `attempts` store, on which the quiz still runs and every save fails.

In these places the model follows the code as written, where a reader might expect otherwise:

- A time-out on the last question does not end the session. `handleNextQuestion` does nothing
  on the last index, and the tick sets the countdown back to 30. So a run with no answers
  never finishes (`QuizSession.IdleRun`).
- `handleStartQuiz` only sets `started` and the countdown. It does not reset the index, the
  score or the buffer; the start screen is only reachable with the index and score already
  at 0.
- "Try Again" resets `started`, the index, the score and the results flag. It leaves the
  countdown, the name and the buffer as they are.
- A multiple-choice answer comes from one of the rendered option buttons, so its index
  is always one of the question's options.
- An empty integer buffer disables the Submit button, so submitting does nothing. A
  non-empty buffer that `parseInt` cannot read (`NaN`) is scored wrong. `parseInt` stops at
  the first character that cannot continue the number, so `"40.7"` counts as 40.

## Model

| member | source | states |
|---|---|---|
| `JsText.TrimEmptyIffBlank` | my-app/src/app/page.tsx:291 | `name.trim()` is empty exactly when every character of the name is white space, so Start is disabled exactly for blank names |
| `JsText.TrimIsSlice` | my-app/src/app/page.tsx:291 | the trimmed name is a contiguous slice of the name |
| `JsText.TrimStart` | my-app/src/app/page.tsx:291 | the result is a suffix of the input and starts with a non-blank character (or is empty) |
| `JsText.TrimStartDropsBlanks` | my-app/src/app/page.tsx:291 | every character dropped from the front is white space |
| `JsText.TrimEnd` | my-app/src/app/page.tsx:291 | the result is a prefix of the input and ends with a non-blank character (or is empty) |
| `JsText.TrimEndDropsBlanks` | my-app/src/app/page.tsx:291 | every character dropped from the back is white space |
| `JsText.Trim` | my-app/src/app/page.tsx:291 | `name.trim()` is no longer than the name and neither starts nor ends with white space |
| `JsText.LeadingDigits` | my-app/src/app/page.tsx:169 | `parseInt` reads the longest prefix of digits: every character taken is a digit, and the next one (if any) is not |
| `JsText.ParseInt` | my-app/src/app/page.tsx:169 | `parseInt(buffer)` gives a number only for a buffer that is not all white space; a negative number only after a leading minus, a positive one never after it |
| `JsText.ParseIntOfIntToString` | my-app/src/app/page.tsx:169 | `parseInt` reads back any integer written in decimal, and ignores a tail that cannot continue the number |
| `JsText.ParseIntOfTypedAnswer` | my-app/src/app/page.tsx:169 | the expected number, typed as `String` writes it, is non-empty and parses back to itself |
| `JsText.ParseIntOfBlank` | my-app/src/app/page.tsx:169 | a blank buffer parses to `NaN`, which matches no answer |
| `JsText.ParseIntOfNonNumeric` | my-app/src/app/page.tsx:169 | a buffer whose first non-blank character is neither a sign nor a digit parses to `NaN` |
| `JsText.ParseIntOfLetters` | my-app/src/app/page.tsx:169 | `parseInt("abc")` is `NaN`: scored wrong, no error |
| `Questions.SampleQuestionsWellFormed` | my-app/src/app/page.tsx:36-102 | the sample set has 10 questions with distinct ids and in-range answer keys: five multiple-choice, then five integer |
| `AttemptStore.WithKey` | my-app/src/app/page.tsx:224-229 | the stored record carries the key the store assigned, and dropping the key gives back exactly the attempt the quiz page passed in |
| `AttemptStore.Open` | my-app/src/app/page.tsx:209-221 | opening creates a missing database at version 1, with the `attempts` store only when the upgrade callback is given; an existing database is opened unchanged |
| `AttemptStore.Add` | my-app/src/app/page.tsx:229 | `add` fails exactly when there is no `attempts` store; otherwise it appends one record under the next key and advances the key |
| `AttemptStore.GetAll` | my-app/src/app/history/page.tsx:35 | `getAll` fails exactly when there is no `attempts` store; otherwise it returns every record in strictly increasing key order, every key issued by the generator; a failed read hides no record |
| `AttemptStore.SaveAttempt` | my-app/src/app/page.tsx:207-234 | exactly one record, under the next key, is appended when storage is available and the store exists or is created; otherwise the database is unchanged (the failure is swallowed) |
| `AttemptStore.FetchAll` | my-app/src/app/history/page.tsx:32-44 | the read never changes the stored records; it returns all of them exactly when storage is available and the store exists, and nothing otherwise |
| `AttemptStore.Keyed` | my-app/src/app/page.tsx:212-215 | auto-increment keying gives one record per saved attempt |
| `AttemptStore.KeyedAt` | my-app/src/app/page.tsx:212-215 | the i-th attempt keyed from `k` gets key `k + i` |
| `AttemptStore.ReplayKeepsEverySave` | my-app/src/app/page.tsx:207-234 | with history reads opening the way saves do, every quiz finished while storage was available is stored once, in order, under consecutive keys, and the database stays healthy |
| `AttemptStore.ReplayFromNothing` | my-app/src/app/page.tsx:207-234 | starting from no database, the n-th saved attempt is stored with key n |
| `AttemptStore.StorelessStaysStoreless` | my-app/src/app/history/page.tsx:34 | a database that exists without the `attempts` store never gets the `attempts` store, and nothing is ever stored in it |
| `AttemptStore.HistoryFirstLosesEverySave` | my-app/src/app/history/page.tsx:34 | as written, a first visit to the history page makes every later save fail |
| `AttemptStore.HistoryFirstCounterexample` | my-app/src/app/history/page.tsx:34 | history then one finished quiz: nothing is stored as written; with the upgrade the attempt is stored under key 1 |
| `QuizSession.Session.constructor` | my-app/src/app/page.tsx:105-111 | the initial state over any database either page can leave behind: empty name, not started, question 0, score 0, 30 seconds, no results, empty buffer |
| `QuizSession.Session.EditName` | my-app/src/app/page.tsx:257-264 | typing on the start screen sets the name |
| `QuizSession.Session.Start` | my-app/src/app/page.tsx:129-132 | starts exactly when the trimmed name is non-empty, then on question 0 with score 0 and 30 seconds; otherwise nothing changes |
| `QuizSession.Session.NextQuestion` | my-app/src/app/page.tsx:200-205 | advances by one with a fresh 30 seconds unless on the last question, where nothing changes; the index stays in range |
| `QuizSession.Session.SaveAttempt` | my-app/src/app/page.tsx:207-234 | saves the given score, the question count and the player's name, and counts one save |
| `QuizSession.Session.ConcludeAnswer` | my-app/src/app/page.tsx:138-162 | a right answer adds one point; on the last question results are shown and `saveAttempt` runs once with the new score over the database as it was, which appends one record under the next key exactly when storage is available and the store exists or gets created, and otherwise stores nothing; on any other question the index advances with 30 seconds and nothing is saved |
| `QuizSession.Session.AnswerChoice` | my-app/src/app/page.tsx:134-163 | for the button of one of the options: right exactly when the chosen option is the answer key; then as `ConcludeAnswer` |
| `QuizSession.Session.EditIntegerAnswer` | my-app/src/app/page.tsx:462-468 | typing in the numeric input sets the buffer |
| `QuizSession.Session.SubmitIntegerAnswer` | my-app/src/app/page.tsx:165-196 | an empty buffer changes nothing; otherwise right exactly when `parseInt(buffer)` equals the expected number, then as `ConcludeAnswer` (including the failed save on a database without its store), and the buffer is cleared |
| `QuizSession.Session.Tick` | my-app/src/app/page.tsx:113-123 | above one second the countdown drops by exactly one; otherwise it is reset to 30 and the index advances unless on the last question; score and database never change |
| `QuizSession.Session.TryAgain` | my-app/src/app/page.tsx:349-354 | back to the start screen with question 0, score 0 and no results; the stored history is untouched |
| `QuizSession.AnswerCorrectly` | my-app/src/app/page.tsx:134-196 | answering the current question right (the option key, or the expected number typed in decimal) scores one point; on the last question the save runs with storage available |
| `QuizSession.TypeCorrectAnswer` | my-app/src/app/page.tsx:165-196 | typing the expected number in decimal and submitting it scores one point, then as `ConcludeAnswer` |
| `QuizSession.BeginRun` | my-app/src/app/page.tsx:129-132 | a non-blank name and Start put a fresh page on question 0 with score 0, 30 seconds and the database untouched |
| `QuizSession.AnswerAll` | my-app/src/app/page.tsx:134-234 | all answers right with storage available ends in exactly one `saveAttempt` of the full score over the starting database |
| `QuizSession.PerfectRun` | my-app/src/app/page.tsx:134-234 | all answers right from an empty device stores exactly one attempt: key 1, the player, the last answer's time, full score out of the question count |
| `QuizSession.SamplePerfectRun` | my-app/src/app/page.tsx:36-102 | with the application's ten sample questions a perfect run stores 10 out of 10 under key 1 |
| `QuizSession.PerfectRunAfterHistory` | my-app/src/app/page.tsx:207-234 | after the history page created `quizDB` without its store, even a perfect run with storage available stores nothing |
| `QuizSession.LetTimeRunOut` | my-app/src/app/page.tsx:113-127 | a full countdown with no answer moves to the next question with a fresh 30 seconds (on the last question the countdown restarts); score and database never change |
| `QuizSession.IdleRun` | my-app/src/app/page.tsx:113-127 | with no answers the session reaches the last question and then never finishes, scores nothing and stores nothing, however long the timer runs |
| `Performance.ReachesThreshold` | my-app/src/app/history/page.tsx:82-87 | reaching a threshold percentage is the integer inequality `100 * score >= threshold * total` |
| `Performance.Percentage` | my-app/src/app/history/page.tsx:82 | the percentage times the total is 100 times the score; a score between 0 and the total gives 0 to 100 percent |
| `Performance.TierOf` | my-app/src/app/history/page.tsx:83-87 | green exactly from 80 percent, yellow exactly from 60 up to 80, red exactly below 60 |
| `Performance.AttemptTier` | my-app/src/app/history/page.tsx:82-87 | for a positive total: green iff `100*score >= 80*total`, yellow iff `60*total <= 100*score < 80*total`, red iff `100*score < 60*total`; with no questions green exactly for a positive score (division by zero) |
| `Performance.TierMonotone` | my-app/src/app/history/page.tsx:82-87 | with the total fixed, a higher score never gives a lower tier |
| `Performance.ResultMessageFor` | my-app/src/app/page.tsx:312-318 | "Outstanding" iff `100*score >= 80*count`, "Well done" iff `60*count <= 100*score < 80*count`, "Keep practicing" iff `100*score < 60*count` |
| `Performance.ResultMessageMatchesTier` | my-app/src/app/page.tsx:312-318 | the results headline uses the same three bands as the history colours |
| `Performance.TiersOutOfTen` | my-app/src/app/history/page.tsx:82-87 | out of 10 questions: 8 or more green, 6 or 7 yellow, below 6 red |
| `History.NewestFirstIffNeighbours` | my-app/src/app/history/page.tsx:37-39 | the list is ordered newest first exactly when each neighbouring pair is |
| `History.SwapWithPrevious` | my-app/src/app/history/page.tsx:37-39 | exchanging two neighbours keeps the same multiset of attempts |
| `History.SortNewestFirst` | my-app/src/app/history/page.tsx:37-39 | the array ends up newest first and is a permutation of what it held |
| `History.HistoryPage.constructor` | my-app/src/app/history/page.tsx:26 | the attempts list starts empty |
| `History.HistoryPage.LoadAttempts` | my-app/src/app/history/page.tsx:31-47 | a failed read leaves the list as it was; a successful one shows every stored record, none added or dropped, newest first; the database left behind is the open with or without the upgrade (without it is line 34 as written) |
| `History.VisitHistory` | my-app/src/app/history/page.tsx:25-47 | on mount, the list is empty when storage is unavailable and otherwise a newest-first permutation of the stored records, which are left unchanged; with storage the database left behind is exactly the open the page performs |
| `History.RowFor` | my-app/src/app/history/page.tsx:81-129 | a row shows the attempt's player, date, score and total unchanged, and for a positive total its style is green, yellow or red by the integer form of the 80/60 thresholds |
| `History.Rows` | my-app/src/app/history/page.tsx:81 | one row per attempt, in list order |
| `History.Render` | my-app/src/app/history/page.tsx:69-162 | the empty-state panel exactly when there are no attempts; otherwise a table with one row per attempt, in order |

## Left out

- Rendering, styling, the `Progress`, `Card` and `Button` components, and `Link` navigation are
  presentation only. The history row's `toFixed(1)` text, the name's initial and the date's
  `toLocaleDateString` text are left out too.
- The IndexedDB library (`openDB`, `createObjectStore`, `add`, `getAll`) is modelled as the
  `Database` value. Its two secondary indexes (`playerName`, `date`) are never read, so they
  are not modelled. Whether the browser lets a page use storage is a parameter. Asynchrony and
  the key generator's 2^53 limit are not modelled.
- `setInterval`/`clearInterval`, effect scheduling and React's batching are not modelled. A
  tick is an explicit method that exists only while the question screen is shown. The setter
  calls of one handler are applied in order, which gives the same final state as React's
  batched update.
- `new Date().toISOString()` is a caller-supplied integer timestamp (`now`). History sorts by
  integer dates, so date strings that do not parse are not modelled.
- Floating point is not modelled: percentages are exact reals. At the two thresholds the
  double result of `score / total * 100` agrees with the exact one: the double nearest 0.8,
  times 100, rounds to exactly 80, and the double nearest 0.6, times 100, to exactly 60.
- `parseInt` is modelled with unbounded integers. Above 2^53 JavaScript rounds, which cannot
  make a different number equal to one of the small expected answers. The browser's
  sanitising of a `type="number"` input is not modelled: the buffer may hold any text.
- `console.log` and `console.error` are logging only.
- The session takes its question list as a constructor argument (the application passes
  `sampleQuestions`), so `BeginRun`, `LetTimeRunOut` and `IdleRun` hold for any non-empty
  list, and the perfect-run methods (`AnswerAll`, `PerfectRun`, `PerfectRunAfterHistory`) for
  any non-empty list whose multiple-choice answer keys name one of their options
  (`AnswerKeysInRange`); `SamplePerfectRun` applies them to `sampleQuestions`.
- History.SortNewestFirst: does not state that equal dates keep their order, although
  `Array.prototype.sort` is stable; its contract states newest-first order and permutation only.

## Findings

| source | as written | input that shows it | evidently intended | confidence | as-written member | corrected member |
|---|---|---|---|---|---|---|
| my-app/src/app/history/page.tsx:34 | the history page opens `quizDB` version 1 without the upgrade callback that creates the `attempts` store | on a device with no `quizDB`, open the history page (storage available), then finish a quiz | opening history should not stop later attempts from being saved: it should create the store the same way the quiz page does | high; not executed | `AttemptStore.HistoryFirstCounterexample` | `AttemptStore.ReplayKeepsEverySave` |

When the history page is the first to open the database, it creates `quizDB` at version 1
with no object store, and its `getAll` fails. From then on, the quiz page's
`openDB('quizDB', 1, { upgrade })` finds version 1 already present. The upgrade callback never
runs, so every `add` fails and is swallowed: `AttemptStore.HistoryFirstLosesEverySave`.
At the session level `QuizSession.PerfectRunAfterHistory` shows the same: a perfect run then
stores nothing. `History.HistoryPage.LoadAttempts` and `History.VisitHistory` take the choice of
open as a parameter (`withUpgrade`; false is the page as written). With the upgrade,
`AttemptStore.ReplayKeepsEverySave` proves that every save made with storage available is kept.
