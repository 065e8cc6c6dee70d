# INOVIX trade-fair app — a Dafny model of its logic

The app is a React Native front end for a company booth at a trade fair, plus a FastAPI
back end that stores visitor ratings and quiz scores in MongoDB. Most of it is UI. This project
models the parts that hold behaviour that can be stated, and proves that behaviour:

- **Timed quiz arena** (`QuizArena`, `frontend/app/quiz-arena.tsx`). A six-screen session: start,
  quiz, feedback, results, name input, leaderboard. It has a 15-second timer per question, a
  running correct-count, an append-only list of answer times, and automatic advance after
  feedback. At the end it predicts whether the player would be in the top 3. It also builds the
  score submission.
- **Untimed quiz** (`Quiz`, `frontend/app/quiz.tsx`). A question cursor, answers set at one
  position, the score and percentage, a finish guard, the submit/restart cycle and feedback bands.
- **Catalog pager** (`Catalog`, `frontend/app/catalog.tsx`). A page cursor in 1..12 and the
  end-of-catalog message.
- **Welcome countdown** (`Countdown`, `frontend/app/index.tsx`). Splits the remaining milliseconds
  into days, hours, minutes and seconds. Also covers the sticky "fair ended" flag, the progress bar
  and the two-digit display.
- **Rating form** (`Rate`, `frontend/app/rate.tsx`). Star selection, the submit guard, reset on
  success, and the form kept unchanged on failure. Also photo pick and removal.
- **FAQ accordion** (`Faq`, `frontend/app/faq.tsx`). At most one item open, the fixed list of four
  items, and the contact box.
- **Translations** (`Translations`, `frontend/contexts/LanguageContext.tsx`). The Czech and
  English tables, lookup with fallback to the key, the current-language cell, and the provider guard.
- **Back end** (`Server`, `backend/server.py`). The two Mongo collections become sequences in a
  `Store` class. Modelled: rating validation and defaulting, listings newest first, star
  statistics, the quiz percentile computed after insert, delete-one and delete-all with their
  error replies, quiz statistics, and catalog image numbering.

Screens whose handlers update state cells are classes whose fields mirror that state. Each handler
is a method whose `ensures` ties the new `State()` to a pure step function of the old state. The
step functions carry the screen's promises, and lemmas prove invariants over them (`StepsKeepValid`).
Handlers that `await` in the middle (`handleSubmit`, `handleFinish`) are split into a Begin step and
a Complete step, so the `submitting` flag is visible while the request is in flight. The wall clock
(`Date.now`), network outcomes, fetched leaderboards, the catalog directory listing and the
validity of a Mongo id string are parameters.

The two question banks are long literals. The session logic refers to a question count and an
answer key (the banks' correct-index column) instead, and one lemma per bank proves both equal to
the bank's own. The screens' alert texts are kept as translation keys or verbatim server text;
`Rate.Shown` resolves them in a language.

Helper modules: `Wrappers` (Option and Result), `Sorting` (insertion sort under a total preorder,
standing in for Mongo's `sort` and Python's `sorted`), and `Text` (JavaScript `trim` over ECMAScript's white space and line terminators, decimal
rendering, `padStart`, string order) and `RealArith` (cancelling a positive factor).

## Model

| member | source | states |
|---|---|---|
| Translations.Translate | frontend/contexts/LanguageContext.tsx:137-139 | a key missing from the table comes back unchanged; otherwise the result is the key or the table's entry; a non-empty key never yields "" |
| Translations.TranslateFound | frontend/contexts/LanguageContext.tsx:137-139 | a key present in the current table yields exactly its entry, since no entry is empty |
| Translations.UntranslatedKeysEchoed | frontend/contexts/LanguageContext.tsx:11-129 | the keys the modelled screens look up but neither table defines ("language" in the FAQ contact box; "excellent", "goodJob", "tryAgain" in the quiz feedback) are returned as themselves |
| Translations.TablesHaveSameKeys | frontend/contexts/LanguageContext.tsx:11-129 | the cs and en tables have identical key sets |
| Translations.TablesHaveNoEmptyEntry | frontend/contexts/LanguageContext.tsx:11-129 | no entry in either table is the empty string, so the `\|\| key` fallback fires only for missing keys |
| Translations.TablesLackUntranslated | frontend/contexts/LanguageContext.tsx:11-129 | none of the untranslated keys is in either table |
| Translations.LanguageProvider.constructor | frontend/contexts/LanguageContext.tsx:134-135 | the default language is cs |
| Translations.LanguageProvider.SetLanguage | frontend/contexts/LanguageContext.tsx:135-142 | afterwards the language cell holds the chosen language |
| Translations.LanguageProvider.T | frontend/contexts/LanguageContext.tsx:137-139 | reads the current language's table: its entry when present, the key otherwise |
| Translations.UseLanguage | frontend/contexts/LanguageContext.tsx:148-153 | fails exactly when there is no provider; otherwise returns the provider's context |
| Faq.FaqItems | frontend/app/faq.tsx:21-26 | exactly four items, item i showing the lookups of faqQi and faqAi in the current table |
| Faq.ListedItemsShowEntries | frontend/app/faq.tsx:21-26 | in a table with no empty entry that holds the listed keys, item i shows exactly the entries of faqQi and faqAi |
| Faq.ListedKeysTranslated | frontend/app/faq.tsx:21-26 | both tables hold all eight listed keys |
| Faq.FifthQuestionNeverListed | frontend/app/faq.tsx:21-26 | faqQ5/faqA5 exist in both tables but are not among the listed keys |
| Faq.ContactBoxAlwaysEnglish | frontend/app/faq.tsx:89-92 | `t('language')` is "language", never "cs", so the contact box always shows the English title |
| Faq.Toggle | frontend/app/faq.tsx:28-30 | collapses exactly when the pressed item is the open one; otherwise opens only that item |
| Faq.ToggleOpensOnlyTarget | frontend/app/faq.tsx:28-30 | after a toggle, item j is open iff j is the pressed index and it was not open before |
| Faq.ToggleTwice | frontend/app/faq.tsx:28-30 | pressing the same item twice restores the state when nothing else was open |
| Faq.FaqScreen.ToggleExpand | frontend/app/faq.tsx:19-30 | the open index becomes Toggle of the old one and stays null or below 4 |
| Faq.FaqScreen.IsExpanded | frontend/app/faq.tsx:62-68 | when item i shows as expanded, no other item does |
| Catalog.NextPage | frontend/app/catalog.tsx:25-35 | below the last page moves one page on; on the last page changes nothing; the end message turns on exactly when Next lands on page 12 |
| Catalog.PreviousPage | frontend/app/catalog.tsx:37-43 | above page 1 moves one page back and clears the end message; on page 1 changes nothing |
| Catalog.DismissEndMessage | frontend/app/catalog.tsx:114-123 | clears the end message and keeps the page |
| Catalog.OperationsKeepReachable | frontend/app/catalog.tsx:20-43 | the start (page 1, no message) and every operation keep the page in 1..12, with the message on only at page 12 |
| Catalog.NextThenPrevious | frontend/app/catalog.tsx:25-43 | from any page below 12, Next then Previous returns to that page with the message off |
| Catalog.PreviousThenNext | frontend/app/catalog.tsx:25-43 | from any page above 1, Previous then Next returns to that page, with the message on iff it is page 12 |
| Catalog.DisabledButtonsAreNoOps | frontend/app/catalog.tsx:81-96 | Previous is a no-op exactly on page 1 and Next exactly on page 12 |
| Catalog.PagingFromStart | frontend/app/catalog.tsx:20-35 | k presses of Next from the start reach page 1+k, capped at 12, with the message on exactly at 12 |
| Catalog.CatalogScreen.GoToNextPage | frontend/app/catalog.tsx:25-35 | the screen's state becomes NextPage of the old state |
| Catalog.CatalogScreen.GoToPreviousPage | frontend/app/catalog.tsx:37-43 | the screen's state becomes PreviousPage of the old state |
| Catalog.CatalogScreen.CloseEndMessage | frontend/app/catalog.tsx:114-123 | the screen's state becomes DismissEndMessage of the old state |
| Countdown.TimeLeftOf | frontend/app/index.tsx:32-47 | all parts are zero when the difference is not positive; days ≥ 0, hours < 24, minutes and seconds < 60 |
| Countdown.TimeLeftRecomposes | frontend/app/index.tsx:37-43 | days·86400 + hours·3600 + minutes·60 + seconds equals the whole seconds remaining |
| Countdown.RealTimeLeftAgrees | frontend/app/index.tsx:38-43 | the floating-point expressions as written (floor of quotients and `%` on them, on exact reals) give the same parts as integer division |
| Countdown.ProgressPercentage | frontend/app/index.tsx:75-85 | 0 before the start, 100 after the end, otherwise elapsed/total·100; always in [0,100] |
| Countdown.ProgressMonotone | frontend/app/index.tsx:75-85 | the progress bar never moves backwards as time advances |
| Countdown.Tick | frontend/app/index.tsx:49-56 | the interval stores the clock and TimeLeftOf(end − now); fair-ended holds iff it held before or now ≥ end |
| Countdown.WelcomeScreen.constructor | frontend/app/index.tsx:28-47 | the screen starts with the mount time, the time left to the end and the ended flag set iff the fair is already over |
| Countdown.WelcomeScreen.IntervalTick | frontend/app/index.tsx:49-56 | the callback updates the three hooks in place to Tick of the old state; a set ended flag stays set |
| Countdown.FairEndedIsSticky | frontend/app/index.tsx:30-46 | once set, no sequence of later ticks clears the fair-ended flag |
| Countdown.BannerAfterEnd | frontend/app/index.tsx:110-114 | with the intended rendering, a tick at or after the end shows the banner |
| Countdown.CountdownDigits | frontend/app/index.tsx:116-134 | before the end the header shows the days in decimal and hours, minutes, seconds as exactly two digits that read back as the remaining time |
| Countdown.BannerNeverRendersAsWritten | frontend/app/index.tsx:28-47 | as written, a render at the end time throws where the intended rendering shows the banner |
| Text.TwoDigitsShape | frontend/app/index.tsx:122-132 | `padStart(2,'0')` of a value below 100 is two digits with a leading zero iff the value is below 10, and reads back as the value |
| Text.DecimalRoundTrip | frontend/app/index.tsx:117 | the decimal rendering of n is all digits and reads back as n |
| Text.TrimEmptyIffBlank | frontend/app/quiz-arena.tsx:423 | a trimmed name is empty iff every character is whitespace |
| Text.TrimIdempotent | frontend/app/quiz-arena.tsx:437-441 | trimming twice is trimming once |
| QuizArena.BankWellFormed | frontend/app/quiz-arena.tsx:32-209 | the bank has 16 questions, each with 4 options in both languages and a correct index in 0..3 |
| QuizArena.AnswerKeyMatchesBank | frontend/app/quiz-arena.tsx:32-209 | the question count is the bank's length and the answer key is the bank's correct-index column |
| QuizArena.Questions | frontend/app/quiz-arena.tsx:243-247 | the shown questions keep the bank's length and correct indices and take the text of the chosen language |
| QuizArena.ShownQuestionsWellFormed | frontend/app/quiz-arena.tsx:243-247 | every shown question has 4 options and a correct index in 0..3 |
| QuizArena.InitialValid | frontend/app/quiz-arena.tsx:224-236 | the initial state satisfies the session invariant |
| QuizArena.StartQuiz | frontend/app/quiz-arena.tsx:307-349 | screen quiz, question 0, no correct answers, 15 seconds, no answer times, timer start at now |
| QuizArena.Answer | frontend/app/quiz-arena.tsx:351-364 | appends exactly one duration (now − start)/1000 to the times; the answer is correct iff the index equals the question's correct index, and only then does the count rise by one; the screen becomes feedback |
| QuizArena.SkipNeverScores | frontend/app/quiz-arena.tsx:300-302 | answering -1 (skip or timeout) is never correct and leaves the count unchanged |
| QuizArena.Tick | frontend/app/quiz-arena.tsx:294-304 | off the quiz screen nothing changes; with time left it decrements by exactly 1; at 0 the question is answered with -1 |
| QuizArena.UnansweredQuestionTimesOut | frontend/app/quiz-arena.tsx:294-304 | timeLeft+1 ticks on an unanswered question answer it with -1 and add nothing to the count |
| QuizArena.AverageAnswerTime | frontend/app/quiz-arena.tsx:468-470 | 0 for no times, otherwise the mean (average × count = sum) |
| QuizArena.MeanBounds | frontend/app/quiz-arena.tsx:468-470 | the mean of times in [lo,hi] lies in [lo,hi] |
| QuizArena.SuccessRate | frontend/app/quiz-arena.tsx:472 | in [0,100]; 100 iff every question was answered correctly; 0 iff none was |
| QuizArena.TimerBarPercent | frontend/app/quiz-arena.tsx:535 | in [0,100]; 0 iff the full 15 seconds remain; 100 iff none remain |
| QuizArena.TimerBarGrows | frontend/app/quiz-arena.tsx:535 | each second that passes widens the timer bar |
| QuizArena.PredictionMeansTopThree | frontend/app/quiz-arena.tsx:404-416 | on a board ranked by correct answers then time, the prediction holds iff fewer than 3 entries are not beaten by the player |
| QuizArena.ShowResults | frontend/app/quiz-arena.tsx:392-416 | screen results; the top-3 flag is set when a fetched board has fewer than 3 entries or the player beats third place, and is never cleared; score and times are kept |
| QuizArena.Advance | frontend/app/quiz-arena.tsx:379-389 | before the last question moves to the next one with 15 seconds and no selection; on the last question shows the results from the current count and times |
| QuizArena.ContinueToNameInput | frontend/app/quiz-arena.tsx:663 | only the screen changes, to name input |
| QuizArena.ShowLeaderboard | frontend/app/quiz-arena.tsx:457-466 | screen leaderboard, with the fetched board when the fetch succeeded and the old board otherwise |
| QuizArena.SubmissionFor | frontend/app/quiz-arena.tsx:422-442 | nothing is sent iff the trimmed name is blank; otherwise the trimmed name and handle, the count, total 16 and the same average time the results screen shows |
| QuizArena.AfterSubmit | frontend/app/quiz-arena.tsx:422-455 | the state changes only for a non-blank name and an OK reply, and then shows the leaderboard |
| QuizArena.StepsKeepValid | frontend/app/quiz-arena.tsx:294-449 | every step keeps the invariant: question index below 16, answer times one per answered question, count at most the times |
| QuizArena.FinishedSessionHasAllTimes | frontend/app/quiz-arena.tsx:379-393 | on the results and name-input screens there is one answer time per bank question and no more correct answers than questions |
| QuizArena.AsWrittenAgreesBeforeLastQuestion | frontend/app/quiz-arena.tsx:351-389 | before the last question the flow as written equals answer then advance |
| QuizArena.StalePredictionMissesTopThree | frontend/app/quiz-arena.tsx:379-416 | one input where the flow as written predicts no top 3 but answer then advance predicts top 3 |
| QuizArena.ArenaScreen.constructor | frontend/app/quiz-arena.tsx:224-236 | the fields start at the initial state |
| QuizArena.ArenaScreen.HandleStart | frontend/app/quiz-arena.tsx:343-349 | the new state is StartQuiz of the old one and keeps the invariant |
| QuizArena.ArenaScreen.HandleAnswer | frontend/app/quiz-arena.tsx:351-364 | the new state is Answer of the old one and keeps the invariant |
| QuizArena.ArenaScreen.TimerEffect | frontend/app/quiz-arena.tsx:294-304 | the new state is Tick of the old one and keeps the invariant |
| QuizArena.ArenaScreen.AdvanceAfterFeedback | frontend/app/quiz-arena.tsx:379-389 | the new state is Advance of the old one and keeps the invariant |
| QuizArena.ArenaScreen.Continue | frontend/app/quiz-arena.tsx:663 | the new state is ContinueToNameInput of the old one |
| QuizArena.ArenaScreen.OpenLeaderboard | frontend/app/quiz-arena.tsx:519-523 | the new state is ShowLeaderboard of the old one |
| QuizArena.ArenaScreen.HandleSubmitName | frontend/app/quiz-arena.tsx:422-455 | returns the payload SubmissionFor, and the new state is AfterSubmit of the old one |
| Quiz.QuizBankWellFormed | frontend/app/quiz.tsx:20-131 | ten questions, each with 4 options and a correct index in 0..3 |
| Quiz.QuizAnswerKeyMatchesBank | frontend/app/quiz.tsx:20-131 | the quiz length is the bank's length and the answer key is the bank's correct-index column |
| Quiz.SetAt | frontend/app/quiz.tsx:144-148 | sets position i, keeps every other existing position, and fills new positions below i with holes |
| Quiz.SelectAnswer | frontend/app/quiz.tsx:144-148 | only the answers change, and they become SetAt at the current question |
| Quiz.SelectChangesOnlyCurrent | frontend/app/quiz.tsx:144-148 | after selecting, the current question is answered with the choice and every other answer is unchanged |
| Quiz.Next | frontend/app/quiz.tsx:150-154 | moves one question on only below the last question; answers untouched |
| Quiz.Previous | frontend/app/quiz.tsx:156-160 | moves one question back only above the first; answers untouched |
| Quiz.CountCorrect | frontend/app/quiz.tsx:162-170 | the count of answers equal to the correct index is at most the number of answers |
| Quiz.CountAllCorrect | frontend/app/quiz.tsx:162-170 | the count equals the number of answers iff every answer is correct |
| Quiz.Percentage | frontend/app/quiz.tsx:171-172 | `Math.round(correct/10·100)` equals 10·correct and lies in 0..100 |
| Quiz.PercentageExtremes | frontend/app/quiz.tsx:162-173 | a full answer sheet scores 100 iff every answer is correct |
| Quiz.BeginFinish | frontend/app/quiz.tsx:175-190 | sets submitting; the body carries the correct count, 10 questions and score 10·correct |
| Quiz.CompleteFinish | frontend/app/quiz.tsx:191-201 | always ends with submitting off and results shown; the percentile changes only on an OK reply |
| Quiz.Restart | frontend/app/quiz.tsx:203-209 | cursor 0, no answers, results and correct answers hidden, percentile 0 |
| Quiz.RestartIsInitial | frontend/app/quiz.tsx:203-209 | from the results screen, restart restores exactly the initial state |
| Quiz.ToggleCorrectAnswers | frontend/app/quiz.tsx:244 | flips only the show-correct-answers flag |
| Quiz.StepsKeepValid | frontend/app/quiz.tsx:144-209 | every enabled step keeps the invariant: cursor in 0..9, every question before the cursor answered, no holes, every answer one of four options, results never shown while submitting |
| Quiz.FinishMeansAllAnswered | frontend/app/quiz.tsx:335-349 | the Finish button, shown only on the last question, is enabled only when all ten questions have an answer |
| Quiz.FeedbackKey | frontend/app/quiz.tsx:211-215 | "excellent" iff ≥ 80, "goodJob" iff in [60,80), "tryAgain" iff < 60 |
| Quiz.FeedbackShowsBareKey | frontend/app/quiz.tsx:211-215 | the feedback keys are not in the tables, so the screen shows the bare key |
| Quiz.FeedbackBandsOrdered | frontend/app/quiz.tsx:211-215 | a higher percentage never gets a lower band |
| Quiz.QuizScreen.HandleSelectAnswer | frontend/app/quiz.tsx:144-148 | the new state is SelectAnswer of the old one and keeps the invariant |
| Quiz.QuizScreen.HandleNext | frontend/app/quiz.tsx:150-154 | the new state is Next of the old one and keeps the invariant |
| Quiz.QuizScreen.HandlePrevious | frontend/app/quiz.tsx:156-160 | the new state is Previous of the old one and keeps the invariant |
| Quiz.QuizScreen.CalculateScore | frontend/app/quiz.tsx:162-173 | the loop's count is CountCorrect of the answers and the percentage is Percentage of it |
| Quiz.QuizScreen.BeginHandleFinish | frontend/app/quiz.tsx:175-190 | the new state and the body are BeginFinish of the old state |
| Quiz.QuizScreen.CompleteHandleFinish | frontend/app/quiz.tsx:191-201 | the new state is CompleteFinish of the old one and keeps the invariant |
| Quiz.QuizScreen.HandleRestart | frontend/app/quiz.tsx:203-209 | the new state is the initial state |
| Quiz.QuizScreen.ToggleAnswers | frontend/app/quiz.tsx:244 | the new state is ToggleCorrectAnswers of the old one |
| Rate.PressStar | frontend/app/rate.tsx:156 | the rating becomes the pressed star and nothing else changes |
| Rate.Stars | frontend/app/rate.tsx:153-163 | five stars, star j filled iff j ≤ rating |
| Rate.StarsShowRating | frontend/app/rate.tsx:153-163 | a rating n shows n filled stars followed by 5 − n empty ones |
| Rate.PressedStarFillsUpToIt | frontend/app/rate.tsx:153-163 | after pressing star i, star j is filled iff j ≤ i |
| Rate.BeginSubmit | frontend/app/rate.tsx:81-101 | rating 0 sends nothing, changes no field and raises the alert titled "error" with message "selectStars", both translated; otherwise sets submitting, raises nothing and sends the form's fields |
| Rate.FailureMessage | frontend/app/rate.tsx:115-120 | the message is the server's detail verbatim exactly when the reply carries a non-empty detail; otherwise, or on an exception, it is the translated "ratingError" |
| Rate.CompleteSubmit | frontend/app/rate.tsx:102-123 | submitting always ends off; OK resets rating, comment, photo and company and shows success; otherwise the form is kept and the alert titled "error" shows FailureMessage |
| Rate.FailedSubmitCanBeRetried | frontend/app/rate.tsx:81-123 | after a failed request the form is as before and a new submit sends the same body |
| Rate.SuccessNeedsNewRating | frontend/app/rate.tsx:81-110 | after a successful request the rating is 0, so submitting again only alerts |
| Rate.DismissSuccess | frontend/app/rate.tsx:108-110 | only the success banner is hidden |
| Rate.RemovePhoto | frontend/app/rate.tsx:204 | only the photo changes, to "" |
| Rate.PhotoPicked | frontend/app/rate.tsx:49-79 | a cancelled pick or empty data changes nothing; otherwise the photo becomes the JPEG data URL |
| Rate.PickThenRemove | frontend/app/rate.tsx:49-79 | picking then removing a photo restores the form |
| Rate.StepsKeepValid | frontend/app/rate.tsx:81-123 | every step keeps the rating in 0..5 |
| Rate.PostedRatingPassesValidation | frontend/app/rate.tsx:81-99 | every posted rating passes the server's 1..5 star check |
| Rate.RateScreen.SetRating | frontend/app/rate.tsx:156 | the new state is PressStar of the old one |
| Rate.RateScreen.BeginHandleSubmit | frontend/app/rate.tsx:81-101 | the new state, body and alert are BeginSubmit of the old state |
| Rate.RateScreen.CompleteHandleSubmit | frontend/app/rate.tsx:102-123 | the new state and alert are CompleteSubmit of the old state |
| Rate.RateScreen.HideSuccess | frontend/app/rate.tsx:108-110 | the new state is DismissSuccess of the old one |
| Rate.RateScreen.HandleRemovePhoto | frontend/app/rate.tsx:204 | the new state is RemovePhoto of the old one |
| Rate.RateScreen.HandlePickerResult | frontend/app/rate.tsx:49-79 | the new state is PhotoPicked of the old one |
| Server.NewRatingDoc | backend/server.py:70-77 | the stored comment, photo and company are each present and equal to the request's value, or "" when missing; id, stars and timestamp are the given ones |
| Server.SubmittedRatingReadsBack | backend/server.py:73-106 | a stored rating is listed with the submitted stars and texts, "" for the missing ones |
| Server.DeleteOne | backend/server.py:151 | with no matching document nothing changes; otherwise exactly the first match is removed |
| Server.DeleteOneKeepsOthers | backend/server.py:151 | deleting one document keeps every other document in order |
| Server.DeletedRatingIsGone | backend/server.py:148-156 | with unique ids, the deleted rating's id no longer occurs |
| Server.DeletedScoreIsGone | backend/server.py:246-254 | with unique ids, the deleted score's id no longer occurs |
| Server.NewerIsTotalPreorder | backend/server.py:95 | newest-first order on timestamps is a total preorder |
| Server.RatingsListing | backend/server.py:93-109 | newest first, and a reordering of the stored ratings' views: each stored rating listed exactly as often as it is stored, and nothing else |
| Server.ScoreViewOf | backend/server.py:231-240 | a missing total defaults to 10 and a missing correct count to 0 |
| Server.ScoresListing | backend/server.py:227-243 | newest first, and a reordering of the stored scores' views: each stored score listed exactly as often as it is stored, and nothing else |
| Server.CountStars | backend/server.py:188-190 | a star bucket counts at most all ratings |
| Server.BucketsSumToTotal | backend/server.py:187-193 | with stars validated to 1..5, the five buckets sum to the total |
| Server.AverageStarsInRange | backend/server.py:180-185 | with stars in 1..5, the average lies in [1,5] |
| Server.PercentileAfterInsertBelowHundred | backend/server.py:211-216 | counted after the insert, the percentile lies in [0,100) |
| Server.MaxScore | backend/server.py:279-285 | the highest score bounds every score and is attained |
| Server.QuizStats | backend/server.py:266-290 | an empty store gives all zeros; otherwise the count, the mean and the maximum |
| Server.AverageAtMostHighest | backend/server.py:279-290 | the average score never exceeds the highest |
| Server.PngNames | backend/server.py:128 | keeps exactly the names that end in ".png" and do not start with a dot (glob skips hidden files), each no more often than listed |
| Server.CatalogImages | backend/server.py:120-143 | no directory gives an empty list and total 0; otherwise the png files in name order, numbered 1..n, with url "/static/catalog/"+name and total n |
| Server.CatalogListsExactlyThePngs | backend/server.py:124-143 | a name is listed iff it is a png in the directory |
| Server.Store.constructor | backend/server.py:30-37 | both collections start empty |
| Server.Store.SubmitRating | backend/server.py:64-90 | stars outside 1..5 get 400 and nothing is inserted; otherwise the defaulted document is appended and its id returned |
| Server.Store.RatingStats | backend/server.py:168-196 | the loop over 1..5 fills bucket i with the count of ratings with i stars; total is the store's size; average 0 when empty, else sum/total |
| Server.Store.DeleteRating | backend/server.py:148-156 | a malformed id gets 500 and nothing changes; a missing id removes nothing and gets 500 with the caught 404's text; a present id removes that rating |
| Server.Store.DeleteAllRatings | backend/server.py:159-165 | empties the ratings and reports how many were removed |
| Server.Store.SubmitQuizScore | backend/server.py:201-224 | appends the score, then returns the share of stored scores strictly lower, in [0,100) |
| Server.Store.DeleteQuizScore | backend/server.py:246-254 | a malformed id gets 500 and nothing changes; a missing id removes nothing and gets 500 with the caught 404's text; a present id removes that score |
| Server.Store.DeleteAllQuizScores | backend/server.py:257-263 | empties the scores and reports how many were removed |

## Left out

- Animations, styling, icons, the decorative components, navigation (`router.back`, the layout) and the admin screens: they are presentation only.
- Network, JSON, FastAPI routing, CORS and the Mongo driver. Replies and fetched data are parameters, and the collections are sequences. Driver failures that would surface as other 500 replies are not modelled.
- The wall clock. `Date.now`/`new Date` and `datetime.utcnow` are parameters; timestamps are whole milliseconds, not ISO strings. Mongo's order among equal timestamps is not fixed by the model.
- Floating point. Averages, the percentile, the timer bar and the progress bar use exact reals. `toFixed`, Python `round(…, 1/2)` and `Math.floor` on floats are not modelled. `Countdown.RealTimeLeftAgrees` relates the written float expressions to integer division on exact reals only.
- QuizArena.ShowResults: applies the stats and leaderboard fetches in one step. The `stats` comparison lines (`median_time`, `average_success_rate`) and the alerts of the arena screen are not modelled.
- QuizArena: `isTopThree` is never reset, as written. The start screen says 15 questions while the bank holds 16; the model takes the length from the bank.
- The quiz-arena submit and leaderboard endpoints are not part of `backend/server.py`; only their client side is modelled.
- Text fields (name, Instagram, comment, company) are not modelled as setters; their values are parameters of the steps that read them.
- The health endpoint and `serve_catalog_image`: they serve no state this model holds.
- Server.Store.DeleteRating, Server.Store.DeleteQuizScore: the 500 detail for a malformed id includes the `bson` library's `InvalidId` text, which is outside the repository; the model uses a fixed stand-in.
- Server.CatalogImages: `glob` would also list a directory whose name ends in ".png"; the listing is taken as plain file names.
- Rate: the camera and gallery permission requests and the picker itself; the picker's result is a parameter.
- Translations.UseLanguage: a thrown error is modelled as a `Failure` result.
- Translations.Translate, Translations.LanguageProvider.T: the tables are plain JavaScript objects, so a key naming an `Object.prototype` member ("toString", "constructor", "valueOf", "hasOwnProperty", "__proto__" and the like) yields that inherited member rather than the key; the model treats the tables as maps with only their own entries, and no modelled screen asks for such a key.

## Findings

| source | as written | input that shows it | evidently intended | confidence | as-written member | corrected member |
|---|---|---|---|---|---|---|
| frontend/app/index.tsx:28-47 | `useState(calculateTimeLeft())` on line 29 runs during every render, before line 30 binds `setFairEnded`; once the fair is over, `calculateTimeLeft` calls it and the render throws | a render at or after 2025-12-04T12:30:00Z | the "fair ended" banner (lines 110-113) shows | not executed | Countdown.RenderAsWritten (Countdown.BannerNeverRendersAsWritten) | Countdown.Render (Countdown.BannerAfterEnd) |
| frontend/app/quiz-arena.tsx:379-416 | the 2-second timeout created by `handleAnswer` calls the `showResults` of that render, which reads `correctAnswers` and `answerTimes` from before the last answer | 15 of 15 answered correctly at 2.0 s each, last answer correct, third place at 15 correct and 1.0 s: predicts no top 3 | the prediction counts the last answer: 16 correct beats third place | not executed | QuizArena.AnswerAndAdvanceAsWritten (QuizArena.StalePredictionMissesTopThree) | QuizArena.Advance (QuizArena.PredictionMeansTopThree) |
