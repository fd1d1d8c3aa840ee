# RHHS Trivia — a verified model of the game engines, the question banks and the results page

RHHS Trivia is a browser trivia game in Arabic. This project models its logic
in Dafny and proves properties of that model. It covers four parts:

- **The two-team game** (`game.js`, module `HeadToHead`). Team A and team B play four
  rounds in a fixed order: countries, football, puzzles, speed. Each question has a
  30-second timer and an input latch that accepts one answer per question. A correct
  answer scores 1 point, or 2 points when given within 10 seconds. The turn then
  passes to the other team. A round without questions left is skipped. After the
  fourth round the results screen names the winner, or announces a draw on a tie. It
  gives each team a rank (rank 0 for both on a tie) and names the best round. The
  saved leaderboard entry names the winner, or both teams joined by " و " on a tie.
  - The page's question editor adds, edits and deletes questions in the per-round
    lists.
  - `LeaderboardManager` (module `Leaderboard`) keeps the ten best saved games,
    sorted by score.
- **The multi-team game** (`js/game.js`, module `TeamQuiz`, with the dealing plan in
  `QuestionAssignment`). Any number of teams is created first. Question `i` is dealt
  to team `i % teams`. The team that owns a question answers it: 10 points for a
  correct answer, a count of questions taken per team, a skip button and a timeout.
  The final standings sort the teams by score, with medals for the first three.
- **The question-bank editor** (`js/question-editor.js`, module `QuestionBank`). It
  filters by difficulty and by a case-insensitive search, counts questions per
  difficulty, and validates the form in a fixed order. It adds, replaces, deletes and
  duplicates entries, and exports the bank without ids and ordering keys.
- **The results page** (`js/admin.js`, module `Admin`). It merges individual quiz
  results and group competition results, tags each with its kind and sorts them
  newest first. It filters them by difficulty and summarises the individual
  percentages: participants, rounded mean, highest and lowest.

`Array.prototype.sort` is stable, so every "sort by key, largest first" in the pages
is modelled by one stable insertion sort (module `Sorting`). Its result is proved
ordered, a permutation of its input, and order-preserving among equal keys. Those
three facts pin down the built-in sort's result. `Seqs` holds the `filter`/sum
vocabulary. `Text` holds `trim`, `toLowerCase` and `includes`.

Page state that the source updates in place is modelled as classes:
`HeadToHead.GameState` (the `gameState` and `editorState` records),
`TeamQuiz.Quiz`, `QuestionBank.Editor`, `Admin.AdminPanel` and
`Leaderboard.LeaderboardManager`. The stateful operations keep the `Valid`
invariants, and the larger ones are proved against a function or predicate on
the state: `Settle`, `SavedList`, `Added`, `Merged`, `SummaryOf` and `Plan`.
The small ones (`StartGame`, `StartTimer`, `ShowEditor` and the like) state
their new fields directly.

Clocks, confirmation dialogs, form fields and database reads and writes are
parameters of the methods. Database writes are modelled as if they succeeded.

## Model

| member | source | states |
|---|---|---|
| HeadToHead.GameState.constructor | game.js:2-29 | The initial state: intro screen, team A to play, countries round, default team names, every score, counter and round entry zero, 30 seconds, no question, editor on countries with an empty form |
| HeadToHead.GameState.StartGame | game.js:100-108 | An empty name field falls back to "الفريق أ" / "الفريق ب"; the instructions screen opens |
| HeadToHead.GameState.ShowInstructions | game.js:110-113 | The game screen opens and the current round starts; it lands where `Settle` says: on a question it is shown on the game screen with the latch open, the start time set to the clock and a fresh 30 s timer running; when nothing is left the results are shown |
| HeadToHead.GameState.StartNewRound | game.js:115-121 | Question 0 of round number `currentRoundIndex` is loaded, with every empty round skipped |
| HeadToHead.GameState.LoadQuestion | game.js:156-189 | Shows the current question with an open latch, start time = clock and a fresh 30 s timer, or moves to the next round when the index is past the round's end; the resulting state is `Landed(Settle(...))` |
| HeadToHead.GameState.NextQuestion | game.js:243-246 | Advances the question index and lands as `Settle` says |
| HeadToHead.GameState.NextRound | game.js:248-255 | The round number grows by one; at 4 the results screen is shown, otherwise the next round starts |
| HeadToHead.SettleCorrect | game.js:156-162 | Loading lands on an existing question of the same or a later round in play order, or shows the results with round number 4; results come exactly when the current round is exhausted and every later round is empty |
| HeadToHead.GameState.StartTimer | game.js:359-362 | 30 seconds on a running timer |
| HeadToHead.GameState.StopTimer | game.js:378-382 | The timer is cleared and the warning class removed |
| HeadToHead.GameState.SelectAnswer | game.js:191-241 | With the latch set only the timer stops. Otherwise the latch closes and one answer and its time are counted. Points are 0 if wrong (or the timeout's -1), 1 if correct, 2 if correct within 10 000 ms. They go to the current round's entry and the team's total, the correct/quick counters follow, and the turn passes. `Valid` is preserved: team total = sum of its round entries, and the points of both teams = correct + quick answers |
| HeadToHead.GameState.AwardPoints | game.js:223-231 | Adds the points to the current round's entry for the team on turn and to that team's total, keeping each total equal to its round sum |
| HeadToHead.RoundSumAdd | game.js:223-231 | Adding points to one round and team raises that team's round sum by exactly those points and leaves the other team's unchanged |
| HeadToHead.GameState.Tick | game.js:363-375 | One second: the time drops by 1 and the warning appears at 5 s or less; at 0 the timer stops and, unless already answered, the question is answered with -1: one more answer, the elapsed time added to the total time and the turn passed. Scores and correct/quick counters never change; a stopped timer never ticks |
| HeadToHead.GameState.ResetGame | game.js:585-597 | Intro screen, team A, round number 0, all scores, counters and round entries zero; `Valid` holds |
| HeadToHead.BestRoundIsFirstMaximum | game.js:285-289 | The best round has the largest combined total; on equal totals the earliest round in play order wins |
| HeadToHead.FinalOutcome | game.js:332-337 | The saved winner is the team with the strictly higher score, or "A و B" on a tie; the saved score is the larger score |
| HeadToHead.Ranks | game.js:609-621 | Rank 1 exactly for the strictly higher team, ranks {1, 2} when the scores differ, rank 0 for both exactly on a tie |
| HeadToHead.GameState.BackToGame | game.js:396-402 | The results screen if any answer was given, the intro otherwise |
| HeadToHead.GameState.ShowEditor | game.js:391-394 | The editor screen opens on the countries category with an empty form |
| HeadToHead.GameState.ShowEditorCategory | game.js:404-414 | The category is selected and the form cleared |
| HeadToHead.GameState.ClearQuestionForm | game.js:502-509 | Nothing is being edited any more |
| HeadToHead.GameState.LoadQuestionToForm | game.js:429-445 | A question of the current category with that id becomes the one being edited; an unknown id changes nothing |
| HeadToHead.FindIndex | game.js:464-465 | The first position holding the id, or none exactly when no question has it |
| HeadToHead.SavedList | game.js:462-474 | An edit keeps the length, every id and every icon and rewrites text, options and answer of the first question with the id only; an addition appends one question with the new id and the category's first icon or "❓" |
| HeadToHead.GameState.SaveQuestion | game.js:447-480 | Saves exactly when the trimmed text and all trimmed options are non-blank; a refusal changes nothing; an accepted form turns the category's list into its `SavedList` and clears the form |
| HeadToHead.WithoutIdCorrect | game.js:494 | Deleting by id keeps, in order, exactly the questions with another id |
| HeadToHead.GameState.DeleteQuestion | game.js:486-500 | Without a selected question or without confirmation nothing changes; otherwise every question of the category with that id is removed and the form cleared |
| HeadToHead.GameState.ResetToDefault | game.js:511-519 | Once confirmed the bank becomes the built-in one and the form is cleared; otherwise nothing changes |
| Leaderboard.LeaderboardManager.constructor | game.js:33-40 | The board starts as the stored list |
| Leaderboard.LeaderboardManager.AddEntry | game.js:46-60 | The board becomes `Added`: the entry with id = timestamp = clock, stably sorted by score and cut to ten; it is ordered and holds at most ten entries |
| Leaderboard.AddedBoard | game.js:56-58 | After an addition the board has min(n + 1, 10) entries, ordered by score, drawn from the old entries and the new one; below ten nothing is lost, and any dropped entry scores no more than every kept one |
| Leaderboard.AddedToOrderedBoard | game.js:56-58 | On an ordered board the new entry goes right after every entry scoring at least as much (older entries win ties), then the board is cut to ten |
| Leaderboard.LeaderboardManager.GetTopEntries | game.js:62-64 | The first `limit` entries, or all of them; a negative limit drops from the end as `slice` does |
| Leaderboard.LeaderboardManager.DisplayedEntries | game.js:304-306 | The results screen lists the first min(5, n) entries of the board, in board order |
| Leaderboard.SaveToLeaderboard | game.js:332-351 | Adds one entry with the winner's name, the larger score and the game's counters and round table |
| Sorting.SortDesc | game.js:57 | The sorted list is a permutation of the input |
| Sorting.SortDescSorted | game.js:57 | The sorted list is ordered by key, largest first |
| Sorting.SortDescStable | game.js:57 | Elements with equal keys keep their input order |
| TeamQuiz.Quiz.constructor | js/game.js:35-64 | No teams, the fetched questions, intro view, no timer |
| TeamQuiz.Quiz.ShowTeamCreation | js/game.js:67-69 | The team creation view opens |
| TeamQuiz.Quiz.AddTeam | js/game.js:71-81 | A non-blank trimmed name appends a team with score 0 and id = its position; a blank one changes nothing |
| TeamQuiz.Quiz.InitializeQuestionAssignments | js/game.js:101-113 | With no teams nothing happens; otherwise counts are zero and the plan is the round-robin `Plan` |
| QuestionAssignment.PlanPartition | js/game.js:109-112 | Every question index is dealt to team `i % teams` and to no other team |
| QuestionAssignment.PlanOnlyInRange | js/game.js:109-112 | No index outside the question list is dealt |
| QuestionAssignment.OwnedAscending | js/game.js:109-112 | Each team's list is strictly ascending |
| QuestionAssignment.OwnedCount | js/game.js:109-112 | Team `t` gets `n / teams` questions, plus one when `t < n % teams` |
| QuestionAssignment.PlanFair | js/game.js:109-112 | Any two teams' question counts differ by at most one |
| TeamQuiz.Quiz.FindOwner | js/game.js:119-124 | The first team whose list contains the index, or none exactly when no list does |
| TeamQuiz.Quiz.StartGame | js/game.js:93-128 | Builds the plan, opens the game at question 0 with the turn on team 0 (the owner of question 0) and a fresh timer |
| TeamQuiz.Quiz.ShowQuestion | js/game.js:130-151 | Options enabled, timer style plain, 30 s timer started |
| TeamQuiz.Quiz.StartTimer | js/game.js:327-338 | 30 s, plain style, timer running |
| TeamQuiz.Quiz.StopTimer | js/game.js:360-365 | The timer is stopped |
| TeamQuiz.Quiz.SelectAnswer | js/game.js:137-180 | For a click on one of the shown option buttons: on an open question the team on turn gains exactly 10 points when right and 0 otherwise, its answered count grows by one, no other team changes; clicks on an answered question have no effect; `Valid` is kept (ids = positions, scores multiples of 10 bounded by 10 × questions taken) |
| TeamQuiz.StyleAfterTick | js/game.js:344-350 | Warning exactly for 6-10 s left, danger exactly for 5 s or less, unchanged above 10 s |
| TeamQuiz.Quiz.Tick | js/game.js:339-357 | One second: time drops by one, style follows `StyleAfterTick`, and at zero the timer stops and the timeout is handled; a stopped timer never ticks |
| TeamQuiz.Quiz.HandleTimeOut | js/game.js:367-390 | The team on turn's count grows by one, scores unchanged, the question is closed |
| TeamQuiz.Quiz.MoveToNextQuestion | js/game.js:190-217 | The index advances with teams, counts and plan unchanged; past the end the game ends with the timer stopped and the turn kept, otherwise the turn goes to the index's owner (`index % teams`) and the question is open with a fresh plain 30 s timer |
| TeamQuiz.Quiz.Skip | js/game.js:186-188 | While the question is open it moves on as `moveToNextQuestion` does, without scoring or counting; on an answered question nothing changes |
| TeamQuiz.Quiz.Next | js/game.js:182-184 | Once the question is answered or timed out it moves on as `moveToNextQuestion` does; on an open question nothing changes |
| TeamQuiz.StandingsCorrect | js/game.js:223-251 | Every team appears once, highest score first, ties in team order, ranks 1, 2, 3, ...; gold, silver and bronze on places one to three and no medal after; each team's own answered count, 0 when it has none |
| TeamQuiz.WinnerHasTopScore | js/game.js:223-226 | The announced winner is a team with the highest score |
| TeamQuiz.Quiz.FinalStandings | js/game.js:219-252 | At the end the standings list every team and the first one has the top score |
| Text.TrimShape | js/question-editor.js:235 | `trim` keeps a slice of the input that neither starts nor ends with white space and drops only white space around it |
| Text.TrimEmpty | game.js:457 | A trimmed field is blank exactly when it is all white space |
| Text.TrimAll | game.js:449-454 | Each option is trimmed, position by position |
| Text.ToLower | js/question-editor.js:181 | Lower-casing maps each character and keeps the length |
| Text.Contains | js/question-editor.js:186-187 | `includes` holds exactly when the term occurs as a contiguous slice |
| QuestionBank.Editor.constructor | js/question-editor.js:3-6 | Empty lists, nothing being edited or deleted |
| QuestionBank.Editor.Load | js/question-editor.js:21-42 | The stored documents become the list and the filtered view |
| QuestionBank.FilterQuestionsCorrect | js/question-editor.js:179-193 | The filter keeps, in order, exactly the questions whose difficulty matches ("all" matches everything) and whose lower-cased text or some option contains the lower-cased term (an empty term matches everything) |
| QuestionBank.FilterShowsAll | js/question-editor.js:184-185 | With "all" and an empty search every question is shown |
| QuestionBank.Editor.ApplyFilter | js/question-editor.js:179-193 | The filtered view becomes `FilterQuestions` of the list |
| QuestionBank.StatsPartition | js/question-editor.js:172-177 | Easy + medium + hard + other-tagged counts equal the total, so the shown counts never exceed it |
| QuestionBank.Editor.OpenAddModal | js/question-editor.js:195-196 | The form is for a new question |
| QuestionBank.Editor.EditQuestion | js/question-editor.js:211-212 | The form edits the given position |
| QuestionBank.ReadOptions | js/question-editor.js:238-245 | All four trimmed options, or the position of the first blank one (every earlier one non-blank) |
| QuestionBank.ReadForm | js/question-editor.js:234-262 | Accepted exactly when options, correct answer, difficulty and trimmed text are all present; otherwise the first failing check in source order is reported, each error case as an iff |
| QuestionBank.Editor.SaveQuestion | js/question-editor.js:234-279 | A refused form changes nothing. An accepted one is appended with order = list length, or replaces the edited position keeping its id and order, all else unchanged. A stale edit position changes nothing |
| QuestionBank.Editor.AddQuestion | js/question-editor.js:281-294 | Appends the question under the store's id and resets the view to the whole list |
| QuestionBank.Editor.UpdateQuestion | js/question-editor.js:296-308 | Replaces only the given position, under its old id |
| QuestionBank.Editor.DeleteQuestion | js/question-editor.js:310-313 | The position to delete is recorded |
| QuestionBank.Editor.ConfirmDelete | js/question-editor.js:315-335 | Exactly the chosen element is removed (as a multiset too), the rest keep their order; no choice or a stale position changes nothing |
| QuestionBank.DuplicateOf | js/question-editor.js:338-344 | The copy has the text followed by " (نسخة)" and the same options, answer and difficulty |
| QuestionBank.Editor.DuplicateQuestion | js/question-editor.js:337-346 | A marked copy is appended with order = list length; a stale position changes nothing |
| QuestionBank.ExportData | js/question-editor.js:360-366 | One record per question, in order, carrying text, options, answer and difficulty |
| QuestionBank.ExportIgnoresIdAndOrder | js/question-editor.js:361-366 | Lists differing only in ids and ordering keys export alike |
| Admin.Tagged | js/admin.js:40-55 | One tagged result per document, in snapshot order |
| Admin.TaggedMembership | js/admin.js:40-55 | A tagged collection holds exactly its documents with its tag |
| Admin.MergedOrder | js/admin.js:37-62 | The merged list has both collections' size, is newest first, is a permutation of the tagged documents, and keeps load order (individual before group) among equal times |
| Admin.MergedMembership | js/admin.js:37-62 | A result is listed exactly when it is an individual document tagged individual or a group document tagged group |
| Admin.AdminPanel.constructor | js/admin.js:22-23 | Both lists start empty |
| Admin.AdminPanel.LoadQuizResults | js/admin.js:25-72 | The list becomes `Merged`, the filtered view the whole list, and the summary is computed on it |
| Admin.BandThresholds | js/admin.js:116-119 | The percentage class is cut at 90, 70 and 50 and never falls as the percentage rises |
| Admin.ByDifficultyCorrect | js/admin.js:167-178 | "all" keeps everything; another difficulty keeps, in order, exactly the results with that difficulty |
| Admin.AdminPanel.FilterByDifficulty | js/admin.js:167-178 | The filtered view becomes `ByDifficulty` and the summary is computed on it |
| Admin.Percentages | js/admin.js:155 | One percentage per individual result, in order |
| Admin.RoundedMean | js/admin.js:157 | The nearest integer to the mean, halves up: 2n·avg ≤ 2·sum + n < 2n·(avg + 1) |
| Admin.Max | js/admin.js:158 | The highest percentage is one of them and bounds them all |
| Admin.Min | js/admin.js:159 | The lowest percentage is one of them and bounds them all |
| Admin.MeanBetween | js/admin.js:155-159 | The rounded average lies between the lowest and the highest percentage |
| Admin.SummaryWithoutIndividuals | js/admin.js:134-153 | No results: all zeros; only group results: their number and "-" for the three statistics |
| Admin.SummaryOfIndividuals | js/admin.js:143-164 | With individual results: participants = their number, highest and lowest are actual percentages bounding all, and lowest ≤ average ≤ highest |
| Admin.SummaryIgnoresGroups | js/admin.js:143-157 | Once there is an individual result, group results change no number of the summary |

## Left out

- Rendering, CSS classes other than the timer's, notifications, alerts, particle
  effects, full-screen mode, title animations and the footer (`js/footer.js`) are not
  modelled. `js/footer.js` is not part of this model.
- Storage and database I/O: `localStorage` reads and writes, and the database reads,
  adds, updates and deletes. Reads become method parameters. Writes are modelled as
  if they succeeded, and only their effect on the page's own lists is kept.
  Authentication and redirects are left out.
- The clock (`Date.now()`), confirmation dialogs and form fields are parameters. The
  new-question ids built from the clock and the document ids the database assigns
  (`newId`, `docId`) are parameters too.
- HeadToHead.GameState.SelectAnswer: the turn switch and the "next" button wait
  1200 ms; the model passes the turn immediately.
- HeadToHead.GameState.SelectAnswer: answer times are whole milliseconds
  (`totalTimeMs`), not seconds as floats. The test `seconds < 10` is the same as
  `ms < 10000` for them.
- Leaderboard.StatsOf: stores the total time in milliseconds, not the average time
  formatted with `toFixed(1)`.
- Leaderboard.StatsOf: the stored round table is a copy, not a reference to
  `gameState.roundScores`.
- Leaderboard.LeaderboardManager.AddEntry: the id and the timestamp come from one
  clock reading. The source reads the clock twice.
- Locale-formatted dates are a string parameter; their formatting is not modelled.
- HeadToHead.GameState.ShowInstructions: requires the round number to be below four.
  From any other state the source would index past `rounds` and fail.
- TeamQuiz.Quiz.StartGame: requires at least one team and one question. The start
  button only appears once a team exists. With no questions, `showQuestion` fails on
  a missing question after the view has switched.
- The multi-team game's `updateCompactLeaderboard`, `updateTurnHeader`,
  `updateProgressBar` and `renderTeams` are display only. Of `switchView` and
  `resetState` only the DOM work is left out. Their effects on state are modelled:
  the `view` field, and `answered := false` and the plain timer style in
  `ShowQuestion`. The restart button reloads the page.
- The two-team game's `updateGameStatistics` average time, the markup of
  `updateLeaderboardDisplay` (its list is `DisplayedEntries`),
  `updateRoundIndicator`, `updateTeamIndicator`, `updateTeamRanking`, `updateScore`,
  `updateQuestionList` and `updateTimerDisplay` are display only.
- `exportQuestions`/`importQuestions` (game.js) are not modelled: file download and
  upload. The same goes for the results page's CSV export and "clear responses"
  (js/admin.js:180-252), and for `importInitialQuestions` and `saveAllChanges`
  (js/question-editor.js).
- Question-editor writes complete asynchronously. The model applies each at once, so
  a change to `editingIndex` between the click and the write is not represented.
- `Text.Trim` and `Text.ToLower` handle ASCII white space and ASCII letters only, not
  the full Unicode tables of `trim` and `toLowerCase`.
- Admin.RoundedMean: percentages are modelled as integers, and timestamps as integer
  milliseconds. Results without a usable timestamp (NaN comparisons) are not
  represented.
