# ELO leaderboard: rating core, mock backend and name handling

A Dafny model of the logic of an ELO leaderboard web application. The model has five parts:

- **`Elo`** (`elo.dfy`) covers the rating arithmetic of `lib/elo.ts`. It has the logistic expected score, the K = 32 update and the two-player rating change for a game with a winner. Ratings are `real`. `Math.pow(10, x)` cannot be defined in Dafny, so every function that needs it takes it as a parameter `pow10`. That parameter must satisfy `Pow10Laws`: it is positive, 10^0 = 1, 10^-x = 1/10^x, and it is strictly increasing. `Pow10LawsSatisfiable` shows that some function meets these laws.
- **`MockData`** (`mock_data_service.dfy`) covers the in-memory backend of `lib/mock-data-service.ts`. The class `MockDataService` holds the player table and the append-only game list as two `seq` fields, which stand for the browser storage. Each method states the whole new state. `Valid()` is the invariant every method keeps: ids are unique, every player has wins + losses = games played, and every game is well formed and refers to stored players.
- **`Sorting`** (`sorting.dfy`) is the in-place `Array.prototype.sort` with a descending-key comparator. It is an insertion sort on an `array`. It is proved sorted and a permutation of its input.
- **`DisplayNameSetup`** (`display_name_setup.dfy`) covers the guard chain of the profile dialog's submit handler and the form state it changes (`displayName`, `loading`).
- **`UserDropdown`** (`user_dropdown.dfy`) covers the fallback display name of the avatar menu and its initials.

Two helper modules complete the model. `Strings` models the JavaScript string built-ins that are used: `trim` with the exact ECMAScript whitespace set, `toLowerCase`/`toUpperCase` on ASCII, `length` in UTF-16 code units, and `split` with a one-character separator. `Strings.JoinWith` (`join` with a separator) is not used by the application. It is only the inverse that `split` is proved against. The one `join("")` in the application is part of `UserDropdown.FirstChars`. `Wrappers` holds `Option` and `Result`.

The explanation page (app/explanation/page.tsx:25 and :57) says everyone starts with 1000 points and gives a draw case R = 0.5. The code has neither, and the model follows the code:
- Only the code's outcome resolver exists. It has no draw, so a player scores 1 exactly when the winner id is theirs and 0 otherwise.
- The initial rating is 1200, not 1000.
- A winner id that matches neither player is not rejected by `calculateRatingChanges`. Both players then lose points (`CalculateRatingChanges`). Only `recordGame` rejects such a game.

`addPlayer` compares the name as given, untrimmed, with the stored names, but it stores the trimmed name. So a padded copy of an existing name is accepted and stored equal to it (`PaddedDuplicateGetsThrough`). For that reason, unique names are not part of `Valid()`.

## Model

| member | source | states |
|---|---|---|
| Elo.ExpectedScore | lib/elo.ts:5-7 | the expected score lies strictly between 0 and 1; it is exactly 1/2 iff the ratings are equal, and above 1/2 iff the player is the higher rated |
| Elo.ExpectedScoresSumToOne | lib/elo.ts:20-21 | the two expected scores of a game, expected(A,B) and expected(B,A), add up to 1 |
| Elo.ExpectedScoreDecreasesWithOpponent | lib/elo.ts:5-7 | against a stronger opponent the expected score is strictly lower |
| Elo.NewRating | lib/elo.ts:9-11 | with K = 32 the rating rises exactly when actual > expected, falls exactly when actual < expected, and moves by at most K when both scores lie in [0,1] |
| Elo.ActualScore | lib/elo.ts:23-24 | the actual score is 1 exactly when the winner id is the player's and 0 otherwise; no other value (no draw) |
| Elo.CalculateRatingChanges | lib/elo.ts:13-41 | each side's before is its input rating and change = after - before; a side gains iff the winner id is its own and loses otherwise (so both lose when the winner matches neither id); every change is strictly within K |
| Elo.PointsTransfer | lib/elo.ts:20-27 | between two different players with a winner among them, the winner gains K times the loser's expected score and the loser loses exactly that |
| Elo.ZeroSum | app/explanation/page.tsx:24-25 | points are only transferred: the two changes sum to 0 and the ratings' sum is unchanged |
| Elo.UpsetGainsMore | app/explanation/page.tsx:28-33 | the more surprising the win, the more points: beating a stronger opponent gains strictly more than beating a weaker one |
| Elo.EqualRatingsMoveHalfK | lib/elo.ts:20-27 | between equal ratings the winner gains 16 and the loser drops 16 |
| Elo.Pow10LawsSatisfiable | lib/elo.ts:6 | the laws assumed of `Math.pow(10, x)` are met by some function, so the ELO functions can be called |
| Strings.Trim | components/display-name-setup.tsx:31 | the trimmed string is empty iff the input is all whitespace, and otherwise neither starts nor ends with whitespace |
| Strings.TrimIsInfix | lib/mock-data-service.ts:138 | trimming keeps a contiguous piece of the input and drops only whitespace before and after it |
| Strings.ToLower | lib/mock-data-service.ts:132 | lower-casing keeps the length, leaves no ASCII capital, and changes no character other than an ASCII capital |
| Strings.ToLowerIdempotent | lib/mock-data-service.ts:132 | lower-casing an already lower-cased string changes nothing |
| Strings.ToUpper | components/user-dropdown.tsx:37 | upper-casing keeps the length, leaves no ASCII small letter, and changes no character other than an ASCII small letter |
| Strings.Utf16Length | components/display-name-setup.tsx:40-49 | `length` counts UTF-16 code units: at least the number of characters and at most twice it, and equal to it iff no character lies outside the Basic Multilingual Plane |
| Strings.Utf16LengthOfSupplementary | components/display-name-setup.tsx:40-49 | a string of characters outside the Basic Multilingual Plane has a `length` of twice its number of characters |
| Strings.TrimIdempotent | components/display-name-setup.tsx:59 | trimming a trimmed string changes nothing |
| Strings.SplitOn | components/user-dropdown.tsx:34 | `split` with a one-character separator gives at least one piece and no piece contains the separator |
| Strings.JoinSplit | components/user-dropdown.tsx:34 | joining the pieces of a split with the separator gives back the string |
| Strings.SplitJoin | components/user-dropdown.tsx:34 | splitting a join of separator-free pieces gives back the pieces |
| Strings.FirstPiece | components/user-dropdown.tsx:30 | `split(sep)[0]` is the prefix of the string up to its first separator, or the whole string when there is none |
| MockData.FindPlayer | lib/mock-data-service.ts:206-207 | `find` by id gives a player iff some stored player has the id, and then it gives the first one with that id |
| MockData.FindPlayerAt | lib/mock-data-service.ts:172-174 | when ids are unique, the player found for an id is the one stored with it |
| MockData.NameTakenIgnoresCase | lib/mock-data-service.ts:132 | the duplicate test ignores ASCII case: a name is taken iff its ASCII-lower-cased form is |
| MockData.PaddedDuplicateGetsThrough | lib/mock-data-service.ts:132-138 | the duplicate test uses the untrimmed input: " Alice" passes when "Alice" is stored, and is stored as "Alice" |
| MockData.SamplePlayers | lib/mock-data-service.ts:47-75 | the sample players Alice, Bob and Charlie have distinct ids and balanced counters (wins + losses = games played) |
| MockData.GameError | lib/mock-data-service.ts:206-219 | a game is refused for a missing player before it is refused for identical players; it is accepted iff both players exist, they differ, and the winner is one of them |
| MockData.ApplyGame | lib/mock-data-service.ts:235-255 | player 1 and player 2 take the new ratings, the winner gains a win, the other a loss and both a game played; ids, names and creation times are kept; every other player is unchanged; balanced counters stay balanced |
| MockData.UpdatedPlayers | lib/mock-data-service.ts:235-255 | the updated table has the same players in the same order, with ids and names kept; a player outside the game is unchanged, and each entry is the `ApplyGame` update of the stored one |
| MockData.NewGame | lib/mock-data-service.ts:222-232 | the new record carries the caller's before and after ratings for both players; it is well formed iff the players differ and the winner is one of them |
| MockData.JoinGame | lib/mock-data-service.ts:170-175 | the joined game keeps the game, and each of player 1, player 2 and winner is found iff a stored player has that id, and is then a stored player with that id |
| MockData.JoinGames | lib/mock-data-service.ts:169-175 | `map` joins every game, in storage order |
| MockData.JoinedGameIsComplete | lib/mock-data-service.ts:169-175 | when the stored data is consistent, every joined game is the join of a stored game and all three of its players are found |
| MockData.RecordedGameTally | lib/mock-data-service.ts:235-259 | across the whole table a recorded game adds exactly one win, one loss and two games played, and changes the rating total only by the two players' rating moves |
| MockData.RecordedGameConservesRating | app/explanation/page.tsx:24-25 | recording a game with the rating changes computed from the stored ratings leaves the sum of all ratings unchanged |
| MockData.RecordedGameKeepsConsistent | lib/mock-data-service.ts:235-260 | recording a game that passes the guards keeps ids unique, counters balanced, and every stored game well formed and pointing at stored players |
| MockData.AddedPlayerKeepsConsistent | lib/mock-data-service.ts:136-147 | appending a player with a fresh id and zero counters keeps the stored data consistent |
| MockData.MockDataService.constructor | lib/mock-data-service.ts:80-90 | empty storage holds no players and no games and satisfies the invariant |
| MockData.MockDataService.InitializeSampleData | lib/mock-data-service.ts:45-78 | the sample players are stored exactly when no player is; games are untouched; the invariant is kept |
| MockData.MockDataService.GetPlayers | lib/mock-data-service.ts:105-123 | the result is a permutation of the (possibly just seeded) player table, sorted by rating from highest to lowest; the stored table is not reordered |
| MockData.MockDataService.AddPlayer | lib/mock-data-service.ts:125-159 | fails, changing nothing, iff a stored name equals the input ignoring ASCII case; otherwise appends exactly one player with the trimmed name, the given rating (1200 by default) and zero counters, and returns it |
| MockData.MockDataService.GetGamesWithPlayers | lib/mock-data-service.ts:161-188 | the result is a permutation of the games joined with their players, newest first; each game's player1/player2/winner is the stored player with that id, and under the invariant all three are found |
| MockData.MockDataService.RecordGame | lib/mock-data-service.ts:190-272 | fails, changing nothing, iff a player is missing, the players are the same or the winner is neither, with that error; otherwise updates the two players as `ApplyGame` says and appends one game carrying the caller's before/after ratings; the invariant is kept |
| Sorting.SortByKeyDesc | lib/mock-data-service.ts:111 | the array ends sorted by key from largest to smallest and is a permutation of what it held |
| DisplayNameSetup.ValidateDisplayName | components/display-name-setup.tsx:31-56 | the trimmed name is accepted iff its `length` in UTF-16 code units is between 2 and 50, and then it is the value submitted; it is refused as empty iff the input is all whitespace, as too short iff one code unit is left, and as too long iff more than 50 are left |
| DisplayNameSetup.SupplementaryNames | components/display-name-setup.tsx:40-59 | a name made only of characters outside the Basic Multilingual Plane, such as emoji, is accepted unchanged iff it has at most 25 characters; so a single emoji is accepted |
| DisplayNameSetup.AcceptedNameIsStable | components/display-name-setup.tsx:59 | the name handed to `onComplete` is accepted again, unchanged |
| DisplayNameSetup.DisplayNameForm.constructor | components/display-name-setup.tsx:25-26 | the form starts with an empty field and is not loading |
| DisplayNameSetup.DisplayNameForm.SubmitDisabled | components/display-name-setup.tsx:114 | the submit button is disabled iff the form is loading or the field is all whitespace |
| DisplayNameSetup.DisplayNameForm.Edit | components/display-name-setup.tsx:101-103 | typing, possible only while not loading, replaces the field's value |
| DisplayNameSetup.DisplayNameForm.HandleSubmit | components/display-name-setup.tsx:28-76 | `onComplete` is called iff the trimmed `length` in UTF-16 code units is between 2 and 50, and then with the trimmed name; the field is cleared iff `onComplete` resolves to success, and otherwise keeps its value; loading is false at the end unless `onComplete` rejects, which leaves the form loading with its button disabled |
| UserDropdown.DisplayName | components/user-dropdown.tsx:27-31 | the name shown is the first non-empty one among the player name, the full name and the e-mail text before its first '@', else "User"; it is never empty |
| UserDropdown.EmailName | components/user-dropdown.tsx:30 | there is an e-mail name iff there is an e-mail address; it is the address up to, and not including, its first '@', or the whole address when it has none |
| UserDropdown.FirstChars | components/user-dropdown.tsx:35-36 | mapping each piece to its first character and joining gives at most one character per piece, and exactly each piece's first character when no piece is empty |
| UserDropdown.FirstCharsOfWords | components/user-dropdown.tsx:33-36 | the first characters of the space-separated pieces are exactly the characters that start a word, in order; empty pieces contribute nothing |
| UserDropdown.Initials | components/user-dropdown.tsx:33-38 | the initials are the first min(2, number of words) word-start characters with ASCII letters upper-cased; they hold at most 2 characters and no ASCII lower-case letter |
| UserDropdown.View | components/user-dropdown.tsx:25-38 | nothing is computed without a signed-in user; otherwise the name shown is non-empty and has at most 2 initials, and at least 1 when the name does not start with a space |

## Left out

- `Math.pow` and IEEE-754 arithmetic are left out. Ratings are exact reals, and `10^x` is the parameter `pow10`, constrained by `Pow10Laws`. Rounding, NaN and infinite ratings are not modelled.
- Draws are left out. No draw exists in the modelled code, and none is added.
- `delay`, `async`/`await`, `setTimeout` and the `try`/`catch` wrapping into `MockResponse` are left out. A thrown error is a `Failure` of `Result`, and success is `Success`.
- `localStorage`, JSON (de)serialisation and the `typeof window` checks are left out. Storage is the two fields of `MockDataService`, and reading storage always succeeds.
- `generateId` (`Math.random`, `Date.now`) and ISO timestamps are left out. Ids and millisecond timestamps are parameters.
- MockData.MockDataService.AddPlayer: requires that the new id is not stored yet. This is the model's reading of the random id generator, which the code trusts to produce unique ids.
- `clearAllData`, `resetToSampleData` and the empty subscription stubs are not part of this model.
- Sorting.SortByKeyDesc: does not state that the sort is stable (equal keys keep their input order), which JavaScript's `sort` guarantees.
- MockData.MockDataService.GetPlayers: sorts with `Sorting.SortByKeyDesc`, so it does not state that players with equal ratings keep their stored order.
- MockData.MockDataService.GetGamesWithPlayers: sorts with `Sorting.SortByKeyDesc`, so it does not state that games with equal creation times keep their stored order.
- Strings.ToLower: models `toLowerCase` on ASCII letters only. Full Unicode case mapping, including mappings that change the length, is not modelled.
- Strings.ToUpper: models `toUpperCase` on ASCII letters only, for the same reason.
- MockData.MockDataService.AddPlayer: the duplicate test folds only ASCII case, through `Strings.ToLower`. With "Émile" stored, `addPlayer("émile")` throws in JavaScript, where `toLowerCase` maps both names to "émile". The model accepts it and appends a second player.
- MockData.NameTakenIgnoresCase: covers ASCII case only, for the same reason.
- UserDropdown.Initials: upper-cases through `Strings.ToUpper`, so a word starting with a non-ASCII lower-case letter such as 'é' keeps it lower-case, where JavaScript gives 'É'.
- Strings are sequences of Unicode scalar values, so a JavaScript string holding a lone surrogate has no counterpart in the model. The initials code produces such a string when it takes `n[0]` of a word that starts with an emoji.
- UserDropdown.FirstChars: takes the first Unicode character of a word. JavaScript's `n[0]` takes the first UTF-16 code unit, which differs for characters outside the Basic Multilingual Plane.
- UserDropdown.DisplayName: assumes `user_metadata.full_name` is a string or absent. Other JSON values are not modelled.
- Toast messages, dialog rendering, the input's `maxLength` attribute and the pending state while `onComplete` runs are left out. How `onComplete`'s promise settles is the parameter `outcome` of `HandleSubmit`.
- The Supabase-backed services, the auth and player hooks and all other components are not part of this model. The derived-rating replay named by `lib/backend.ts` is not defined in `lib/elo.ts`, so it is not modelled.
