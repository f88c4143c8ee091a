# CodeClash evaluation core, modelled in Dafny

CodeClash runs tournaments in which coding agents edit their own codebases round after round.
The agents' programs then play each other in a game arena: Halite, BattleCode, RoboCode or the
Dummy game. The system turns the recorded round outcomes into ratings, and analytics scripts
measure how the agents' codebases and trajectories evolve. This project models the
deterministic part of that pipeline and proves what each piece promises.

- **Rating pipeline.**
  - `ScoreMatrix` covers the score matrix builder of `elo2.py`: the three round-scoring
    policies (`tertiary`, `float`, `tertiary_p_value`), the sorted-pair win matrix, the
    combined "ALL" pool under its three normalisation schemes, and the Bradley–Terry to Elo
    transform.
  - `TournamentData` holds the tournament metadata records.
  - `EloRatings` and `EloRun` cover the online Elo updater: normalised round scores, the
    zero-sum update and the rounds-weighted average.
  - `WinRate` covers the win-rate tally.
- **Arenas.**
  - `RunCommand` is the shared "key → flag" command-line builder.
  - `Environment` is the zero-exit-code guard.
  - `Arenas` is the name-keyed game registry.
  - `GameStats` holds a round's winner, scores and per-player statistics.
  - `Halite`, `BattleCode`, `RoboCode` and `Dummy` hold each game's command builder, output
    parser, winner rule and code validation. Command execution is a parameter: a
    `(returncode, output)` answer.
- **Round driver.** `PvpTraining` is a class holding the scoreboard and the trace of actions
  the driver takes. Rounds run strictly in order. Each round's log reaches the agents before
  they take their turns. The end actions run whether or not a round raised.
- **Git diffs.** `GitDiff` and `GitDiffFacts` cover the filter that drops binary-file blocks
  from a diff.
- **Analytics.**
  - `FileHistory`, `CodeOrganization` and `CodeReuse` cover the per-file history and the
    codebase-organisation metrics.
  - `ThrowawayFiles` and `CreatedFiles` cover throwaway files and created-file counts.
  - `TrimmedMean`, `PerRoundChanges` and `ThoughtLength` cover the trimmed per-round
    averages.
  - `PerModel` covers step and failed-command tallies per model.
  - `Hallucination` covers the judge's vocabulary and the trajectory rendering.
  - `Transparent` covers win rates, opponent-code access and exploitation advantage.
  - `AggregateResults` covers the LLM-judge result aggregator.
- **Shared modules.** `Wrappers` holds `Option`, `Result` and the Python exception kinds.
  `Text` holds the Python string operations used by the parsers. `Ordering` sorts, `Sums`
  holds finite sums, `OrderedDict` is an insertion-ordered dictionary, and `Trajectory` holds
  chat messages.

Python exceptions are `Result` failures that carry the exception's kind. Dictionaries whose
order cannot be observed are `map`s. Dictionaries whose insertion order matters are sequences
of pairs. Floats are exact reals. A loop the source runs over a mutable structure is a
`method` with a loop, proved against a specification function. The lemmas state the
properties of that function.

## Model

| member | source | states |
|---|---|---|
| ScoreMatrix.UniqueModelName | codeclash/analysis/metrics/elo2.py:39-40 | the short name is the text after the last "/" (the whole name when there is none), and it holds no "/" |
| ScoreMatrix.SortedPair | codeclash/analysis/metrics/elo2.py:42-43 | the pair is the two names, in either order, the first not after the second |
| ScoreMatrix.GetScore | codeclash/analysis/metrics/elo2.py:45-101 | float: a single positive "Tie" entry gives (0.5, 0.5), a single entry without "Tie" is a KeyError, otherwise exactly the two players' own scores, or a KeyError naming the first missing player; tertiary: (0.5, 0.5) exactly for a tie, (1, 0) exactly when the first player won, (0, 1) exactly when the second did, a KeyError without a winner and a failure for any other winner; tertiary_p_value: (0.5, 0.5) with no valid submit, the winner's point with one (a KeyError without a winner), and with two or more a ValueError exactly when a name has no score; otherwise (0.5, 0.5) when the p-value exceeds 0.05 outside HuskyBench and RoboCode, and else (1, 0) exactly when the first score is strictly larger, (0, 1) exactly when the second is, (0.5, 0.5) exactly when they are equal; both tertiary policies give pairs summing to 1; an unknown policy is a ValueError |
| ScoreMatrix.PValueIgnoredForUntestedGames | codeclash/analysis/metrics/elo2.py:89-93 | for HuskyBench and RoboCode the p-value is never consulted |
| ScoreMatrix.BtToElo | codeclash/analysis/metrics/elo2.py:20-22 | the rating is 1200 plus 400/ln 10 times the strength: 1200 at strength 0, above 1200 exactly for positive strength |
| ScoreMatrix.BtToEloMonotone | codeclash/analysis/metrics/elo2.py:197-204 | the conversion is strictly increasing |
| ScoreMatrix.IndexPlayers | codeclash/analysis/metrics/elo2.py:229-238 | the players are the sorted, duplicate-free names occurring in the matchups, and each matchup becomes the indices of its two players with its two win totals |
| ScoreMatrix.IndexOf | codeclash/analysis/metrics/elo2.py:231 | the index found holds the name looked up |
| ScoreMatrix.MatchupNames | codeclash/analysis/metrics/elo2.py:229 | a name is collected exactly when some matchup has it on either side |
| ScoreMatrix.AddCell | codeclash/analysis/metrics/elo2.py:129-134 | adding to a cell creates the game and the pair on first use, adds to that one cell and changes no other cell or game |
| ScoreMatrix.CellAtAdd | codeclash/analysis/metrics/elo2.py:129-134 | after an addition, only the addressed cell reads differently |
| ScoreMatrix.AddCellCommute | codeclash/analysis/metrics/elo2.py:129-134 | two additions commute |
| ScoreMatrix.AddCellTwice | codeclash/analysis/metrics/elo2.py:129-134 | two additions to the same cell are one addition of their sum |
| ScoreMatrix.Oriented | codeclash/analysis/metrics/elo2.py:129-134 | slot 0 receives the score of the alphabetically smaller short name |
| ScoreMatrix.RoundDeltas | codeclash/analysis/metrics/elo2.py:119-134 | one increment per round other than "0", up to the first round whose score raises; under both tertiary policies every increment adds 1 to the pair's total |
| ScoreMatrix.RoundDeltasStop | codeclash/analysis/metrics/elo2.py:119-123 | after a round raises, no later round adds anything |
| ScoreMatrix.RoundDeltasNext | codeclash/analysis/metrics/elo2.py:119-134 | a further round is skipped when it is "0" and otherwise scored and oriented |
| ScoreMatrix.TournamentEffect | codeclash/analysis/metrics/elo2.py:103-134 | an unreadable file raises; a file without players or game name, or with a player count other than 2, changes nothing and raises nothing; any change goes to the file's own game |
| ScoreMatrix.ApplyDeltasOneCell | codeclash/analysis/metrics/elo2.py:119-134 | a tournament's rounds together add their sum to the one canonical cell, and nothing else changes |
| ScoreMatrix.TertiaryAddsOnePerRound | codeclash/analysis/metrics/elo2.py:119-134 | under tertiary scoring the canonical pair's total w1 + w2 grows by exactly one per processed round |
| ScoreMatrix.EffectsCommute | codeclash/analysis/metrics/elo2.py:136-142 | two tournaments' contributions commute |
| ScoreMatrix.FoldOrderIndependent | codeclash/analysis/metrics/elo2.py:136-142 | the matrix after all tournaments depends only on the multiset of tournaments, not on their order |
| ScoreMatrix.Normalized | codeclash/analysis/metrics/elo2.py:150-173 | "none" passes the cell on; "by_game_model_pair" adds a cell exactly when its total is positive, and then one summing to 1; "by_game" adds cells exactly when the game total is positive, scaled by it; any other scheme adds nothing |
| ScoreMatrix.Pooled | codeclash/analysis/metrics/elo2.py:146-175 | the "ALL" pool has a pair exactly when some game has it ("none"), has it with positive total ("by_game_model_pair"), or has it in a game with positive total ("by_game"); an unknown scheme pools nothing |
| ScoreMatrix.AddTo | codeclash/analysis/metrics/elo2.py:153-155 | adding into the pool changes only the addressed pair, creating it at (0, 0) first |
| ScoreMatrix.PooledStep | codeclash/analysis/metrics/elo2.py:152-173 | pooling one more cell adds its normalised contribution to its pair, or nothing |
| ScoreMatrix.PairNormalizedCountsGames | codeclash/analysis/metrics/elo2.py:157-164 | under "by_game_model_pair" a pair's pooled total is the number of games in which it has a positive total |
| ScoreMatrix.GameNormalizedSumsToOne | codeclash/analysis/metrics/elo2.py:166-173 | under "by_game" the entries a game with positive total adds sum to 1 |
| ScoreMatrix.ShareByGame | codeclash/analysis/metrics/elo2.py:169-173 | under "by_game" a pair's share is its total over the game's total |
| ScoreMatrix.Effects | codeclash/analysis/metrics/elo2.py:137-139 | one contribution per metadata file |
| ScoreMatrix.Errors | codeclash/analysis/metrics/elo2.py:138-142 | at most one logged error per metadata file |
| ScoreMatrix.ScoreMatrixBuilder.constructor | codeclash/analysis/metrics/elo2.py:26-37 | the matrix starts empty, with the given scheme and score type |
| ScoreMatrix.ScoreMatrixBuilder.ProcessTournament | codeclash/analysis/metrics/elo2.py:103-134 | the matrix gains exactly the file's contribution and the method reports the file's exception |
| ScoreMatrix.ScoreMatrixBuilder.AddRounds | codeclash/analysis/metrics/elo2.py:119-134 | the round loop adds the rounds' increments, in order, to the canonical cell and stops at the first raising round, keeping what was added before |
| ScoreMatrix.ScoreMatrixBuilder.MatchupsTotal | codeclash/analysis/metrics/elo2.py:169 | the loop computes the game's total of w1 + w2 over its pairs |
| ScoreMatrix.ScoreMatrixBuilder.BuildCombinedMatrix | codeclash/analysis/metrics/elo2.py:146-175 | the "ALL" entry is set to the pool of the current matrix under the scheme and nothing else changes |
| ScoreMatrix.ScoreMatrixBuilder.Build | codeclash/analysis/metrics/elo2.py:136-144 | every file's contribution is added, a failing file's exception is logged and the totals it added before failing are kept, and the "ALL" pool is built once at the end |
| TournamentData.ValidSubmits | codeclash/ratings/elo.py:51-53 | the number of players whose valid_submit is true, counting none when every flag is false or absent |
| TournamentData.ArenaOf | codeclash/ratings/elo.py:28 | the arena is the text between the folder name's first "." and the next one; a name without "." raises |
| EloRatings.ExpectedScore | codeclash/ratings/elo.py:19-20 | the expected score 1 / (1 + 10^((b − a)/400)) lies strictly between 0 and 1 |
| EloRatings.ExpectedScoresComplement | codeclash/ratings/elo.py:82-86 | the two players' expected scores sum to 1 |
| EloRatings.Normalize | codeclash/ratings/elo.py:73-80 | the normalised scores sum to 1: proportional to the raw scores when their total is positive, both 0.5 otherwise |
| EloRatings.PlayerModels | codeclash/ratings/elo.py:31-34 | the name-to-model map exists exactly when every player has a name and a model; it maps each name to its '@'-stripped model, a later player overriding an earlier one of the same name |
| EloRatings.WithProfiles | codeclash/ratings/elo.py:36-40 | a profile "arena.model" is created at the starting Elo with no rounds for each model not yet seen; existing profiles are kept untouched |
| EloRatings.EntryScore | codeclash/ratings/elo.py:55-63 | the tie entry and a None score are skipped; a score with zero sims raises ZeroDivisionError; with exactly one valid submit the valid player scores 1.0, otherwise the score over the sims |
| EloRatings.RoundEntries | codeclash/ratings/elo.py:55-66 | the scored entries number at most the player entries and all name profiles that exist |
| EloRatings.AddPlayed | codeclash/ratings/elo.py:64-65 | each profile's rounds played grows by the number of scored entries naming it, and nothing else changes |
| EloRatings.Shifted | codeclash/ratings/elo.py:89-90 | the first profile gains the change, the second loses it, and nothing else changes |
| EloRatings.ChangesCancel | codeclash/ratings/elo.py:82-87 | with complementary expected scores and scores summing to 1, the second player's own change is minus the first's |
| EloRatings.EloUpdateNeverAsserts | codeclash/ratings/elo.py:82-87 | the zero-sum assertion never fires when the expected scores are computed with a true power of ten |
| EloRatings.RoundOutcome | codeclash/ratings/elo.py:50-90 | a rated round keeps the set of profiles, adds one round played per scored entry, and leaves every rating unchanged unless exactly two entries were scored |
| EloRatings.TournamentOutcome | codeclash/ratings/elo.py:45-90 | rating a tournament's rounds keeps the set of profiles |
| EloRatings.LogOutcome | codeclash/ratings/elo.py:27-90 | a tournament folder never removes a profile |
| EloRatings.EloUpdateZeroSum | codeclash/ratings/elo.py:82-90 | the update leaves the sum of all ratings unchanged |
| EloRatings.RoundZeroSum | codeclash/ratings/elo.py:50-90 | so does every rated round |
| EloRatings.TournamentZeroSum | codeclash/ratings/elo.py:45-90 | and every tournament |
| EloRatings.ExcessOverStartingEloIsZero | codeclash/ratings/elo.py:26-90 | after any run, the ratings sum to the starting Elo times the number of profiles: the mean rating stays the starting Elo |
| EloRatings.ExcessOverBase | codeclash/ratings/elo.py:26-90 | the sum of ratings is their excess over a base plus the base per profile |
| EloRatings.OppositeChangesZeroSum | codeclash/ratings/elo.py:89-90 | a gain on one profile and the same loss on another keep the sum of ratings |
| EloRatings.WeightedAverageWithinRatings | codeclash/ratings/elo.py:101-115 | a model's weighted average lies between the least and greatest ratings of its profiles that played |
| EloRatings.WeightedMeanBetween | codeclash/ratings/elo.py:109 | a weighted mean with positive total weight lies within the bounds of the weighted values |
| EloRun.CountValidSubmits | codeclash/ratings/elo.py:51-53 | the loop counts the valid submits |
| EloRun.ScoreEntries | codeclash/ratings/elo.py:55-66 | the loop over the player entries yields the scored entries and the profiles with their rounds played counted, or the first exception |
| EloRun.RateRound | codeclash/ratings/elo.py:50-90 | the loop over one round's scores gives `RoundOutcome`: raw scores per player, the round counts, and the normalised zero-sum update when exactly two entries are scored |
| EloRun.RateTournament | codeclash/ratings/elo.py:45-90 | the round loop computes the tournament outcome, skipping round "0" and stopping at the first exception |
| EloRun.InitProfiles | codeclash/ratings/elo.py:36-40 | the loop creates exactly the missing profiles |
| EloRun.RateLog | codeclash/ratings/elo.py:27-90 | one tournament folder gives `LogOutcome`: missing profiles of its models are created at the starting Elo, and only a tournament with exactly two players has its rounds rated, in order |
| EloRun.Tally | codeclash/ratings/elo.py:103-106 | the weighted sums and the rounds are kept for the same models |
| EloRun.TallyWeighted | codeclash/ratings/elo.py:103-105 | a model's weighted sum is the sum of rating × rounds played over its profiles |
| EloRun.TallyGames | codeclash/ratings/elo.py:103-106 | a model's total is the sum of rounds played over its profiles |
| EloRun.Quotients | codeclash/ratings/elo.py:109-114 | averages are reported exactly for the models with positive total rounds |
| EloRun.AveragesOfSums | codeclash/ratings/elo.py:101-115 | the quotients of the tallied sums are the weighted averages |
| EloRun.WeightedAverage | codeclash/ratings/elo.py:101-115 | the loop over the profiles computes the weighted averages: Σ rating·rounds / Σ rounds per model, models with no rounds omitted |
| EloRun.Ratings | codeclash/ratings/elo.py:23-115 | the whole run: the first exception, or the profiles after every folder together with their weighted averages |
| WinRate.WinRate | codeclash/ratings/win_rate.py:16-18 | the win rate times the count is the wins, and it is 0.0 when the count is 0 |
| WinRate.WinRateBounds | codeclash/ratings/win_rate.py:16-18 | with 0 ≤ wins ≤ count the win rate lies in [0, 1] |
| WinRate.Key | codeclash/ratings/win_rate.py:32-37 | a profile key is the game, ".", and the player, and splits back into them |
| WinRate.AddCount | codeclash/ratings/win_rate.py:31-37 | a player's profile is created with no wins and the round count on first sight, and otherwise only its count grows |
| WinRate.AddCountsEffect | codeclash/ratings/win_rate.py:31-37 | each profile's count grows by the number of rounds times its occurrences among the folder's players, and its wins stay |
| WinRate.AddWinsEffect | codeclash/ratings/win_rate.py:39-43 | the win pass fails exactly when some non-tie winner has no profile; otherwise each profile gains one win per round it won, a tie adds none, and counts stay |
| WinRate.WinsForPlayers | codeclash/ratings/win_rate.py:39-43 | only the folder's players are credited with wins |
| WinRate.ProfilesSane | codeclash/ratings/win_rate.py:21-43 | when winners are players, every profile has 0 ≤ wins ≤ count, so every win rate is in [0, 1] |
| WinRate.CountPlayers | codeclash/ratings/win_rate.py:31-37 | the loop over the players computes the counts |
| WinRate.CountWins | codeclash/ratings/win_rate.py:39-43 | the loop over the rounds computes the wins, failing with KeyError at the first unknown winner |
| WinRate.ProcessFolder | codeclash/ratings/win_rate.py:27-43 | one folder's counts then wins |
| WinRate.Tally | codeclash/ratings/win_rate.py:21-43 | the loop over the folders computes all profiles or the first exception |
| RunCommand.BuildRunCommand | codeclash/games/halite/halite.py:24-30 | the constructor loop yields the program name followed, in mapping order, by " <dash>key" for a true flag, nothing for a false one and " <dash>key value" for any other value |
| RunCommand.PiecesWords | codeclash/games/halite/halite.py:25-30 | for keys and values without blanks, the pieces split into exactly the words "<dash>key" (true flags) and "<dash>key", "value" (other values), in order |
| RunCommand.CommandWords | codeclash/games/halite/halite.py:24-30 | the command's words are the program's words followed by the arguments' words |
| RunCommand.SwitchedOff | codeclash/games/halite/halite.py:26-28 | arguments that are all false add nothing |
| RunCommand.PiecesStartWithSpace | codeclash/games/halite/halite.py:28-30 | every piece starts with a blank, so no argument runs into the previous text |
| Environment.AssertZeroExitCode | codeclash/utils/environment.py:4-12 | the result is passed through exactly when the return code is absent or 0; otherwise a RuntimeError, logged once exactly when a logger is given |
| Environment.FailureMessageNamesCodeAndOutput | codeclash/utils/environment.py:7-11 | the failure message holds the return code after its fixed prefix and ends with the command output |
| Arenas.ByName | codeclash/arenas/__init__.py:28 | every registered arena is found under its own name, and every name maps to a registered arena of that name |
| Arenas.GetGame | codeclash/arenas/__init__.py:27-31 | a missing "game" or "name" key raises KeyError; otherwise the game is built exactly when some registered arena has that name, and an unknown name raises ValueError |
| Arenas.RegistryExact | codeclash/arenas/__init__.py:14-23 | the registry holds eight arenas with pairwise different names, each found under its own name |
| Arenas.NameInjective | codeclash/arenas/__init__.py:14-23 | two arenas with the same name are the same arena |
| GameStats.AgentAt | codeclash/games/halite/halite.py:74 | indexing the agents follows Python: an index in [−n, n) succeeds, negative ones counting from the end, anything else raises IndexError |
| GameStats.RoundStats.constructor | codeclash/games/halite/halite.py:61 | a fresh round record has no winner, no scores and no score for any agent |
| Halite.RunCommandRound | codeclash/games/halite/halite.py:22-30 | the run command is "./environment/halite --replaydirectory <log_env>" followed by the argument pieces of "args", or of the empty default_args when "args" is absent; for plain keys its words are the program's followed by the arguments' |
| Halite.SimulationLogsDistinct | codeclash/games/halite/halite.py:32-34 | different simulations of a round redirect to different log files |
| Halite.RankLineMatches | codeclash/games/halite/halite.py:63-72 | the pattern finds the player number and the rank in a line "Player #k, name, came in rank #r" |
| Halite.LastTailFound | codeclash/games/halite/halite.py:63 | the greedy group ends at a place where ", came in rank #<digit>" follows on the same line |
| Halite.LastTailLast | codeclash/games/halite/halite.py:63 | no later such place exists: the group is the longest possible |
| Halite.LastTailNone | codeclash/games/halite/halite.py:63 | when none is found there is no such place at all |
| Halite.LineWinner | codeclash/games/halite/halite.py:69-74 | a line contributes a name only when it ranks someone first, and the name is one of the agents |
| Halite.RankLineWinner | codeclash/games/halite/halite.py:68-74 | a line "Player #k, …, came in rank #1" contributes agents[k−1], and other ranks contribute nothing |
| Halite.LogWinners | codeclash/games/halite/halite.py:68-74 | the names a log contributes are agents |
| Halite.Winners | codeclash/games/halite/halite.py:64-74 | every collected winner is an agent |
| Halite.ScanLog | codeclash/games/halite/halite.py:66-74 | the loop over one log's examined lines appends its rank-1 names, or stops at the first bad player index |
| Halite.CollectWinners | codeclash/games/halite/halite.py:64-74 | the loop over the simulations collects the winners list of the last len(agents)+1 lines of each log, in order |
| Halite.Distinct | codeclash/games/halite/halite.py:77 | the names counted, each once |
| Halite.Counts | codeclash/games/halite/halite.py:77 | the counts have exactly the names ranked first as keys |
| Halite.MaxCount | codeclash/games/halite/halite.py:80 | the maximum count is at least every name's count and reached by some name; 0 with no names |
| Halite.WithCount | codeclash/games/halite/halite.py:81 | the names with exactly the given count |
| Halite.RoundWinnerFails | codeclash/games/halite/halite.py:80-84 | the vote raises exactly when no line ranked anybody first: no tie is returned then |
| Halite.RoundWinnerTie | codeclash/games/halite/halite.py:80-84 | two names sharing the maximum count make the round a tie |
| Halite.RoundWinnerUnique | codeclash/games/halite/halite.py:80-84 | otherwise the winner is a collected name with strictly more first places than any other |
| Halite.SoleTop | codeclash/games/halite/halite.py:81-84 | a name alone at the top count is the winner |
| Halite.GetResults | codeclash/games/halite/halite.py:61-88 | a failed collection or an empty winners list raises and leaves the record unchanged; otherwise the winner is the vote, the scores are the counts of first places, and every counted player other than the tie marker gets its count as score |
| Halite.SetPlayerScores | codeclash/games/halite/halite.py:86-88 | the loop gives every counted player other than the tie marker its count, and changes nothing else |
| Halite.ValidateCode | codeclash/games/halite/halite.py:90-91 | every submission is accepted, without a message |
| BattleCode.NewGame | codeclash/games/battlecode/main.py:13-24 | the constructor fails its assertion exactly when there are not two players; otherwise the run command is "python run.py run" followed by the argument pieces of "args" (none when absent), whose words are the program's followed by the arguments' |
| BattleCode.KeyMatchLeftmost | codeclash/games/battlecode/main.py:32 | the search returns the key of the leftmost position where the pattern matches, and none when it matches nowhere |
| BattleCode.LastCloseFound | codeclash/games/battlecode/main.py:32 | the greedy group ends where ") wins (" follows on the same line |
| BattleCode.LastCloseLast | codeclash/games/battlecode/main.py:32 | no later such place exists: the group is the longest possible |
| BattleCode.LastCloseNone | codeclash/games/battlecode/main.py:32 | when none is found there is no such place at all |
| BattleCode.WinsLineKey | codeclash/games/battlecode/main.py:32-34 | the key of a line "… (X) wins (…" is X |
| BattleCode.DetermineWinner | codeclash/games/battlecode/main.py:26-44 | the winner is the tie marker or one of the two agents, read from the third-to-last line of the stripped output; it raises only when a key matched and there are fewer than two agents |
| BattleCode.LineWinner | codeclash/games/battlecode/battlecode.py:33-41 | a line without a match gives the tie marker, a matched key its agent |
| BattleCode.ShortOutputTie | codeclash/games/battlecode/main.py:28-30 | fewer than three lines give a tie |
| BattleCode.WinnerOfWinsLine | codeclash/games/battlecode/main.py:32-41 | a "(A) wins (" line names the first agent and a "(B) wins (" line the second |
| BattleCode.GetResults | codeclash/games/battlecode/battlecode.py:26-45 | the winner is the one of the single winners entry, and each agent scores 1 if it is the winner and 0 otherwise |
| BattleCode.GetResultsPoints | codeclash/games/battlecode/battlecode.py:42-45 | with two distinct agents the scores sum to 1 for a win and to 0 for a tie |
| BattleCode.CopySubmissions | codeclash/games/battlecode/battlecode.py:48-50 | one copy command per agent, in agent order |
| BattleCode.PlayerArgsFrom | codeclash/games/battlecode/battlecode.py:52 | one argument text "--p{i}-dir src --p{i} name" per agent, numbered from 1 in order |
| BattleCode.PlayerArgWords | codeclash/games/battlecode/battlecode.py:52-53 | an argument text splits into the four words "--p{i}-dir", "src", "--p{i}", name |
| BattleCode.JoinedPlayerWords | codeclash/games/battlecode/battlecode.py:52-53 | joined by spaces, the argument texts give the shell every player's four words in order |
| BattleCode.SwapPermutes | codeclash/games/battlecode/battlecode.py:51 | a swap permutes the agents |
| BattleCode.ShufflePermutes | codeclash/games/battlecode/battlecode.py:51 | the shuffle permutes the agents |
| BattleCode.ShuffleStays | codeclash/games/battlecode/battlecode.py:51 | the shuffle whose every pick is its own index leaves the agents in place |
| BattleCode.Shuffle | codeclash/games/battlecode/battlecode.py:51 | the in-place Fisher–Yates loop leaves the array holding the shuffle of its old contents for the given picks, a permutation of them |
| BattleCode.ExecuteRound | codeclash/games/battlecode/battlecode.py:47-57 | the submissions are copied in the original order, the agents are shuffled in place, the game command lists the shuffled agents and redirects to the log; a non-zero return code fails the assertion |
| BattleCode.QuotedPlayerArg | codeclash/games/battlecode/main.py:52-56 | as written, each argument text holds blanks, so shlex.join wraps it in single quotes: the game receives one argument per player instead of four |
| BattleCode.QuotedGameCommandPieces | codeclash/games/battlecode/main.py:52-56 | every piece of the as-written command is a whole quoted argument text |
| BattleCode.ExecuteRoundOutput | codeclash/games/battlecode/main.py:46-62 | the submissions are copied, the game is run on the agents in their given order with the command `main.py` builds (each player's argument text quoted by `shlex.join`, see Findings), and the output is returned as both the log and the result; a non-zero return code fails the assertion |
| RoboCode.NewGame | codeclash/games/robocode/main.py:17-23 | the run command is "./robocode.sh" followed by one piece per argument of "args" in order: " -key" for a true flag, nothing for a false one and " -key value" otherwise; when no value holds whitespace its words are the program's followed by the arguments' |
| RoboCode.MergeInto | codeclash/games/robocode/main.py:36-41 | merging a user dictionary into a value fails only with the type error of merging into a non-dictionary, and a successful merge keeps the default a dictionary exactly when it was one |
| RoboCode.MergeKeepsDefault | codeclash/games/robocode/main.py:36-41 | a key the user entries do not name keeps its default value |
| RoboCode.MergeStores | codeclash/games/robocode/main.py:40-41 | a user value that is not a dictionary, or whose key the default lacks, replaces the default's value under its key |
| RoboCode.MergeNests | codeclash/games/robocode/main.py:38-39 | a user dictionary under a key the default has is merged recursively into the default's value there |
| RoboCode.MergeIntoNothing | codeclash/games/robocode/main.py:36-41 | merging distinct-keyed user entries into an empty dictionary gives exactly those entries |
| RoboCode.MergeKeepsOrder | codeclash/games/robocode/main.py:36-41 | the default's keys keep their places at the front of the merged dictionary; new keys are appended after them |
| RoboCode.FlattenCount | codeclash/games/robocode/main.py:48-53 | the flattening writes one line per leaf of the nested dictionary |
| RoboCode.FlattenBegins | codeclash/games/robocode/main.py:48-53 | every flattened line starts with "robocode." followed by the dotted path of the dictionaries it lies in |
| RoboCode.FlattenOneLine | codeclash/games/robocode/main.py:48-53 | when no key or leaf text holds a line break, no flattened line holds one |
| RoboCode.DictToLines | codeclash/games/robocode/main.py:48-55 | the recursive walk appends to the lines so far exactly the flattening of the dictionary, in its key order |
| RoboCode.GetBattleConfig | codeclash/games/robocode/main.py:25-56 | the battle configuration is the header line followed by the flattened merge of the user's "battle" section into the defaults, joined by line breaks; it fails, with a type error, exactly when the merge does |
| RoboCode.DefaultConfig | codeclash/games/robocode/main.py:26-33 | with no user section the configuration is the header and the six default settings (10 rounds, gun cooling 0.1, inactivity 450, hidden enemy names, an 800 by 600 field) in that order |
| RoboCode.ConfigLines | codeclash/games/robocode/main.py:43-56 | when no setting holds a line break, splitting the configuration at line breaks gives back the header and the flattened lines |
| RoboCode.DetermineWinner | codeclash/games/robocode/main.py:62-72 | reading the winner can fail only with the index error of a second line with fewer than two words |
| RoboCode.OneLineUnknown | codeclash/games/robocode/main.py:64-72 | an output with no second line after stripping gives the winner "unknown" |
| RoboCode.TableWinner | codeclash/games/robocode/main.py:62-69 | when the second line's second word is an agent's robot pattern "agent.MyTank*", the winner is that agent |
| RoboCode.AllSetupAt | codeclash/games/robocode/main.py:75-83 | the set-up runs four commands per agent, in agent order, command `j` of agent `i` at position `4i + j` |
| RoboCode.RobotPatternAt | codeclash/games/robocode/main.py:86 | agent `i`'s robot pattern is its name followed by ".MyTank*" |
| RoboCode.SelectedRobotsSplit | codeclash/games/robocode/main.py:86 | when no agent name holds a comma, splitting the selected robots at commas gives back the patterns one per agent |
| RoboCode.PatternAgent | codeclash/games/robocode/main.py:67-86 | cutting a robot pattern at its last dot gives back the agent's name, so a winner read from a pattern names the agent |
| RoboCode.BattleTextLines | codeclash/games/robocode/main.py:89-95 | the battle file's lines are the header, the configuration (which starts with the header again), the selected-robots setting and a final empty line |
| RoboCode.SetUpAgents | codeclash/games/robocode/main.py:75-83 | the commands run for the agents are exactly the four set-up commands of each agent in turn |
| RoboCode.ExecuteRound | codeclash/games/robocode/main.py:74-113 | the round first sets up every agent; a failing configuration stops it with a type error and no battle file; otherwise it writes the battle text under the time-stamped name, runs the battle, fails its assertion on a non-zero return code, and returns the battle's output and the results file's contents |
| Dummy.SubmissionPaths | codeclash/arenas/dummy/dummy.py:16 | one submission path per agent, in agent order, each the agent's directory followed by the submission file |
| Dummy.ExecuteRound | codeclash/arenas/dummy/dummy.py:15-19 | a configuration without "sims_per_round" raises a key error before any command; otherwise exactly the engine command runs, and the round succeeds exactly when that command's exit code check passes, failing with its message otherwise |
| Dummy.EngineCommandWords | codeclash/arenas/dummy/dummy.py:16-17 | for names without whitespace the shell reads the command as "python engine.py", one submission path per agent in order, "-r", the simulation count and the redirection into the round log |
| Dummy.EngineCommandJoin | codeclash/games/dummy/dummy_game.py:33-34 | the engine command is those pieces joined by single spaces |
| Dummy.SearchNone | codeclash/arenas/dummy/dummy.py:28 | the search finds no report exactly when the pattern matches at no position of the line |
| Dummy.SearchLeftmost | codeclash/arenas/dummy/dummy.py:28 | a found report is the one at the leftmost position where the pattern matches |
| Dummy.ReportRoundTrip | codeclash/arenas/dummy/dummy.py:28-31 | a line starting "Bot_d_main: n rounds won" reports bot `d` with `n` rounds won, whatever follows |
| Dummy.ParseScores | codeclash/arenas/dummy/dummy.py:26-32 | the loop over the lines computes the scores the lines report, or fails with the first index error |
| Dummy.PrefixFails | codeclash/arenas/dummy/dummy.py:27-32 | once a line has failed, the later lines change nothing: the error is final |
| Dummy.ScoresUnique | codeclash/arenas/dummy/dummy.py:26-32 | the scores hold each player at most once |
| Dummy.ScoresNameAgents | codeclash/arenas/dummy/dummy.py:32 | every scored name is one of the agents |
| Dummy.LaterReportWins | codeclash/arenas/dummy/dummy.py:29-32 | a report for bot `d` within the agents sets agent `d`'s score to its count, replacing any earlier report |
| Dummy.UnknownBotFails | codeclash/arenas/dummy/dummy.py:32 | a report for a bot beyond the last agent raises an index error |
| Dummy.SilentLine | codeclash/arenas/dummy/dummy.py:29 | a line without a report leaves the scores as they were |
| Dummy.TailOnly | codeclash/arenas/dummy/dummy.py:24 | only the lines after the last "FINAL_RESULTS" marker are read |
| Dummy.FirstMax | codeclash/arenas/dummy/dummy.py:34 | the index of the best score lies among the scores considered |
| Dummy.FirstMaxSpec | codeclash/arenas/dummy/dummy.py:34 | that index holds a score no other is above, and every earlier score is strictly below it |
| Dummy.WinnerSpec | codeclash/arenas/dummy/dummy.py:34 | the winner is the first player, in insertion order, with the highest score, as `max(scores, key=scores.get)` chooses |
| Dummy.GetResults | codeclash/arenas/dummy/dummy.py:21-37 | on an index error the round stats are left unchanged; otherwise the winner, the score map and every scored player's score are set from the parsed scores and nothing else changes |
| Dummy.SetPlayerScores | codeclash/arenas/dummy/dummy.py:36-37 | the loop sets exactly the scored players' scores and leaves the winner and the score map alone |
| Dummy.GameResults | codeclash/games/dummy/dummy_game.py:13-30 | the game's results are the winner and the score map of the parsed scores with the details {"dummy": True}, or the index error |
| Dummy.NoReportsUnknown | codeclash/arenas/dummy/dummy.py:34 | a log with no reports gives no scores and the winner "unknown" |
| Dummy.ScoreOfAgent | codeclash/arenas/dummy/dummy.py:35 | the score map holds exactly the scored players, each with its last reported count |
| Dummy.ValidateCode | codeclash/arenas/dummy/dummy.py:39-55 | the submission is valid exactly when the existence check answers "exists", the file is not blank and it compiles; only an invalid one carries a message, and the commands issued stop at the first check that fails |
| Dummy.SyntaxErrorShowsOutput | codeclash/arenas/dummy/dummy.py:52-53 | a syntax error's message ends with the compiler's output |
| PvpTraining.PvpTraining.constructor | codeclash/tournaments/pvp_training.py:18-31 | the driver keeps the cleanup and push flags and holds one agent per configured player, in order, each in the environment named "game.player" and starting at round 1 of the configured rounds; the scoreboard starts empty |
| PvpTraining.FirstRaise | codeclash/tournaments/pvp_training.py:73-75 | the first raising round: every round before it was played, and it raises unless it is the end |
| PvpTraining.Attempted | codeclash/tournaments/pvp_training.py:73-75 | the game is asked for no more rounds than configured |
| PvpTraining.PvpTraining.RunAgent | codeclash/tournaments/pvp_training.py:104-108 | an agent's turn is its pre-run hook, its run and its post-run hook, in that order, and changes nothing else |
| PvpTraining.PvpTraining.RunTrainingRound | codeclash/tournaments/pvp_training.py:79-102 | a training round fails exactly when the game raises, with its error and no scoreboard entry; otherwise it appends (round, winner) to the scoreboard, writes the round log, copies it to every agent and then gives every agent its turn |
| PvpTraining.PvpTraining.CopyLogToAgents | codeclash/tournaments/pvp_training.py:96-97 | the round log is copied to every agent, in list order |
| PvpTraining.PvpTraining.RunAgents | codeclash/tournaments/pvp_training.py:99-100 | every agent takes its turn, in list order |
| PvpTraining.PvpTraining.End | codeclash/tournaments/pvp_training.py:110-118 | the closing step writes the metadata, ends the game with the cleanup flag and, only when pushing is enabled, pushes every agent in order |
| PvpTraining.PvpTraining.RunRounds | codeclash/tournaments/pvp_training.py:73-75 | rounds 1 to the configured count run in order and stop at the first that raises, whose error is the result; the scoreboard gains one entry per played round |
| PvpTraining.PvpTraining.Run | codeclash/tournaments/pvp_training.py:71-77 | the closing step runs after the rounds whether or not one raised, and the first raising round's error is the result |
| PvpTraining.FirstRaiseIs | codeclash/tournaments/pvp_training.py:73-75 | the first raising round is the unique one before which every round was played and which raises itself |
| PvpTraining.BoardAt | codeclash/tournaments/pvp_training.py:88 | when the first `k` rounds were played, the scoreboard holds `k` entries, entry `i` being round `i + 1` and its winner |
| PvpTraining.NoEntryForRaisingRound | codeclash/tournaments/pvp_training.py:82-88 | the raising round adds no scoreboard entry, and every entry names a round before it |
| PvpTraining.TurnsAt | codeclash/tournaments/pvp_training.py:99-100 | agent `i`'s turn occupies the three actions starting at `3i` |
| PvpTraining.TurnsOnlyHooks | codeclash/tournaments/pvp_training.py:104-108 | an agents' turn asks only for hooks and runs |
| PvpTraining.CopiesPrecedeTurns | codeclash/tournaments/pvp_training.py:95-100 | in a played round every log copy comes before every agent's turn |
| PvpTraining.EveryAgentServed | codeclash/tournaments/pvp_training.py:95-100 | in a played round every agent receives the log and both hooks |
| PvpTraining.OneRoundEach | codeclash/tournaments/pvp_training.py:82 | a training round asks the game for exactly its own round |
| PvpTraining.NoEndInRound | codeclash/tournaments/pvp_training.py:79-102 | a training round never ends the game |
| PvpTraining.RoundsInOrder | codeclash/tournaments/pvp_training.py:74-75 | the game is asked for rounds 1, 2, … in order, each once |
| PvpTraining.NoEndWhileRounds | codeclash/tournaments/pvp_training.py:73-75 | the game is not ended while the rounds run |
| PvpTraining.EndOnce | codeclash/tournaments/pvp_training.py:76-115 | a whole run ends the game exactly once |
| GitDiff.NextHeader | codeclash/tournaments/utils/git_utils.py:19 | the index found is the first line from the starting point that opens a file section, or the end when none does |
| GitDiff.IsBinaryBlock | codeclash/tournaments/utils/git_utils.py:9-16 | a block is binary exactly when one of its lines starts "Binary files " or is "GIT binary patch" once stripped |
| GitDiff.FilterGitDiff | codeclash/tournaments/utils/git_utils.py:1-37 | the filtered diff is the lines before the first "diff --git " header followed by the file sections that are not binary, in order and verbatim |
| GitDiff.FilterLineList | codeclash/tournaments/utils/git_utils.py:18-35 | the one-pass loop with its open block and the final flush keeps exactly the prelude and the non-binary sections |
| GitDiff.ScanMeaning | codeclash/tournaments/utils/git_utils.py:18-31 | after any number of lines the loop has copied the prelude, filtered every closed section into the output, and holds the open section from its header on |
| GitDiff.ScanComplete | codeclash/tournaments/utils/git_utils.py:33-35 | flushing the last open section, unless it is binary, completes the filtered lines |
| GitDiff.CloseBlock | codeclash/tournaments/utils/git_utils.py:20-23 | closing a section at the next header extends the output by that section exactly when it is not binary |
| GitDiffFacts.FilterLinesSub | codeclash/tournaments/utils/git_utils.py:1-37 | filtering only leaves lines out: the output is the input with some lines removed, the rest in their order |
| GitDiffFacts.FilterLinesBlocks | codeclash/tournaments/utils/git_utils.py:1-35 | a file section appears in the output exactly when it is a section of the input without binary content |
| GitDiffFacts.FilterLinesIdempotent | codeclash/tournaments/utils/git_utils.py:1-37 | filtering a filtered diff changes nothing more |
| GitDiffFacts.NoSectionsUnchanged | codeclash/tournaments/utils/git_utils.py:25-37 | a diff without any file section comes back unchanged |
| GitDiffFacts.BlocksCover | codeclash/tournaments/utils/git_utils.py:18-29 | cutting the lines from the first header on into sections loses and adds nothing |
| GitDiffFacts.KeptMembers | codeclash/tournaments/utils/git_utils.py:21-35 | a section is kept exactly when it is one of the sections and has no binary line |
| FileHistory.ExtractActionSpec | codeclash/analysis/viz/scatter_codebase_organization.py:53-58 | a message yields an action exactly when it holds a ```bash … ``` fence, and the action is the stripped text of the first such fence |
| FileHistory.GetActions | codeclash/analysis/viz/scatter_codebase_organization.py:50-68 | a message without a "role" key makes the collection fail with KeyError("role"), and only then; otherwise the actions are collected from the assistant messages in order, one per message with a fence |
| FileHistory.ActionsOfSnoc | codeclash/analysis/viz/scatter_codebase_organization.py:61-67 | a message appended to the trajectory adds its own action, if any, at the end of the actions |
| FileHistory.ActionsAtMostAssistants | codeclash/analysis/viz/scatter_codebase_organization.py:61-68 | there are no more actions than assistant messages |
| FileHistory.ActionFromAssistant | codeclash/analysis/viz/scatter_codebase_organization.py:61-68 | every action comes from some assistant message's fence |
| FileHistory.Paths | codeclash/analysis/viz/scatter_codebase_organization.py:163 | the diff's paths, one per patched file, in order |
| FileHistory.RecordRound | codeclash/analysis/viz/scatter_codebase_organization.py:117-174 | one round's loop applies the diff's files in order, then records a reference for each mention, by an action of the round, of a file's base name among the files the diff left untouched |
| FileHistory.BinaryIgnored | codeclash/analysis/viz/scatter_codebase_organization.py:131-133 | a binary file leaves the history unchanged |
| FileHistory.RecordedAtPath | codeclash/analysis/viz/scatter_codebase_organization.py:135-160 | an added, removed or modified file appends one created, deleted or modified entry, with its line counts, to its own path's history and to no other |
| FileHistory.RenameMoves | codeclash/analysis/viz/scatter_codebase_organization.py:146-157 | a rename moves the old name's history to the new name, drops the old name, appends a renamed entry and touches no other file |
| FileHistory.RenameWithoutHistory | codeclash/analysis/viz/scatter_codebase_organization.py:152-157 | a rename whose old name has no history only appends the renamed entry under the new name |
| FileHistory.AppendEntryLookup | codeclash/analysis/viz/scatter_codebase_organization.py:143 | appending an entry extends that file's history by it, creating the file when absent, and leaves every other history alone |
| FileHistory.NoNamesNoReferences | codeclash/analysis/viz/scatter_codebase_organization.py:163-164 | when every file was touched by the diff, no reference is recorded |
| FileHistory.ReferenceActionsLookup | codeclash/analysis/viz/scatter_codebase_organization.py:169-174 | a file gains one referenced entry per action that mentions its base name, times the number of times it is listed |
| FileHistory.UntouchedOccurrences | codeclash/analysis/viz/scatter_codebase_organization.py:163 | the untouched files are listed once each: exactly the history's files the diff does not name |
| FileHistory.ApplyPatchUnique | codeclash/analysis/viz/scatter_codebase_organization.py:130-160 | applying a diff keeps every file name in the history at most once |
| FileHistory.RoundReferences | codeclash/analysis/viz/scatter_codebase_organization.py:162-174 | after the round, a file's history is its history after the diff, plus one referenced entry per mentioning action when the diff left it untouched |
| CodeOrganization.Existing | codeclash/analysis/viz/scatter_codebase_organization.py:193 | the surviving files are among the files of the history |
| CodeOrganization.ExistingMembers | codeclash/analysis/viz/scatter_codebase_organization.py:193 | a file survives exactly when it is in the history and none of its entries is a deletion |
| CodeOrganization.HasDeletedIff | codeclash/analysis/viz/scatter_codebase_organization.py:193 | a history has a deletion exactly when one of its entries is a deletion |
| CodeOrganization.LastRoundSpec | codeclash/analysis/viz/scatter_codebase_organization.py:198-199 | a file's last round is the largest round among its entries |
| CodeOrganization.LatestRoundSpec | codeclash/analysis/viz/scatter_codebase_organization.py:198 | the latest round is the largest last round over the files |
| CodeOrganization.ActiveCount | codeclash/analysis/viz/scatter_codebase_organization.py:199 | no more files are active than there are files |
| CodeOrganization.ActiveFileRatioFails | codeclash/analysis/viz/scatter_codebase_organization.py:193-199 | the active file ratio fails exactly when some surviving file has no entry, which makes `max` raise |
| CodeOrganization.ActiveFileRatioNone | codeclash/analysis/viz/scatter_codebase_organization.py:190-196 | the ratio is absent, with zero counts, exactly when no file survives |
| CodeOrganization.ActiveFileRatioBounds | codeclash/analysis/viz/scatter_codebase_organization.py:198-202 | the total is the number of surviving files, the active files are at most that many, and with `N` at least 1 at least one file (the latest) is active, so the ratio lies in (0, 1] |
| CodeOrganization.ActiveCountPositive | codeclash/analysis/viz/scatter_codebase_organization.py:199 | a file touched at or after the cut-off round makes the active count positive |
| CodeOrganization.RootCount | codeclash/analysis/viz/scatter_codebase_organization.py:242 | no more root files than files |
| CodeOrganization.RootClutterRange | codeclash/analysis/viz/scatter_codebase_organization.py:236-245 | the root clutter ratio is absent exactly when no file survives; otherwise it lies in [0, 1] over all surviving files |
| CodeOrganization.RootClutterExtremes | codeclash/analysis/viz/scatter_codebase_organization.py:242 | the ratio counts every surviving file when none has a "/", and none when all have one |
| CodeOrganization.ChurnValues | codeclash/analysis/viz/scatter_codebase_organization.py:279-289 | only files with positive churn are counted |
| CodeOrganization.LargestSum | codeclash/analysis/viz/scatter_codebase_organization.py:298-299 | the top churns of a positive list have a positive sum no larger than the whole |
| CodeOrganization.LargestAreLargest | codeclash/analysis/viz/scatter_codebase_organization.py:299 | the churns taken are at least as large as every one left out |
| CodeOrganization.ChurnConcentrationSpec | codeclash/analysis/viz/scatter_codebase_organization.py:275-309 | the concentration is absent exactly when no file has churn; otherwise the top group holds a tenth of the changed files (at least one), the total churn is the sum over them, and the concentration lies in (0, 1] |
| CodeOrganization.ChurnTotalCounts | codeclash/analysis/viz/scatter_codebase_organization.py:285-294 | counting modification events, the total churn is the number of modification entries of the history |
| CodeReuse.FirstCreation | codeclash/analysis/viz/scatter_codebase_organization.py:433-438 | the search returns the round of the first creation entry, or none when the file was never created |
| CodeReuse.CreationRoundSpec | codeclash/analysis/viz/scatter_codebase_organization.py:433-442 | there is no creation round exactly when no entry is a creation; otherwise it is the round of the first creation entry |
| CodeReuse.TouchedAfter | codeclash/analysis/viz/scatter_codebase_organization.py:446-450 | the search answers whether some entry modifies, references or renames the file after its creation round |
| CodeReuse.ReusedAfterIff | codeclash/analysis/viz/scatter_codebase_organization.py:448 | a file is reused exactly when one of its entries is a modification, reference or rename in a round after its creation |
| CodeReuse.ScanReuse | codeclash/analysis/viz/scatter_codebase_organization.py:426-450 | the loop records exactly the created files, each with its creation round, and exactly the reused ones |
| CodeReuse.ReuseStep | codeclash/analysis/viz/scatter_codebase_organization.py:429-450 | each file adds itself to the created files when it has a creation entry, and to the reused files when it is also reused after it |
| CodeReuse.ReusedAreCreated | codeclash/analysis/viz/scatter_codebase_organization.py:444-450 | every reused file is a created file |
| CodeReuse.ReusedNamesIff | codeclash/analysis/viz/scatter_codebase_organization.py:444-450 | a name is reused exactly when some file of that name has a creation entry and a later touch |
| CodeReuse.FileReuseRatio | codeclash/analysis/viz/scatter_codebase_organization.py:417-459 | the reuse report counts the created and the reused files and their ratio |
| CodeReuse.ReuseOfSpec | codeclash/analysis/viz/scatter_codebase_organization.py:423-459 | the reuse ratio is absent exactly when no file was created; otherwise no more files are reused than created and the ratio lies in [0, 1] |
| CodeReuse.LeadingWord | codeclash/analysis/viz/scatter_codebase_organization.py:503 | the prefix matched is a leading part of the base name |
| CodeReuse.FilenameRedundancy | codeclash/analysis/viz/scatter_codebase_organization.py:490-517 | the redundancy report is that of the surviving names grouped by their lower-cased leading run of letters and underscores |
| CodeReuse.AddNameSpec | codeclash/analysis/viz/scatter_codebase_organization.py:503-508 | adding a file keeps one group per prefix and no empty group, and grows the groups by one file exactly when its base name has a prefix |
| CodeReuse.GroupFromSpec | codeclash/analysis/viz/scatter_codebase_organization.py:500-508 | grouping the files keeps the prefixes distinct and places exactly the files with a prefix |
| CodeReuse.RedundantBySize | codeclash/analysis/viz/scatter_codebase_organization.py:511 | the redundant files are the grouped files less one per group |
| CodeReuse.RedundancyOfSpec | codeclash/analysis/viz/scatter_codebase_organization.py:490-517 | the ratio is absent exactly when fewer than two files survive; otherwise the redundant files are the files with a prefix less one per group, fewer than all files, and the ratio lies in [0, 1) |
| CodeReuse.UpTo | codeclash/analysis/viz/scatter_codebase_organization.py:540 | a snapshot keeps only entries of the history up to the round |
| CodeReuse.NonEmpty | codeclash/analysis/viz/scatter_codebase_organization.py:533 | the files considered for the latest round all have entries |
| CodeReuse.Snapshot | codeclash/analysis/viz/scatter_codebase_organization.py:538-542 | the snapshot loop keeps exactly the files with an entry up to the round, each with those entries |
| CodeReuse.SnapshotSpec | codeclash/analysis/viz/scatter_codebase_organization.py:538-542 | every entry of a snapshot lies at or before its round |
| CodeReuse.RedundancyOverRounds | codeclash/analysis/viz/scatter_codebase_organization.py:520-552 | an empty history gives no rows; one whose files all lack entries makes `max` raise; otherwise there is one row per round from 1 to the latest round |
| CodeReuse.RoundRows | codeclash/analysis/viz/scatter_codebase_organization.py:536-550 | the loop over the rounds yields, in order, the rows of the rounds whose report has a ratio |
| CodeReuse.RoundRowsSpec | codeclash/analysis/viz/scatter_codebase_organization.py:536-550 | the rows lie between round 1 and the latest round, in strictly increasing round order, each with at least two files and a ratio in [0, 1) |
| CodeReuse.RoundHasRow | codeclash/analysis/viz/scatter_codebase_organization.py:545-550 | a round has a row exactly when at least two files survive in its snapshot |
| ThrowawayFiles.HexDigitValue | codeclash/analysis/viz/throwaway_files_bar_chart.py:27 | a hexadecimal digit has a value below 16 |
| ThrowawayFiles.ParseHex | codeclash/analysis/viz/throwaway_files_bar_chart.py:27 | `int(s, 16)` of a non-empty run of hexadecimal digits is its base-16 value |
| ThrowawayFiles.Slice | codeclash/analysis/viz/throwaway_files_bar_chart.py:27 | a clipped slice is no longer than its bounds allow |
| ThrowawayFiles.DarkIff | codeclash/analysis/viz/throwaway_files_bar_chart.py:29-30 | the luminance is below one half exactly when 299 r + 587 g + 114 b is below 127500 |
| ThrowawayFiles.HexByteValue | codeclash/analysis/viz/throwaway_files_bar_chart.py:27 | a channel written as two hexadecimal digits parses back to its value |
| ThrowawayFiles.TextColorOfRgb | codeclash/analysis/viz/throwaway_files_bar_chart.py:24-30 | every "#rrggbb" colour parses, and gets white text exactly when its weighted channel sum is below half the maximum, black otherwise |
| ThrowawayFiles.TextColorOf | codeclash/analysis/viz/throwaway_files_bar_chart.py:26-30 | whenever the three channels parse, the text colour is decided by the weighted sum alone |
| ThrowawayFiles.DarkerStaysWhite | codeclash/analysis/viz/throwaway_files_bar_chart.py:29-30 | darkening a colour that gets white text keeps white text |
| ThrowawayFiles.BlackGetsWhite | codeclash/analysis/viz/throwaway_files_bar_chart.py:30 | black gets white text |
| ThrowawayFiles.WhiteGetsBlack | codeclash/analysis/viz/throwaway_files_bar_chart.py:30 | white gets black text |
| ThrowawayFiles.ShortColorFails | codeclash/analysis/viz/throwaway_files_bar_chart.py:26-27 | a colour with fewer than five characters after the '#' has an empty blue channel, which `int` rejects |
| ThrowawayFiles.LaterEntryScan | codeclash/analysis/viz/throwaway_files_bar_chart.py:68-72 | the search finds an entry of any kind after the creation round exactly when one exists |
| ThrowawayFiles.CountThrowawayFiles | codeclash/analysis/viz/throwaway_files_bar_chart.py:33-81 | the two counts are the numbers of throwaway files at the root and below it |
| ThrowawayFiles.ThrowawayAtMostFiles | codeclash/analysis/viz/throwaway_files_bar_chart.py:48-79 | each file is counted at most once, so the two counts add up to at most the number of files |
| ThrowawayFiles.ThrowawayIff | codeclash/analysis/viz/throwaway_files_bar_chart.py:52-74 | a file is a throwaway exactly when its first creation entry lies before the threshold round and no entry lies in a later round |
| ThrowawayFiles.ThrowawayNotReused | codeclash/analysis/viz/throwaway_files_bar_chart.py:67-72 | a throwaway file is never reused after its creation |
| ThrowawayFiles.ThresholdMonotone | codeclash/analysis/viz/throwaway_files_bar_chart.py:62-64 | raising the threshold round never lowers a count |
| CreatedFiles.ExtensionSpec | codeclash/analysis/viz/line_chart_total_created_files_vs_round.py:39-42 | a name with a dot has as extension the text after its last dot, which holds no dot; a name without one has "no_extension" |
| CreatedFiles.CountByExtension | codeclash/analysis/viz/line_chart_total_created_files_vs_round.py:28-44 | the loop tallies, per extension in order of first appearance, the files created at or before the target round |
| CreatedFiles.TallyTotal | codeclash/analysis/viz/line_chart_total_created_files_vs_round.py:44 | tallying one file raises the total by one |
| CreatedFiles.TallyGet | codeclash/analysis/viz/line_chart_total_created_files_vs_round.py:44 | tallying a file raises its own extension's count by one, creating the extension when new, and no other |
| CreatedFiles.CountsTotal | codeclash/analysis/viz/line_chart_total_created_files_vs_round.py:29-44 | the counts add up to the number of files created at or before the target round |
| CreatedFiles.ExtensionCountsSpec | codeclash/analysis/viz/line_chart_total_created_files_vs_round.py:29-44 | each extension's count is the number of such files with that extension, and an extension appears exactly when it has one |
| CreatedFiles.CountedMonotone | codeclash/analysis/viz/line_chart_total_created_files_vs_round.py:37 | a later target round never counts fewer files |
| CreatedFiles.AtMost | codeclash/analysis/viz/line_chart_total_created_files_vs_round.py:86 | a cumulative count is at most the number of creation entries |
| CreatedFiles.AppendCreated | codeclash/analysis/viz/line_chart_total_created_files_vs_round.py:80-82 | the inner loop appends a file's creation rounds in entry order |
| CreatedFiles.CollectCreated | codeclash/analysis/viz/line_chart_total_created_files_vs_round.py:78-82 | the creation rounds are those of every creation entry of every file, in order |
| CreatedFiles.CumulativeCreated | codeclash/analysis/viz/line_chart_total_created_files_vs_round.py:85-89 | one row per round from 0 to the last round, each counting the creation entries at or before it; none for a negative last round |
| CreatedFiles.AtMostMonotone | codeclash/analysis/viz/line_chart_total_created_files_vs_round.py:86 | the cumulative count never decreases from one round to the next |
| CreatedFiles.AtMostConcat | codeclash/analysis/viz/line_chart_total_created_files_vs_round.py:86 | the count over two lists of rounds is the sum of their counts |
| CreatedFiles.CumulativeCoversCounted | codeclash/analysis/viz/line_chart_total_created_files_vs_round.py:84-86 | the cumulative count at a round is at least the number of files the extension count takes at that round, since every creation entry is counted and not just the first |
| CreatedFiles.AtMostAll | codeclash/analysis/viz/line_chart_total_created_files_vs_round.py:86 | once the round passes every creation, every creation is counted |
| TrimmedMean.Keep | codeclash/analysis/viz/line_chart_per_round_specific.py:162 | at least one value is kept and never more than all; with two or more values and a share below 100% at least one is dropped |
| TrimmedMean.RoundAverages | codeclash/analysis/viz/line_chart_per_round_specific.py:151-167 | one average per round: each round's list, padded with empty lists and cut to the number of rounds, averaged by the trimmed mean |
| TrimmedMean.AveragesAt | codeclash/analysis/viz/line_chart_per_round_specific.py:153-166 | the averages, built round by round, hold at index `k` the trimmed mean of round `k`'s list |
| TrimmedMean.Pad | codeclash/analysis/viz/line_chart_per_round_specific.py:153-154 | the padded lists hold every round, each round's list as given or empty when missing |
| TrimmedMean.Average | codeclash/analysis/viz/line_chart_per_round_specific.py:158-166 | one round's average is the trimmed mean of its values, 0 for none |
| TrimmedMean.MeanBounds | codeclash/analysis/viz/line_chart_per_round_specific.py:164 | a mean lies between any lower and upper bound of its values |
| TrimmedMean.TrimmedBounds | codeclash/analysis/viz/line_chart_per_round_specific.py:158-166 | the trimmed mean lies between any lower and upper bound of the round's values |
| TrimmedMean.TrimmedAtMostMean | codeclash/analysis/viz/line_chart_per_round_specific.py:160-164 | dropping the largest values never raises the mean: the trimmed mean is at most the plain mean |
| TrimmedMean.SortedPrefixMean | codeclash/analysis/viz/line_chart_per_round_specific.py:161-163 | the mean of the smallest values of a sorted list is at most the mean of the whole list |
| PerRoundChanges.CountChanged | codeclash/analysis/viz/line_chart_per_round_specific.py:55-59 | a file's count is its number of added and removed lines |
| PerRoundChanges.LinesChanged | codeclash/analysis/viz/line_chart_per_round_specific.py:41-68 | a diff that does not parse counts nothing; an arena without a submission entry raises a key error; otherwise every file's added and removed lines go to README_agent.md when that is its path, else to the submission when its path contains the arena's submission name, else to the others |
| PerRoundChanges.ChangesFromBuckets | codeclash/analysis/viz/line_chart_per_round_specific.py:54-66 | each bucket's count is the changed lines of exactly the files classified into it |
| PerRoundChanges.BucketsPartition | codeclash/analysis/viz/line_chart_per_round_specific.py:61-66 | every changed line is counted in exactly one bucket |
| PerRoundChanges.LinesChangedSpec | codeclash/analysis/viz/line_chart_per_round_specific.py:54-66 | the three counts add up to all changed lines of the diff, each being its bucket's share |
| PerRoundChanges.ReadmeFirst | codeclash/analysis/viz/line_chart_per_round_specific.py:61-63 | README_agent.md always counts as the README, even for a submission name it contains |
| PerRoundChanges.ChangesRoundFromSpec | codeclash/analysis/viz/line_chart_per_round_specific.py:113-116 | the round read from a file name is the digits after the leftmost "changes_r" followed by digits and ".json", and none when there is no such place |
| PerRoundChanges.ChangesRoundOf | codeclash/analysis/viz/line_chart_per_round_specific.py:113-116 | "changes_rN.json" gives round N |
| PerRoundChanges.EmptySeries | codeclash/analysis/viz/line_chart_per_round_specific.py:100-106 | a new model starts with one empty list per round for each of the three buckets |
| PerRoundChanges.AddChangesFile | codeclash/analysis/viz/line_chart_per_round_specific.py:111-133 | a changes file fails exactly when it is read (a round from 1 to 15 and a non-empty diff), its diff parses, and the arena has no submission entry |
| PerRoundChanges.AddChangesFileSpec | codeclash/analysis/viz/line_chart_per_round_specific.py:113-133 | a changes file that is read appends to every bucket's list of its round exactly one count, the changed lines of that bucket's files in the parsed diff (0 when the diff does not parse), and changes no other list |
| PerRoundChanges.CollectChanges | codeclash/analysis/viz/line_chart_per_round_specific.py:110-133 | the loop over one player's changes files applies them in order and stops at the first error |
| PerRoundChanges.AddAllCounts | codeclash/analysis/viz/line_chart_per_round_specific.py:110-133 | every round's list becomes its earlier counts followed by, in file order, each read file's count for that bucket, so it grows by one per file read for that round |
| PerRoundChanges.ChangeAverages | codeclash/analysis/viz/line_chart_per_round_specific.py:138-167 | a bucket's averages are the 95% trimmed means of its round lists, one per round |
| ThoughtLength.FirstCi | codeclash/analysis/viz/line_chart_thought_length_per_round.py:18 | the position found is the first, from the start point, where the pattern matches ignoring case; none when it matches nowhere |
| ThoughtLength.ThoughtWordsSpec | codeclash/analysis/viz/line_chart_thought_length_per_round.py:16-22 | a message yields a length exactly when "THOUGHT:", in any case, is followed by at least one character and then "```bash"; the length is the number of words in the stripped text between, for the leftmost start and the nearest fence |
| ThoughtLength.Leftmost | codeclash/analysis/viz/line_chart_thought_length_per_round.py:18 | the first "thought:" and the first fence at least one character after it form the match the lazy pattern finds |
| ThoughtLength.NoFence | codeclash/analysis/viz/line_chart_thought_length_per_round.py:18-20 | without a fence after the first "thought:" the pattern matches nowhere |
| ThoughtLength.Contribution | codeclash/analysis/viz/line_chart_thought_length_per_round.py:66-73 | a message contributes at most one length |
| ThoughtLength.MessageThought | codeclash/analysis/viz/line_chart_thought_length_per_round.py:66-73 | a message contributes its thought length when it is the assistant's and matches, nothing when it is not the assistant's or does not match, and a type error when its content is a list |
| ThoughtLength.ThoughtLengths | codeclash/analysis/viz/line_chart_thought_length_per_round.py:66-73 | the loop over the messages collects their contributions in order, stopping at the first error |
| ThoughtLength.LengthsOfSpec | codeclash/analysis/viz/line_chart_thought_length_per_round.py:66-73 | the collection fails exactly when some assistant message has list content; otherwise it holds one length per assistant message with a thought, each from one of the messages |
| ThoughtLength.ThoughtfulAtMost | codeclash/analysis/viz/line_chart_thought_length_per_round.py:66-73 | there are no more lengths than messages |
| ThoughtLength.TrajRoundOf | codeclash/analysis/viz/line_chart_thought_length_per_round.py:49-54 | a file named "player_rN.traj.json" gives round N |
| ThoughtLength.LastMarker | codeclash/analysis/viz/line_chart_thought_length_per_round.py:49 | the name is split at its last "_r" |
| ThoughtLength.AddTrajectory | codeclash/analysis/viz/line_chart_thought_length_per_round.py:48-73 | adding a trajectory keeps one list per round |
| ThoughtLength.AddLengthsSpec | codeclash/analysis/viz/line_chart_thought_length_per_round.py:57-73 | the lengths of a trajectory whose round is `k + 1` are appended to round `k`'s list; other rounds are unchanged |
| ThoughtLength.AddTrajectorySpec | codeclash/analysis/viz/line_chart_thought_length_per_round.py:48-73 | a trajectory of round `k + 1` grows that round's list by one length per thoughtful assistant message, keeping its earlier lengths in front, and leaves the other rounds alone |
| ThoughtLength.CollectThoughts | codeclash/analysis/viz/line_chart_thought_length_per_round.py:48-73 | the loop over the trajectory files adds them in order and stops at the first error |
| ThoughtLength.AddTrajectoriesCounts | codeclash/analysis/viz/line_chart_thought_length_per_round.py:46-73 | every round's list grows by the thought lengths of the files of that round, keeping its earlier lengths in front |
| ThoughtLength.ThoughtAverages | codeclash/analysis/viz/line_chart_thought_length_per_round.py:83-99 | the averages are the 99% trimmed means of the round lists, one per round |
| PerModel.ReturnCodeFromNone | codeclash/analysis/stats/per_model.py:105 | no return code is found exactly when "<returncode>digits</returncode>" occurs nowhere in the text |
| PerModel.ReturnCodeOf | codeclash/analysis/stats/per_model.py:105-109 | a text starting "<returncode>N</returncode>" reports return code N |
| PerModel.FirstOpener | codeclash/analysis/stats/per_model.py:116 | the opener found is the first "```bash" or "```sh" line start from the start point, and none when there is none |
| PerModel.BashBlockSpec | codeclash/analysis/stats/per_model.py:116-119 | a bash block is found exactly when an opener is followed later by a closing fence on its own line, and the block is the text between the leftmost opener and the nearest such fence |
| PerModel.FirstBlock | codeclash/analysis/stats/per_model.py:116 | the first opener and the first closing fence after it form the match the lazy pattern finds |
| PerModel.NoClosing | codeclash/analysis/stats/per_model.py:116-118 | without a closing fence after the first opener the pattern matches nowhere |
| PerModel.CommandType | codeclash/analysis/stats/per_model.py:119-120 | a blank command has type "unknown"; otherwise its type is one word |
| PerModel.CommandTypeOfWords | codeclash/analysis/stats/per_model.py:119-120 | a command's type is its first word |
| PerModel.OutcomeSpec | codeclash/analysis/stats/per_model.py:93-124 | a failure is counted exactly when a user message after the first reports a non-zero return code and the message before it is an assistant's holding a bash block |
| PerModel.Outcomes | codeclash/analysis/stats/per_model.py:93 | one outcome per message, in order |
| PerModel.FoldSpec | codeclash/analysis/stats/per_model.py:91-126 | the statistics fail exactly when a message raises, with the first such error; otherwise they count every failure once and the counts by type add up to the failures |
| PerModel.FailuresAtMostSteps | codeclash/analysis/stats/per_model.py:93-124 | a trajectory has no more failed commands than steps |
| PerModel.StatsOfSpec | codeclash/analysis/stats/per_model.py:87-127 | the counts by type add up to the failures, which are at most the steps |
| PerModel.StatsErrors | codeclash/analysis/stats/per_model.py:98-116 | when every message has a role, the only error is the type error of searching a list content |
| PerModel.FailureAt | codeclash/analysis/stats/per_model.py:94-124 | the loop body for message `i` yields that message's outcome |
| PerModel.TrajectoryAnalyzer.constructor | codeclash/analysis/stats/per_model.py:67-78 | an unreadable file leaves no messages; nothing is cached yet |
| PerModel.TrajectoryAnalyzer.Steps | codeclash/analysis/stats/per_model.py:80-84 | the steps are the assistant messages, or the key error of a message without a role; a cached value is returned as it is and a computed one cached |
| PerModel.TrajectoryAnalyzer.FailureStatistics | codeclash/analysis/stats/per_model.py:86-127 | the statistics are those the messages give; a cached value is returned as it is and a computed one cached |
| PerModel.CollectFailures | codeclash/analysis/stats/per_model.py:91-126 | the loop over the messages computes the statistics the messages give |
| PerModel.RecordFailure | codeclash/analysis/stats/per_model.py:122-124 | a failure raises the count by one and its type's count by one |
| PerModel.ProcessTrajectory | codeclash/analysis/stats/per_model.py:130-148 | a trajectory whose steps raise a key error gives no result; otherwise the result is the model, the steps and the statistics, or the type error the statistics raise |
| PerModel.ProcessTrajectorySpec | codeclash/analysis/stats/per_model.py:140-148 | a processed trajectory can fail only with a type error, and its counts by type add up to its failures, which are at most its steps |
| PerModel.UnreadableTrajectory | codeclash/analysis/stats/per_model.py:72-74 | an unreadable file gives zero steps and no failures |
| PerModel.ModelName | codeclash/analysis/stats/per_model.py:161-163 | a model's name holds no "/" |
| PerModel.ModelProfile.constructor | codeclash/analysis/stats/per_model.py:30-35 | a new profile has no steps, failures or tournaments |
| PerModel.ModelProfile.AddTournament | codeclash/analysis/stats/per_model.py:170 | adding a tournament appends its name and changes nothing else |
| PerModel.ModelProfile.AddResult | codeclash/analysis/stats/per_model.py:186-191 | adding a result appends its steps, adds its failures and merges its counts by type, keeping the counts' sum equal to the failures and at most the steps |
| PerModel.MergeCounts | codeclash/analysis/stats/per_model.py:190-191 | merging adds each type's count to the existing one |
| PerModel.MergeTotal | codeclash/analysis/stats/per_model.py:190-191 | merged counts add up to the sum of both |
| PerModel.MergeCount | codeclash/analysis/stats/per_model.py:190-191 | each type's merged count is its old count plus every count for it merged in |
| PerModel.StepsPerRound | codeclash/analysis/stats/per_model.py:38-39 | a profile without steps has 0 steps per round |
| PerModel.ZeroStepsDivide | codeclash/analysis/stats/per_model.py:46-47 | as written, a profile whose only trajectory has zero steps divides by zero |
| PerModel.CmdFailureRateSpec | codeclash/analysis/stats/per_model.py:46-47 | the corrected rate is defined for every profile, lies in [0, 1] when the failures are at most the steps, and agrees with the written rate wherever that is defined |
| PerModel.SecondFieldOf | codeclash/analysis/stats/per_model.py:55 | a tournament named "prefix.game.rest" counts for its game |
| PerModel.TournamentCountSpec | codeclash/analysis/stats/per_model.py:53-55 | the count fails exactly when a tournament name has no "."; otherwise each game counts its tournaments and the counts add up to the number of tournaments |
| Hallucination.ValidateIncident | codeclash/analysis/llm_as_judge/hallucination.py:47-53 | an incident is accepted exactly when its claim category is one of the eight claim categories and its source category one of the six source categories; otherwise a ValueError |
| Hallucination.DataIdVersion | codeclash/analysis/llm_as_judge/hallucination.py:102-103 | the data id is "hallucination_v" followed by the version's decimal digits, and those digits parse back to the version |
| Hallucination.DataIdInjective | codeclash/analysis/llm_as_judge/hallucination.py:102-103 | two versions with the same data id are the same version |
| Hallucination.FormatTrajectory | codeclash/analysis/llm_as_judge/hallucination.py:125-139 | the loop computes the rendering `Rendered(messages, 0)`: the assertion on a list content of length other than one and the missing "role" key are its errors (missing "content" and "text" keys are not modelled) |
| Hallucination.RenderedFails | codeclash/analysis/llm_as_judge/hallucination.py:129-134 | for messages that carry their content (and a text in every list part), rendering fails exactly when some message has a list content of length other than one or no role, and then with the error of the first such message |
| Hallucination.RenderedPieces | codeclash/analysis/llm_as_judge/hallucination.py:127-139 | when it succeeds, the rendering is the concatenation of one piece per message, message j numbered by the count of assistant messages before it, so steps are numbered 0, 1, 2, … in order |
| Hallucination.PieceShapes | codeclash/analysis/llm_as_judge/hallucination.py:134-138 | an assistant message becomes a `<step index="n">` block around its text, a user message its text verbatim, any other role nothing |
| Hallucination.Pieces | codeclash/analysis/llm_as_judge/hallucination.py:129-138 | one piece per message, piece j being message j rendered after the assistant messages before it |
| Transparent.TalliedCounts | codeclash/analysis/transparent/main.py:13-27 | a tally has a key exactly when it had one or the events mention it, and each key's (hits, total) grows by the number of its events that hit and the number of its events |
| Transparent.TalliedAppend | codeclash/analysis/transparent/main.py:16-27 | tallying two runs of events is tallying the first and then the second: the counts of the folders accumulate one after another |
| Transparent.TalliedConsistent | codeclash/analysis/transparent/main.py:25-27 | tallying keeps every key's hits at most its total |
| Transparent.Rate | codeclash/analysis/transparent/main.py:66 | a rate is 0 when there is no round, and lies in [0, 1] when the hits do not exceed the total |
| Transparent.CountRound | codeclash/analysis/transparent/main.py:20-27 | counting one round adds one round for every scored player and one win for the player that is the winner; the "overall" entry counts nothing |
| Transparent.CountFolder | codeclash/analysis/transparent/main.py:20-27 | counting a tournament's rounds is tallying their events in order |
| Transparent.ComputeWinRates | codeclash/analysis/transparent/main.py:12-29 | a player has a win rate exactly when it was scored in some round, and its rate is its wins over its scored rounds, in [0, 1] |
| Transparent.RatesOfTally | codeclash/analysis/transparent/main.py:29 | the rates of a tally from nothing are defined exactly for the players with events, each the share of its events that are wins |
| Transparent.ExploitationAdvantage | codeclash/analysis/transparent/main.py:72-91 | an advantage entry exists exactly for each model with a transparent win rate |
| Transparent.ExploitationAdvantageSpec | codeclash/analysis/transparent/main.py:76-89 | the normal rate defaults to 0; the absolute change takes the normal rate to the transparent one; the relative change times a positive normal rate is the absolute change, and 0 without a positive normal rate |
| Transparent.SlashedMention | codeclash/analysis/transparent/main.py:55 | the first test of the disjunction adds nothing: a text mentioning "/opponent_codebases/" mentions "opponent_codebases" |
| Transparent.AccessedOpponent | codeclash/analysis/transparent/main.py:50-57 | the loop with its early exit finds exactly whether some assistant message mentions the opponents' code |
| Transparent.CountDir | codeclash/analysis/transparent/main.py:47-61 | counting a player directory adds one round per trajectory file and one access per trajectory that mentions the opponents' code |
| Transparent.CountAccessFolder | codeclash/analysis/transparent/main.py:41-61 | counting a tournament's player directories is tallying their events in order |
| Transparent.AnalyzeOpponentCodeAccess | codeclash/analysis/transparent/main.py:32-69 | a player has an entry exactly when it has a trajectory; its total is its trajectory count, its accessed count the number of them that mention the opponents' code, and its rate their quotient (0 with no round), in [0, 1] |
| Transparent.ByRoundAppend | codeclash/analysis/transparent/main.py:123-128 | the per-round events of two runs of events are those of the first followed by those of the second |
| Transparent.TemporalAppend | codeclash/analysis/transparent/main.py:99-128 | the per-round and per-player-round counts of two runs accumulate one after the other |
| Transparent.ApplyStep | codeclash/analysis/transparent/main.py:109-128 | a file name whose round cannot be read stops the count with that ValueError; otherwise its round and whether it mentions the opponents' code are counted under the round and under the player and round |
| Transparent.CountRoundDir | codeclash/analysis/transparent/main.py:109-128 | counting a player directory by round applies that directory's access events, keyed by player and round, in file order, or fails at the first file whose round is not a number |
| Transparent.ApplyJoined | codeclash/analysis/transparent/main.py:104-128 | a failing directory ends the count with its error; otherwise the next directory continues from its counts |
| Transparent.CountRoundFolder | codeclash/analysis/transparent/main.py:104-128 | counting a tournament's player directories by round applies their access events, one directory after another, or fails with the first error |
| Transparent.AnalyzeTemporalOpponentAccess | codeclash/analysis/transparent/main.py:94-130 | the result fails exactly when some round trajectory's name has no integer round, with a ValueError; otherwise the counts by round and by player and round are those of all round trajectories in order |
| Transparent.RoundErrors | codeclash/analysis/transparent/main.py:111 | every failure of the by-round count is a ValueError from `int()` |
| Transparent.RoundFileRead | codeclash/analysis/transparent/main.py:109-111 | a file named "<player>_r<n>.traj.json" is globbed and read as round n |
| Transparent.TemporalData | codeclash/analysis/transparent/main.py:188-201 | the periods are reported for exactly the players with a counted round |
| Transparent.TemporalDataSpec | codeclash/analysis/transparent/main.py:188-196 | a player's early, mid and late counts are those of its trajectories of rounds 1 to 5, 6 to 10 and 11 to 15 |
| Transparent.BucketTallied | codeclash/analysis/transparent/main.py:190-195 | the sum over a range of rounds of a tally is the old sum plus the events falling in that range |
| Transparent.BucketSplit | codeclash/analysis/transparent/main.py:190-195 | the sum over a range of rounds splits at any middle round |
| Transparent.PeriodsPartition | codeclash/analysis/transparent/main.py:190-195 | early, mid and late together count exactly rounds 1 to 15 |
| Transparent.BucketRate | codeclash/analysis/transparent/main.py:197-199 | each period's rate is in [0, 1] for consistent counts |
| Transparent.InBucketBound | codeclash/analysis/transparent/main.py:190-195 | the accesses counted in a period never exceed its trajectories |
| Transparent.ZeroBucket | codeclash/analysis/transparent/main.py:190-199 | a player without counted rounds has empty periods, hence rate 0 |
| AggregateResults.DataIds | codeclash/analysis/llm_as_judge/aggregate_results.py:59-61 | the three data ids are "big_questions_v7", "action_categories_v3" and "hallucination_v17", the last equal to the hallucination judge's own id for version 17, and they are pairwise distinct |
| AggregateResults.ReadJudgeFileSpec | codeclash/analysis/llm_as_judge/aggregate_results.py:32-52 | a judge file yields data exactly when it could be read, its stripped text is non-empty and it parses; the data is then the parse of the stripped text, and every other outcome is None |
| AggregateResults.Files | codeclash/analysis/llm_as_judge/aggregate_results.py:88-92 | one read outcome per judge file, each the outcome of reading that file |
| AggregateResults.CountColumns | codeclash/analysis/llm_as_judge/aggregate_results.py:204-205 | one column per category name, in order, named prefix + name and holding the number of counted keys equal to that name (0 when absent) |
| AggregateResults.KeysOfItems | codeclash/analysis/llm_as_judge/aggregate_results.py:202 | when no item raises, one key per item |
| AggregateResults.CategoryCounts | codeclash/analysis/llm_as_judge/aggregate_results.py:202 | the Counter of truthy "category" values counts, for each name, exactly the items whose "category" is that name |
| AggregateResults.ActionColumnsSpec | codeclash/analysis/llm_as_judge/aggregate_results.py:192-209 | the action handler sets one "c_<category>" column per action category, holding the number of items of "categories" (an empty list when absent or falsy) whose category is that name |
| AggregateResults.FalsyMatches | codeclash/analysis/llm_as_judge/aggregate_results.py:206-209 | a missing or falsy "categories" value gives 0 for every category |
| AggregateResults.Combinations | codeclash/analysis/llm_as_judge/aggregate_results.py:29 | the combined categories number claims × sources |
| AggregateResults.CombinationsSpec | codeclash/analysis/llm_as_judge/aggregate_results.py:29 | a name is a combined category exactly when it is some claim category, "__", and some source category |
| AggregateResults.ItemCounts | codeclash/analysis/llm_as_judge/aggregate_results.py:233-237 | the Counter of "claim__source" keys counts, for each name, exactly the items with truthy claim and source categories forming that name |
| AggregateResults.ItemColumnsSpec | codeclash/analysis/llm_as_judge/aggregate_results.py:222-245 | the hallucination handler sets one "h_<category>" column per combined category, holding the number of items of "items" (an empty list when absent or falsy) forming that category |
| AggregateResults.PutAllGet | codeclash/analysis/llm_as_judge/aggregate_results.py:219-220 | after a handler's columns are written into a row, a column holds the handler's value when the handler sets it and its old value otherwise |
| AggregateResults.SetCounts | codeclash/analysis/llm_as_judge/aggregate_results.py:204-205 | the loop over the category names writes exactly the count columns into the row |
| AggregateResults.InstanceEntries | codeclash/analysis/llm_as_judge/aggregate_results.py:110-113 | every instance entry taken from a data id carries that data id and, under a filter, an instance id in the filter |
| AggregateResults.FileEntries | codeclash/analysis/llm_as_judge/aggregate_results.py:101-113 | every entry taken from a file carries one of the three allowed data ids and, under a filter, an instance id in the filter |
| AggregateResults.RunAppend | codeclash/analysis/llm_as_judge/aggregate_results.py:99-123 | merging two runs of entries is merging the first and, unless it raised, continuing with the second from its rows: an exception ends the file and keeps the changes made before it |
| AggregateResults.MergeGet | codeclash/analysis/llm_as_judge/aggregate_results.py:115-120 | merging an entry changes only its instance's row; a new row takes the entry's metadata, an existing one keeps its own, and the data id is appended to the row's data ids |
| AggregateResults.RunKeepsRows | codeclash/analysis/llm_as_judge/aggregate_results.py:115-117 | once an instance has a row, later entries never replace its metadata and only extend its data ids |
| AggregateResults.MergeAdmitted | codeclash/analysis/llm_as_judge/aggregate_results.py:101-117 | merging an admitted entry keeps every row's instance id in the filter and every recorded data id among the three allowed ones |
| AggregateResults.RunAdmitted | codeclash/analysis/llm_as_judge/aggregate_results.py:101-120 | the same holds after any run of admitted entries |
| AggregateResults.AggregatedAdmitted | codeclash/analysis/llm_as_judge/aggregate_results.py:90-123 | after all judge files, every row's instance id passes the filter and records only allowed data ids |
| AggregateResults.MergeRowsWith | codeclash/analysis/llm_as_judge/aggregate_results.py:172-181 | merging an entry raises the number of rows recording a data id by one exactly when the entry first records it in its row |
| AggregateResults.ResultsAggregator.constructor | codeclash/analysis/llm_as_judge/aggregate_results.py:58-66 | the three data ids are set from the versions and the three counters start at 0 |
| AggregateResults.ResultsAggregator.AddActionCategoriesResults | codeclash/analysis/llm_as_judge/aggregate_results.py:192-209 | the row's columns after the action handler: its count columns written in, or the exception it raises |
| AggregateResults.ResultsAggregator.AddBigQuestionsResults | codeclash/analysis/llm_as_judge/aggregate_results.py:211-220 | every key of "result" copied into the row without prefix, or the exception for a non-object result |
| AggregateResults.ResultsAggregator.AddHallucinationResults | codeclash/analysis/llm_as_judge/aggregate_results.py:222-245 | the row's columns after the hallucination handler: its count columns written in, or the exception it raises |
| AggregateResults.ResultsAggregator.AddDataIdResults | codeclash/analysis/llm_as_judge/aggregate_results.py:166-190 | the data id is appended to the row and the handler for it applied; the counter of that data id goes up by one exactly when the row did not yet record it, and the other counters stay |
| AggregateResults.ResultsAggregator.MergeEntry | codeclash/analysis/llm_as_judge/aggregate_results.py:115-120 | merging one entry gives `Merge`: the entry's columns are added to its instance's row, and processing stops where the source raises; also each counter grows by the number of rows that newly record its data id |
| AggregateResults.ResultsAggregator.ProcessDataId | codeclash/analysis/llm_as_judge/aggregate_results.py:110-120 | the loop over one data id's instances merges the admitted entries in order (those passing the instance filter), keeping the counters in step with the rows |
| AggregateResults.ResultsAggregator.ProcessFile | codeclash/analysis/llm_as_judge/aggregate_results.py:99-123 | the loop over one file's data ids computes the run of that file's admitted entries, stopping at the first exception |
| AggregateResults.ResultsAggregator.ReadAll | codeclash/analysis/llm_as_judge/aggregate_results.py:86-123 | the loop over the judge files yields the aggregated rows, and each counter ends as its start plus the number of rows recording its data id |
| AggregateResults.ResultsAggregator.AggregateResultsToDataframe | codeclash/analysis/llm_as_judge/aggregate_results.py:68-145 | the rows are the aggregate of all judge files; with a filter, the result is a ValueError exactly when some filtered id has no row, its message listing the missing ids sorted; the counters count the rows holding each data id |

## Left out

- Command execution, containers, file copies, `subprocess`, `time.sleep` and background servers are not modelled. A command's outcome is a parameter `(returncode, output)`. The model keeps the command strings and the decisions taken on the results.
- Clocks (`time.time()`) and randomness are parameters. The BattleCode shuffle takes its random picks as input.
- The `ThreadPoolExecutor`s in the Halite round, the per-model statistics and the judge aggregator are not modelled. Where completion order matters, it is a parameter. Per-simulation timeouts are left out.
- Floating point is not modelled: floats are exact reals.
  - `int(n*0.95)` and `int(n*0.99)` are modelled as `n*95/100` and `n*99/100` on integers. A float rounding just below an integer could truncate one lower in the source.
  - The luminance test `< 0.5` is decided exactly on integer weights.
  - ln 10 is the constant 2.302585092994046.
  - `expected_score`'s `10**x` is a parameter (any positive function).
- The Bradley–Terry fit itself (`scipy.optimize.minimize`, the log-likelihood and its zero-sum tolerance) is not modelled. Only the player indexing and the Elo transform are.
- `calculate_p_value` and `get_scores` (the `float` policy) are parameters, with the single-TIE-key case kept explicit.
- `RESULT_TIE` is defined in `codeclash/constants.py`, which is not part of this model. It is taken to be "Tie", the literal that the p-value policy compares with.
- Regular expressions are hand-written matchers for the specific patterns. `\d` is matched by ASCII digits only, so the Unicode decimal digits Python's `\d` also accepts are not covered; `\s` is matched by the whitespace characters of `str.isspace` (`Text.IsSpace`), as in Python.
- Transparent.ApplyStep and ThoughtLength.TrajRound: Python's `int()` is modelled (`Text.ParseInt`) for an optional sign and ASCII digits inside whitespace (the characters of `str.isspace`). It also accepts digit groups written with underscores ("1_0" is 10) and non-ASCII decimal digits; the model rejects both, so a file or directory name using them is read as no round (ThoughtLength) or as int()'s ValueError (Transparent) where the source reads a round.
- `unidiff.PatchSet` is not modelled. A patch arrives already parsed as files with their line kinds.
- PvpTraining.PvpTraining.Run: only the game's `run_round` may raise in the model. An exception from an agent's hooks or run, from the log copy, or from `end()` and the metadata write is not modelled.
- ScoreMatrix.GetScore: a round record's winner is `Option<string>`, so a "winner" key present with the value `None` is not distinguished from a missing key; both give KeyError("winner") under the two tertiary policies. The source differs for a present `None`: under "tertiary" it falls through the comparisons and raises ValueError("Expected winner to be one of [...], got None") (elo2.py:57-63); under "tertiary_p_value" with one valid submission it returns (0, 1), crediting the second player, and the tournament's later rounds are still scored (elo2.py:74-80), where the model records the error and skips the rest of the file.
- FileHistory.GetActions: a message is always modelled with a content, and every list part with a text. A message without a "content" key, or a list part without a "text" key, raises KeyError in the source (scatter_codebase_organization.py:63-65) and is not modelled.
- Hallucination.FormatTrajectory: a message is always modelled with a content, and every list part with a text. A message without a "content" key, or a one-part list whose part has no "text" key, raises KeyError in the source (hallucination.py:130-133) and is not modelled.
- Hallucination.RenderedFails: the "fails exactly when" covers the messages the model can represent; the KeyError of a missing "content" or "text" key is not part of it.
- Arenas.GetGame: a "name" key that is present with the value `None` is not distinguished from a missing key. The model gives KeyError("name"); the source looks up `None`, finds no arena and raises ValueError("Unknown game: None").
- Environment.AssertZeroExitCode: a "returncode" key that is present with the value `None` is not distinguished from a missing key. The model passes the result through; the source compares `None != 0` and raises RuntimeError.
- `json.loads`, YAML loading and pydantic validation are not modelled. A file that fails to parse is an explicit error case, or the parsed value is the input.
- Directory walks, `glob`/`rglob` order and file reads are not modelled. Listings arrive as sequences in the order the source would see them.
- Sorting only for display, plotting, printing, logging, `tqdm`, `Counter.most_common` and `__repr__` are left out.
- pandas work is left out:
  - the groupby/mean/std/sem aggregation;
  - the 99th-percentile outlier filters;
  - `analyze_per_player_arena`;
  - CSV and parquet output.
- The per-model `main` directory traversal is not modelled. The merge of per-trajectory results into profiles is.
- `build_data_structure` caches results, walks the round directories and sorts the change files; none of that is modelled. `FileHistory.RecordRound` models what one round does to the file history.
- The judge aggregator has gaps:
  - file and instance levels that are not dictionaries are not modelled;
  - a big-questions key equal to a metadata key or to "data_ids" overwrites that column in the source but is kept apart in the model;
  - `utils.py` (the `Instance` methods) and `categorize_actions.py` (`ACTION_CATEGORIES`) are not part of this model;
  - a string's `repr` is modelled as the string in single quotes, without Python's escaping of quotes inside it.
- The transparency analysis has gaps:
  - a missing players directory, or one that is not a directory, is modelled as an empty player list;
  - the final sort and print in `main` are left out.
- The LLM query of the hallucination judge is left out.
- Agents' commits and pushes are not modelled, nor is the game-log copy into an agent's workspace. The tournament driver records these as actions in its trace.
- The other arenas (BattleSnake, HuskyBench, CoreWar, RobotRumble) are not modelled. They reuse the argument builder already modelled for Halite.
- The viewer, the CLI entry points, argparse and configuration scripts are left out.

## Findings

| source | as written | input that shows it | evidently intended | confidence | as-written member | corrected member |
|---|---|---|---|---|---|---|
| codeclash/games/battlecode/main.py:52-56 | each player's arguments are built as one text `--pN-dir src --pN name` and passed through `shlex.join`, which wraps every text holding blanks in single quotes | agents `A` and `B`: the command ends in `'--p1-dir src --p1 A' '--p2-dir src --p2 B'`, so run.py receives two arguments instead of eight | the four words of each player reach the game as separate arguments, as `battlecode.py:52-53` does by joining with spaces | high (proved on the model; not executed) | BattleCode.QuotedPlayerArg | BattleCode.JoinedPlayerWords |
| codeclash/analysis/stats/per_model.py:46-47 | `cmd_failure_rate` tests whether the list `steps` is non-empty, then divides by its sum | a model whose only trajectory could not be read contributes `steps == [0]`, and the division raises ZeroDivisionError | the rate is 0.0 whenever the total number of steps is 0 | high (proved on the model; not executed) | PerModel.ZeroStepsDivide | PerModel.CmdFailureRateSpec |
