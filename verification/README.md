# Verification of the progress and auth modules

A Dafny model of the two stateful modules of the Japanese learning backend, and
proofs of what they promise.

**Progress** (`internal/modules/progress`). Each account has one row with a
JSON document. Answers, completed lessons and patches parse it, rewrite the
members the server owns, stamp schema version 2, check the size and write it
back inside a locked transaction; PUT replaces it in one statement. The members
`skillsByKana`, `masteryByKana` and `recentAttempts` are a view of the whole
answer history that is kept up to date one answer at a time. The central result
is that the stored document always equals a closed form computed from the full
sequence of committed changes, for every interleaving of requests and every
failure of the database.

**Auth** (`internal/modules/auth`). Accounts, emailed verification codes and
reset tokens, sessions behind an optional verification gate, and the activity
counters that follow calendar days. The use cases are proved against decision
tables one request at a time, and again as an interleaved state machine in which
every database statement is a step of its own, the clock may advance and a
request may die between any two steps.

| file | contents |
|---|---|
| `Wrappers.dfy`, `Text.dfy` | option and result types; byte length, trimming and ordering of strings |
| `Scoring.dfy` | scores, mastery states, and what whole answer histories do to a score |
| `Kana.dfy` | what counts as one character of the syllabary, and how many there are |
| `Codec.dfy`, `Documents.dfy` | JSON members with typed readers and writers; the document rewritten in place |
| `ProgressRules.dfy` | the effect of one change on the stored row, and the checks in front of it |
| `ProgressHistory.dfy` | the closed form of every member over a whole history |
| `ProgressTheorems.dfy` | what the closed form means for accounts |
| `ProgressOrders.dfy` | the same requests in two orders, and in two interleaved runs |
| `ProgressEntries.dfy` | what an answer does to every member and entry of the document |
| `ProgressRequests.dfy` | what the four requests do to the raw JSON, in the tokens and names of clients and rows |
| `ProgressService.dfy` | the use cases with transactions and failing database calls |
| `RowProtocol.dfy` | any number of concurrent requests on one row |
| `Activity.dfy` | streak and distinct-day counters, calendar days in time zones |
| `AuthStore.dfy`, `AuthService.dfy` | the auth tables, and the use cases one request at a time |
| `AuthProtocol.dfy` | the interleaved machine: statements, steps, and a log of what happened |
| `AuthGate.dfy` | tokens only for verified accounts, and what may verify an account |
| `AuthCaps.dfy`, `AuthAttained.dfy` | how often one secret can be guessed at or used, and that these bounds are exact |
| `AuthStale.dfy` | a replaced secret is dead |
| `AuthZones.dfy` | the activity counters of every account over every interleaving |
| `AuthRuns.dfy`, `AuthSequential.dfy` | building runs; each use case, undisturbed, is a run of the interleaved machine |

Check everything with `dafny verify dfyconfig.toml`.

## Where the code and its documentation disagree

- `internal/modules/auth/domain.go:16-18` says that the lower bound on a
  password counts characters; `checkPasswordLength`
  (`internal/modules/auth/service.go:287-299`) counts bytes. The model follows
  the code; `AuthStore.WhereThePasswordPolicyDiffers` says exactly which
  passwords the two treat differently, and `AuthStore.ThreeKanaAreAPassword` is
  one. (The request rules in `internal/modules/auth/dto.go:18` add a character
  minimum in front of the service.)
- The repository's own `README.md:301-303` says that any field the client adds
  survives a grading call. That holds for top-level members
  (`ProgressTheorems.ClientMembersAreFramed`). Inside `skillsByKana` and
  `recentAttempts` an answer rewrites every entry through a typed struct, so
  extra members of an entry are dropped.
  `ProgressEntries.GradingLosesAScoreNote` and
  `ProgressEntries.GradingLosesAnAttemptNote` are rows that lose one.
  `ProgressEntries.GradingWritesItsOwnEntry` says what becomes of the entry of
  the kana answered; `GradingKeepsWrittenScores`, `GradingKeepsMasteryTexts` and
  `GradingKeepsWrittenAttempts` say exactly which of the others come back
  unchanged.
- A document written by PUT with `skillsByKana` or `masteryByKana` equal to
  JSON `null` is neither read nor refused: the next answer assigns into a nil Go
  map and panics, which the server turns into a 500.
  `ProgressTheorems.NullMapsPanic` is that run and
  `ProgressTheorems.NilMapPanics` says exactly when it happens.
- A reset token is documented as single use
  (`internal/modules/auth/password_reset.go:58-60`). The password is replaced
  before the token is spent, so overlapping resets, or a spending statement that
  is lost, let one token replace several passwords:
  `AuthAttained.ResetBoundIsAttained` gives the runs, for every number of each.
  `AuthAttained.WhenTokensAreSingleUse` says that single use holds in every run
  exactly when resets of one account do not overlap and no spending is lost.
  `AuthAttained.WhenCodesAreSingleUse` and `AuthAttained.WhenTheCapHolds` say
  the same of sessions opened by a code and of the cap on wrong guesses.

## Model

| member | source | states |
|---|---|---|
| Scoring.ApplyAnswer | internal/modules/progress/mastery.go:101-118 | whatever the stored score was, one answer puts it within 0..100; a legal score moves up by 20 or to the top on a hit, down by 30 or to the bottom on a mistake |
| Scoring.OneAnswerMovesTheScore | internal/modules/progress/mastery.go:42-47 | for every stored 64-bit score: a hit adds 20 and a mistake takes 30, within 0..100, and a sum beyond 64 bits ends at the other bound |
| Scoring.MasteryFollowsTheSum | internal/modules/progress/mastery.go:52-56 | the state follows from the 64-bit sum of the four scores: mastered from 320, familiar from 200, learning from 100, discovered below, under these names |
| Scoring.Skills.SetScore | internal/modules/progress/mastery.go:81-92 | the score of that skill becomes the given one and the other three keep theirs |
| Scoring.HistoryActsAsItsSummary | internal/modules/progress/mastery.go:101-118 | every answer history acts on every legal score as one clamped shift x -> max(lo, min(hi, x + d)) with 0 <= lo <= hi <= 100 |
| Scoring.ThenActsInOrder | internal/modules/progress/mastery.go:101-118 | two clamped shifts one after the other are again one clamped shift |
| Scoring.ThenIsAssociative | internal/modules/progress/mastery.go:101-118 | combining the shifts of three consecutive histories does not depend on the grouping |
| Scoring.SummariesCompose | internal/modules/progress/mastery.go:101-118 | the clamped shift of two consecutive histories is the composition of theirs |
| Scoring.FoldScoreConcat | internal/modules/progress/mastery.go:101-107 | a history scored in two parts ends where it ends in one |
| Scoring.FoldScoreMonotoneAndLipschitz | internal/modules/progress/mastery.go:101-118 | after the same answers a higher start never ends lower, and two starts never move further apart |
| Scoring.HitsInsteadOfMistakesNeverLowerTheScore | internal/modules/progress/mastery.go:39-47 | turning mistakes of a history into hits never lowers the final score |
| Scoring.ScoreBounds | internal/modules/progress/mastery.go:42-47 | c hits and w mistakes, in any order, leave a score between max(0, min(100, 20c) - 30w) and min(100, 20c) |
| Scoring.BoundsAreAttained | internal/modules/progress/mastery.go:42-47 | for every c and w some order reaches the lower bound and some order the upper one |
| Scoring.MasteredNeedsSixteenHits | internal/modules/progress/mastery.go:52-56 | mastered takes at least sixteen hits that could still raise a score, and a hit in every skill |
| Scoring.MasteredWithoutMistakes | README.md:282-286 | without mistakes a kana is mastered exactly when those useful hits are sixteen or more |
| Scoring.FewSkillsCapMastery | README.md:282-286 | one skill alone never passes learning and two never pass familiar |
| Scoring.FewSkillsReachTheirCap | README.md:282-286 | without mistakes one skill is learning exactly from its fifth hit, and two are familiar exactly from five each |
| Scoring.MasteryIsMonotone | internal/modules/progress/mastery.go:123-134 | four scores that are no lower never give a lower mastery state |
| Kana.ValidKana | internal/modules/progress/mastery.go:154-206 | accepts a string exactly when it is one kana, or a base kana with an optional small ya/yu/yo and an optional long mark |
| Kana.UnitsByCodes | internal/modules/progress/mastery.go:178-206 | code point by code point: one of U+3041..U+3096, U+30A1..U+30FA or U+30FC alone; or one of them that is neither the mark nor a small ya, yu or yo, followed by such a small kana, the mark, or both |
| Kana.KanaUnitsAreCounted | internal/modules/progress/mastery.go:143-176 | exactly 2387 strings are accepted |
| Codec.SkillsByKanaRoundTrip | internal/modules/progress/document.go:136-146 | scores written into the document are the scores read back |
| Codec.MasteryByKanaRoundTrip | internal/modules/progress/document.go:148-158 | mastery states written into the document are the states read back |
| Codec.LessonsRoundTrip | internal/modules/progress/document.go:160-170 | a lesson list written into the document is the list read back |
| Codec.AttemptsRoundTrip | internal/modules/progress/document.go:172-182 | an attempt window written into the document is the window read back, empty members omitted on the way |
| Codec.SkillsEntryIsKeptIffWritten | internal/modules/progress/mastery.go:58-64 | reading and rewriting the scores of one kana gives them back unchanged exactly when all four are there, as integers the server can hold, and nothing else is |
| Codec.EntryIsKeptIffWritten | internal/modules/progress/document.go:76-87 | reading and rewriting an entry gives it back unchanged exactly when it has the members the server writes, no empty optional one, and a timestamp in the form the server writes |
| Codec.VersionOneEntryIsKept | internal/modules/progress/document.go:76-87 | a v1 entry {correct, at} is readable exactly when its timestamp is, sprouts no keys, and comes back as it was exactly when its timestamp does |
| Documents.ParseStampedRoundTrip | internal/modules/progress/document.go:94-134 | whatever the server marshals parses again, as version 2, every other member unchanged |
| Documents.ParseRefusals | internal/modules/progress/document.go:94-134 | which stored values parse, and which are refused as an unsupported schema, both exactly |
| Documents.FieldsAreDistinct | internal/modules/progress/document.go:32-54 | the five server members have different names and the lesson list is the unprotected one |
| Documents.Document.Set | internal/modules/progress/document.go:184-192 | one member is replaced, every other one kept |
| Documents.Document.Merge | internal/modules/progress/document.go:59-74 | all or nothing: an empty or protected patch changes no member, any other overrides exactly its own, whatever the iteration order |
| Documents.Document.CarriesAny | internal/modules/progress/document.go:64-68 | the loop over the patch finds a protected field exactly when there is one, in any iteration order |
| Documents.Document.Overwrite | internal/modules/progress/document.go:70-72 | the loop over the patch ends with the document overridden by it, in any iteration order |
| Documents.Document.AppendAttempt | internal/modules/progress/document.go:196-207 | the window becomes the newest 200 of the old entries and the new one; an unreadable window is an error that changes nothing |
| Documents.Document.Marshal | internal/modules/progress/document.go:212-222 | the document is stamped with version 2 and rendered with all its members |
| Documents.SortedUnique | internal/modules/progress/document.go:226-238 | the result is strictly increasing, has the elements of the input, and is the only such list |
| ProgressRules.ViewRoundTrip | internal/modules/progress/service.go:104-132 | scores, mastery and attempts written together are read back together |
| ProgressHistory.GradingIsOneMoreLogEntry | internal/modules/progress/service.go:104-132 | one incremental grading of the view of a log is the view computed from scratch of the log with one more answer |
| ProgressHistory.FinalView | internal/modules/progress/service.go:104-132 | a document in closed form shows exactly the view of the full answer log |
| ProgressHistory.DocumentIsItsHistory | internal/modules/progress/service.go:95-181 | from any readable row, after any mix of successful answers, lessons and patches, every member equals its closed form over the whole sequence, and the row is readable |
| ProgressTheorems.FreshAccountView | internal/modules/progress/service.go:104-132 | from a fresh account the server members are the view of all the answers, computed from scratch |
| ProgressTheorems.FreshScores | internal/modules/progress/service.go:114-117 | both maps have exactly the kana answered as keys, each score is the fold of its own answers from 0 and within 0..100, each mastery follows from its scores |
| ProgressTheorems.FreshAccountAnswersSucceed | internal/modules/progress/service.go:104-132 | on an account the server has always written, an answer can fail only by making the document too large |
| ProgressTheorems.NilMapPanics | internal/modules/progress/service.go:104-117 | an answer panics on a nil map exactly when the row and both maps are readable and one of them is JSON null |
| ProgressTheorems.NullMapsPanic | internal/modules/progress/service.go:104-117 | a PUT of a document whose skills or mastery map is null is accepted, and every valid answer after it panics |
| ProgressTheorems.UngradableUntilReplaced | internal/modules/progress/document.go:46-54 | once a readable row cannot be graded, no run of successful requests other than PUT grades anything or changes that |
| ProgressTheorems.ClientMembersAreFramed | internal/modules/progress/document.go:89-92 | a member nobody patched and the server does not own keeps its value over any run |
| ProgressTheorems.ServerRowsAreSupported | internal/modules/progress/document.go:209-222 | after any successful run the row carries version 2 and parses, so the server never locks itself out |
| ProgressTheorems.WindowIsTheNewest | internal/modules/progress/document.go:194-207 | after any run with an answer, the window is the newest 200 of the initial attempts followed by the whole log, in order |
| ProgressTheorems.FreshLessons | internal/modules/progress/service.go:163-169 | whatever the order and repetition, the lesson list is the sorted list of the lessons completed |
| ProgressTheorems.ReplayingALessonChangesNothing | README.md:298-299 | completing a listed lesson again leaves every member of the document as it was |
| ProgressTheorems.OrderIndependence | internal/modules/progress/service.go:91-181 | two successful sequences of changes that agree within each (kana, skill), within each patched member and on the lessons since the last patch of the list end with the same document, the attempt window aside |
| ProgressOrders.PermutationsAgree | internal/modules/progress/service.go:91-181 | any two successful orders of the same requests, whatever instants the clock gave each answer, end with the same document, the attempt window aside, when the answers to each (kana, skill) keep their order, no member is patched twice and no patch carries the lesson list |
| ProgressOrders.InterleavingsAgree | internal/modules/progress/repository_mysql.go:101-141 | two interleaved runs on the same row that commit the same requests, under those conditions, leave the same document, the attempt window aside |
| ProgressTheorems.MasteredKana | internal/modules/progress/mastery.go:52-56 | in every run from a fresh account a kana stored as mastered has sixteen useful hits in its answers and one in every skill |
| ProgressTheorems.FewSkillsKana | README.md:282-286 | in every run from a fresh account a kana practised in one skill is stored as learning at most, in two as familiar at most |
| ProgressTheorems.BetterLogNeverLowersMastery | internal/modules/progress/mastery.go:120-134 | turning mistakes of a whole log into hits never lowers any kana's final mastery |
| ProgressTheorems.RunIsReplayOfCommitted | internal/modules/progress/service.go:255-281 | after any sequence of requests the row is the replay of the successful ones; a refused request contributes nothing |
| ProgressTheorems.CommittedAreValid | internal/modules/progress/service.go:285-297 | every answer that reaches the document is about one character of the syllabary, with an option within its limit |
| ProgressTheorems.AtMost2387Kana | internal/modules/progress/service.go:283-297 | no run of requests without PUT ever keys either map on more than 2387 kana |
| ProgressEntries.AnswersKeepOtherMembers | internal/modules/progress/document.go:89-92 | a successful answer leaves every unprotected member, the lesson list among them, exactly as it was, and adds none |
| ProgressEntries.GradingWritesItsOwnEntry | internal/modules/progress/service.go:114-117 | the entry of the kana answered becomes its four moved scores and nothing else, and its mastery the state these scores give; members the client put there are gone |
| ProgressEntries.GradingKeepsWrittenScores | internal/modules/progress/document.go:136-146 | after an answer the scores of any other kana are still there, and unchanged exactly when they were written as the server writes them |
| ProgressEntries.GradingKeepsMasteryTexts | internal/modules/progress/document.go:148-158 | after an answer the mastery of any other kana is unchanged exactly when it was not null, which becomes the empty string |
| ProgressEntries.GradingKeepsWrittenAttempts | internal/modules/progress/document.go:172-207 | after an answer every attempt that stays in the window is in its place, and unchanged exactly when it was written as the server writes it |
| ProgressEntries.GradingLosesAScoreNote | README.md:301-303 | the failing input: scores with a member of the client lose it to an answer about any other kana, unless the result is too large to be stored |
| ProgressEntries.GradingLosesAnAttemptNote | README.md:301-303 | the failing input: an attempt with a member of the client loses it to any answer, unless the result is too large to be stored |
| ProgressRequests.WhichAnswersAreAccepted | internal/modules/progress/service.go:285-297 | an answer is accepted exactly with one of the tokens recognition, writing, listening and reading, one character of the syllabary, and an option of at most 32 bytes; any other one is an invalid answer |
| ProgressRequests.AnswersMoveTheNamedScore | internal/modules/progress/mastery.go:14-20 | in the raw document, the member with the client's token moves by one answer from the integer read there, or from 0; the three other ones keep what was read, and the entry has nothing else |
| ProgressRequests.AnswersLeaveOtherScores | internal/modules/progress/document.go:136-146 | in the raw document, the four scores of every other kana are the integers read there, or 0 |
| ProgressRequests.AnswersStoreTheMastery | internal/modules/progress/mastery.go:120-134 | in the raw document, the mastery of the kana answered is the text that its four stored scores give by their sum |
| ProgressRequests.AnswersAreRecordedLast | internal/modules/progress/document.go:76-87 | in the raw document, the last attempt has the kana, the token, the result, the option if there is one, and the instant of the answer, and no more than 200 attempts are kept |
| ProgressRequests.AnswersRewriteTheWindow | internal/modules/progress/document.go:194-207 | an older attempt that stays is in its place, with the texts, the result and the instant that could be read of it; only the oldest ones make room |
| ProgressRequests.AnswersLeaveTheRest | internal/modules/progress/document.go:89-92 | every member but schemaVersion, skillsByKana, masteryByKana and recentAttempts is as it was |
| ProgressRequests.ChangesAreStamped | internal/modules/progress/document.go:209-222 | every change but PUT leaves schemaVersion 2 and at most 262144 bytes |
| ProgressRequests.WhichDocumentsAreGraded | internal/modules/progress/document.go:136-182 | an answer can be recorded exactly when both maps are absent or objects, every score is absent, null or a 64-bit integer, every mastery null or a text, and every attempt has members of the right kinds |
| ProgressRequests.WhenChangesFailBySize | internal/modules/progress/service.go:255-281 | a change that applies fails exactly when the stamped result is longer than 262144 bytes |
| ProgressRequests.WhichLessonsAreAccepted | internal/modules/progress/service.go:299-314 | exactly the trimmed identifiers of 1 to 64 letters, digits, hyphens, underscores and full stops |
| ProgressRequests.LessonsAreListed | internal/modules/progress/service.go:163-169 | in the raw document, completedLessonIds becomes the increasing list of the texts it had and the identifier; every other member stays, under the stamp |
| ProgressRequests.PatchesOverride | internal/modules/progress/document.go:59-74 | a successful patch carried none of the four server members; all it carried is in the row, every other member stays, under the stamp |
| ProgressRequests.ProtectedPatchesAreRefused | internal/modules/progress/document.go:49-68 | a patch that carries schemaVersion, skillsByKana, masteryByKana or recentAttempts is refused |
| ProgressRequests.UnprotectedPatchesApply | internal/modules/progress/document.go:59-74 | any other patch with a member applies to every readable document |
| ProgressRequests.PutsAreStored | internal/modules/progress/service.go:332-344 | PUT stores any valid JSON of 1 to 262144 bytes as it is and refuses anything else |
| ProgressService.ValidateAnswer | internal/modules/progress/service.go:285-297 | accepts exactly a known skill, one character of the syllabary and an option of at most 32 bytes |
| ProgressService.ValidateLessonID | internal/modules/progress/service.go:299-314 | accepts exactly the non-empty identifiers of at most 64 bytes over letters, digits, '-', '_' and '.' |
| Text.TrimSpaceKeepsTheMiddle | internal/modules/progress/service.go:158 | trimming a lesson identifier removes white space only, and only at its ends |
| Text.TrimSpaceLeavesNoSpace | internal/modules/progress/service.go:158 | neither end of a trimmed identifier is one of the 25 code points that count as white space |
| Text.RunesTakeTheFewestBytes | internal/modules/progress/service.go:292-295 | the bytes counted for a character are the fewest whose UTF-8 payload holds its code point |
| Text.LessIsLexicographic | internal/modules/progress/document.go:236-237 | the order of the lesson list is that of the first differing character, a prefix first |
| ProgressService.GradeDocument | internal/modules/progress/service.go:104-132 | rewriting the document in place, reads before writes, gives the specified members or the specified error |
| ProgressService.CompleteInDocument | internal/modules/progress/service.go:163-169 | the lesson list becomes the sorted list with the new lesson, or the document is unreadable |
| ProgressService.Service.Transform | internal/modules/progress/service.go:256-273 | parse, apply, stamp and size check together are the specified effect of the change on the raw row |
| ProgressService.Service.Mutate | internal/modules/progress/repository_mysql.go:101-141 | a failure anywhere before the commit, or a refused change, leaves the row as it was; otherwise the row is the effect, even when the answer to the commit is lost or the read-back fails |
| ProgressService.Service.RecordActivity | internal/modules/progress/service.go:318-328 | a touch that fails leaves the counters alone, any other advances them for the day |
| ProgressService.Service.RecordAnswer | internal/modules/progress/service.go:95-147 | failure atomicity: before the commit neither document nor counters move, after it the document stands whatever becomes of the answer, the read-back and the touch |
| ProgressService.Service.CompleteLesson | internal/modules/progress/service.go:152-181 | the same, for the trimmed lesson identifier |
| ProgressService.Service.Merge | internal/modules/progress/service.go:191-217 | the same, and a patch never counts as activity |
| ProgressService.Service.Save | internal/modules/progress/service.go:65-89 | the same, for the plain overwrite of PUT |
| RowProtocol.StepKeepsInv | internal/modules/progress/repository_mysql.go:101-141 | every step of every request keeps: the row is the replay of the commits, a transaction that has read still sees the committed row, locks exclude, tickets are places |
| RowProtocol.EveryRunKeepsInv | internal/modules/progress/repository_mysql.go:88-141 | the same after every interleaving, from every initial row |
| RowProtocol.StoredIsTheCommittedReplay | internal/modules/progress/repository_mysql.go:98-141 | in every interleaving the row is the replay in commit order of exactly the committed changes, and each request commits at most once |
| RowProtocol.ResponsesShowTheirOwnCommit | internal/modules/progress/repository_mysql.go:136-140 | every response shows the row at or after the request's own commit, with its own change applied |
| RowProtocol.MutateIsARun | internal/modules/progress/repository_mysql.go:98-141 | from any state in which nobody else holds a lock, whatever the row, the steps of one request alone commit the effect of its change and show it, or fail and leave the row alone when the effect is an error; nothing else changes |
| RowProtocol.LostAnswersAreCommitted | internal/modules/progress/repository_mysql.go:132-141 | the same request whose commit answer or read-back is lost has stored the effect all the same |
| RowProtocol.PutIsARun | internal/modules/progress/repository_mysql.go:40-44 | PUT alone stores its document, whatever the row, and shows it |
| RowProtocol.OnlyErrorsFail | internal/modules/progress/repository_mysql.go:124-128 | in every interleaving a request that was never aborted fails before its commit only after the effect of its change on the committed row was an error |
| RowProtocol.AbortsLeaveTheRow | internal/modules/progress/repository_mysql.go:110-111 | a request that has not committed can be aborted wherever it is, and the row is left alone |
| RowProtocol.ReplayFromTheLastPut | internal/modules/progress/repository_mysql.go:40-44 | nothing before a PUT matters: the replay may start from the document it wrote |
| RowProtocol.NoAnswerIsLost | internal/modules/progress/repository_mysql.go:46-49 | with no PUT, the stored view after any interleaving is the simple definition over all committed answers, and every acknowledged answer is among them |
| RowProtocol.NoAnswerIsLostSinceThePut | internal/modules/progress/repository_mysql.go:40-49 | after any interleaving whose last PUT stored a document answers can be recorded in, the stored view is that document's view extended by all answers committed after it, and every answer acknowledged with a later commit is among them |
| RowProtocol.OnlyGapLocksDeadlock | internal/modules/progress/repository_mysql.go:46-49 | while a request is unfinished some request can move, except when two transactions share the gap lock of an absent row and both insert |
| RowProtocol.GapDeadlockResolves | internal/modules/progress/repository_mysql.go:46-49 | two requests that both want to insert under the shared gap lock are stuck; when one is aborted, the other one inserts |
| RowProtocol.GapDeadlockIsReachable | internal/modules/progress/repository_mysql.go:46-49 | any two requests that would create the document reach that deadlock in some run from an absent row; aborting one lets the other commit its own effect |
| RowProtocol.WhenRequestsDeadlock | internal/modules/progress/repository_mysql.go:46-49 | some run deadlocks exactly when the row was absent and two requests would create the document |
| Activity.ActivityRow.TouchActivity | internal/modules/auth/repository_mysql.go:66-76 | the three assignments from left to right compute one simultaneous update |
| Activity.CountersMeanTheMaxima | internal/modules/auth/repository_mysql.go:56-76 | for every sequence of days, backwards ones included, the stored day is the last left-to-right maximum, the distinct days count the maxima, the streak is the consecutive run that ends them |
| Activity.MaximaAreTheRecords | internal/modules/auth/repository_mysql.go:56-76 | the maxima increase, are days that were touched, and end with the largest of all |
| Activity.TrailingRunIsUnique | internal/modules/auth/repository_mysql.go:70-74 | a list of days has one trailing run only, so the streak is determined |
| Activity.LastIsTheMaximum | internal/modules/auth/repository_mysql.go:75 | the stored day is the latest day ever touched and never walks backwards |
| Activity.OrderedDays | README.md:325-328 | when days never go backwards the counters are the size of the day set and the consecutive block that ends at the last day |
| Activity.EarlierDaysChangeNothing | README.md:336-340 | a touch for a day that is not later is a no-op |
| Activity.DaysBeginAtLocalMidnight | internal/modules/auth/domain.go:319-327 | the day of an instant in a zone grows by one exactly at each local midnight, and day 0 begins with the epoch in UTC |
| Activity.ZonesBehindHaveThePreviousDay | internal/modules/auth/domain.go:319-327 | in a zone behind UTC the instants before its local midnight have the previous UTC day, all the others the same one |
| Activity.ZonesAheadHaveTheNextDay | internal/modules/auth/domain.go:319-327 | in a zone ahead of UTC the instants after its local midnight have the next UTC day, all the others the same one |
| Activity.ZonesGainAtMostOneDay | internal/modules/auth/domain.go:319-327 | for any touches at any instants up to now, with offsets under a day in any order, 1 <= streak <= distinct <= UTC days since registration, plus one |
| AuthZones.AccountsGainAtMostOneDay | internal/modules/auth/service.go:125-133 | for every account of every interleaved run, with zone edits between any two steps, 1 <= streak <= distinct <= UTC days since it was created, plus one |
| Activity.TheExtraDayIsAttained | README.md:342-350 | with zones up to some offset, the extra day can be gained in the second of registration exactly when that second is within the offset of the next UTC midnight |
| Activity.TheExtraDayCanBeHadTheSameDay | README.md:346-350 | in any zone ahead of UTC the extra day can be gained later the same UTC day, whenever the account was registered |
| AuthStore.Policy.WithDefaults | internal/modules/auth/service.go:31-42 | the result is usable and the gate untouched; each positive field is kept, and the others become 15 minutes, 5 attempts and one hour |
| AuthStore.WhereThePasswordPolicyDiffers | internal/modules/auth/service.go:287-299 | code and documented policy differ exactly on passwords under 8 characters that take 8 bytes or more, and the code accepts all the documented ones |
| AuthStore.ThreeKanaAreAPassword | internal/modules/auth/domain.go:16-21 | three kana pass the check although documented as too short |
| AuthStore.AuthRepository.Create | internal/modules/auth/repository_mysql.go:81-112 | inserts under a new id exactly when no account has the address |
| AuthStore.AuthRepository.TouchActivity | internal/modules/auth/repository_mysql.go:126-141 | one account's counters move by the update of the day, nothing else |
| AuthStore.AuthRepository.MarkEmailVerified | internal/modules/auth/repository_mysql_secrets.go:64-73 | one account gets the stamp, nothing else changes; a stamp that is there already is reported as a missing account |
| AuthStore.AuthRepository.UpdatePassword | internal/modules/auth/repository_mysql_secrets.go:76-82 | one account gets the hash, nothing else changes; a hash that is there already is reported as a missing account |
| AuthStore.AuthRepository.PutVerification | internal/modules/auth/repository_mysql_secrets.go:116-126 | the account's only code row becomes the new code, unused, with no attempts |
| AuthStore.AuthRepository.RecordVerificationAttempt | internal/modules/auth/repository_mysql_secrets.go:161-166 | the attempts of that row grow by one, a missing row is no error |
| AuthStore.AuthRepository.ConsumeVerification | internal/modules/auth/repository_mysql_secrets.go:169-174 | an unspent row is stamped, a spent one keeps its first stamp |
| AuthStore.AuthRepository.PutReset | internal/modules/auth/repository_mysql_secrets.go:177-187 | the new token, unspent, is stored in the account's only reset row, or in the row of the account that has this hash already |
| AuthStore.AuthRepository.FindResetByHash | internal/modules/auth/repository_mysql_secrets.go:191-219 | finds a row with that hash exactly when there is one |
| AuthStore.AuthRepository.ConsumeReset | internal/modules/auth/repository_mysql_secrets.go:222-227 | an unspent row is stamped, a spent one keeps its first stamp |
| AuthService.Service.VerifyEmail | internal/modules/auth/verification.go:43-106 | a session opens exactly for the current usable code of an unverified account; a wrong guess at such a code costs one attempt; everything else changes nothing |
| AuthService.Service.ResendVerification | internal/modules/auth/verification.go:110-131 | an unverified account gets a fresh code that replaces the old one; anything else does nothing |
| AuthService.Service.IssueVerificationCode | internal/modules/auth/verification.go:136-166 | the stored row holds the hash of the code, no attempts, and an expiry one lifetime away |
| AuthService.Service.ForgotPassword | internal/modules/auth/password_reset.go:12-56 | any known account gets a fresh token that replaces the old one, in the row that the unique index on hashes allows; an unknown address does nothing |
| AuthService.Service.ResetPassword | internal/modules/auth/password_reset.go:61-99 | succeeds exactly for a password of 8 to 72 bytes, a current token that is unspent and before its expiry, and a hash that differs from the stored one; the token then replaces the password, confirms the address and never works again; a refusal, of a wrong length or of an unchanged hash too, leaves the token usable |
| AuthService.Service.Register | internal/modules/auth/service.go:103-158 | succeeds exactly for a valid, free address and a password of 8 to 72 bytes; a session opens only with the gate off |
| AuthService.Service.Login | internal/modules/auth/service.go:162-205 | opens a session exactly for matching credentials of an account the gate lets through, and counts as activity; every refusal changes nothing |
| AuthGate.VerificationIsNeverUndone | internal/modules/auth/repository_mysql_secrets.go:17-61 | no step of any request removes an account, changes its address or withdraws its confirmation |
| AuthGate.OnlySecretsVerify | internal/modules/auth/verification.go:87-94 | an account becomes confirmed in two steps only: after spending a code, or a reset token, of that account |
| AuthGate.StepKeepsGateInv | internal/modules/auth/service.go:182-188 | every step keeps: requests past the gate are of verified accounts, and so is every token issued |
| AuthGate.GateHolds | internal/modules/auth/service.go:151-157 | with the gate on, in every interleaving every token was issued to an account verified at that moment, and still verified |
| AuthGate.OneAccountPerEmail | internal/modules/auth/repository_mysql.go:94-97 | however registrations race, no two accounts share an address |
| AuthGate.VerifiedAccountsHaveProof | internal/modules/auth/verification.go:72-94 | in every interleaving a verified account, a session opened by a code and a password replaced by a token each go back to a secret emailed to that account and presented exactly, when the row loaded for it was unspent, before its expiry and, for a code, under the attempt cap |
| AuthGate.ReplacementsAreInTime | internal/modules/auth/domain.go:175-178 | in every interleaving a token that replaced a password was emailed to its account and accepted before the expiry it was sent with |
| AuthGate.SessionsAreInTime | internal/modules/auth/domain.go:161-164 | in every interleaving a code that opened a session was emailed to its account and accepted before the expiry it was sent with, with an attempt left |
| AuthGate.ReplacementsChangeThePassword | internal/modules/auth/repository_mysql_secrets.go:76-82 | a step that counts as a replacement stored a hash that was not there |
| AuthGate.ConfirmationsChangeTheStamp | internal/modules/auth/repository_mysql_secrets.go:64-73 | a step that confirms by a code stored the instant of its check as a stamp that was not there |
| AuthGate.OnlyTokensReplacePasswords | internal/modules/auth/password_reset.go:79-85 | a stored password changes in one step only, by a usable token of that account, to the hash that came with it, and that step is noted |
| AuthCaps.StepKeepsCapsInv | internal/modules/auth/verification.go:64-87 | every step keeps the counts of guesses, sessions and replacements within what rows, requests in flight and recorded losses account for |
| AuthCaps.EveryRunKeepsCapsInv | internal/modules/auth/verification.go:64-87 | the same after every interleaving, for every secret |
| AuthCaps.GuessesAreCapped | internal/modules/auth/verification.go:73-85 | wrong guesses compared with one issued code are at most the cap - 1 + the verify requests in flight at once + the misses never recorded |
| AuthCaps.CodesOpenFewSessions | internal/modules/auth/verification.go:87-105 | one code opens at most as many sessions as verify requests overlap |
| AuthCaps.TokensReplaceFewPasswords | internal/modules/auth/password_reset.go:74-88 | one token replaces the password at most once per overlapping reset, plus once per spending that was lost |
| AuthAttained.GuessBoundIsAttained | internal/modules/auth/verification.go:72-85 | for every cap, number of overlapping requests and number of lost misses some interleaving makes exactly as many wrong guesses as the bound allows |
| AuthAttained.WhenTheCapHolds | internal/modules/auth/verification.go:72-85 | no run guesses wrong more often than the configured cap exactly when verify requests do not overlap and no miss is lost, or none is admitted |
| AuthAttained.SessionBoundIsAttained | internal/modules/auth/verification.go:87-105 | for every number of overlapping requests some interleaving opens that many sessions with one code, each confirmation changing the row as the row count check demands |
| AuthAttained.WhenCodesAreSingleUse | internal/modules/auth/verification.go:87-105 | a code that lives over one second opens at most one session in every run exactly when verify requests do not overlap |
| AuthAttained.ResetBoundIsAttained | internal/modules/auth/password_reset.go:74-88 | for every number of overlapping resets and of lost spendings some interleaving replaces the password that many times with one token, each time by a hash that differs from the stored one |
| AuthAttained.WhenTokensAreSingleUse | internal/modules/auth/password_reset.go:58-60 | a token replaces at most one password in every run exactly when resets do not overlap and no spending is lost, or none is admitted |
| AuthStale.ReplacedCodesAreDead | internal/modules/auth/repository_mysql_secrets.go:24-32 | after a newer code is stored, any continuation opens no more sessions with the old one, and compares no more guesses, than requests had already loaded it |
| AuthStale.ReplacedTokensAreDead | internal/modules/auth/repository_mysql_secrets.go:45-52 | after a newer reset token is stored, any continuation replaces no more passwords with the old one than requests had already loaded it |
| AuthSequential.VerifyEmailIsARun | internal/modules/auth/verification.go:64-105 | from any reachable world an undisturbed verification is a run of the machine that ends with the tables of the decision table, and opens a session exactly for the right usable code |
| AuthSequential.ResetPasswordIsARun | internal/modules/auth/password_reset.go:66-95 | from any reachable world an undisturbed reset is a run of the machine that ends with the tables of the decision table, the hash that changes nothing and is refused included |
| AuthSequential.LoginIsARun | internal/modules/auth/service.go:162-205 | an undisturbed login past the gate is a run that touches the counters and opens one session |
| AuthSequential.RegisterIsARun | internal/modules/auth/service.go:103-158 | an undisturbed registration is a run that stores the account and its code, and opens a session only with the gate off |
| AuthSequential.RegisterWithoutACodeIsARun | internal/modules/auth/service.go:141-157 | a first code that cannot be stored does not undo the registration |
| AuthSequential.ResendIsARun | internal/modules/auth/verification.go:110-131 | an undisturbed resend to an unverified account is a run that replaces its code |
| AuthSequential.ForgotPasswordIsARun | internal/modules/auth/password_reset.go:12-56 | an undisturbed request for a reset is a run that replaces the token of the account |
| AuthSequential.TokensLiveTheirLifetime | internal/modules/auth/domain.go:175-178 | from any reachable world, a reset token that is left alone replaces the password exactly while less time has passed than its lifetime |
| AuthSequential.CodesLiveTheirLifetime | internal/modules/auth/domain.go:161-164 | from any reachable world, a code that is left alone confirms the address and opens one session exactly while less time has passed than its lifetime |
| AuthSequential.SetZoneIsAStep | internal/modules/auth/profile.go:22-40 | a profile edit moves the zone of one account, to less than a day from UTC, and nothing else |
| AuthSequential.RecordActivityIsARun | internal/modules/auth/service.go:253-275 | an undisturbed touch after a progress write is a run that moves the counters and nothing else |
| AuthSequential.RefusedRequestsDoNothing | internal/modules/auth/service.go:162-190 | a request that fails one of the checks before its first statement does nothing |
| AuthSequential.RequestsMayDie | internal/modules/auth/password_reset.go:83-88 | a request may die wherever it is: no statement runs, and only a miss not recorded or a spending not made is noted |

## Left out

- HTTP handlers, routes, middleware, configuration, health checks, logging and rate limiting: plumbing. The DTO rules of `internal/modules/auth/dto.go` (a password needs a letter and a digit, a character minimum) sit in front of the service and are not part of this model.
- JSON bytes: values are abstract, so key case folding, duplicate keys, escaping and whitespace are not modelled. Which texts are timestamps, and how an instant is written, is decided by an arbitrary library in which a written instant reads back as itself; instants that cannot be written are not part of this model.
- Byte sizes: the length of an encoding is an arbitrary function; what is proved is that an oversized result is refused and nothing changes.
- SHA-256, bcrypt, JWT and random generation: `hashSecret` is an arbitrary function, injective where a theorem needs it, and the comparison of passwords is an arbitrary predicate.
- Mail: a send has no effect on the tables and its failure is only logged, so it does not appear.
- `valueobject` checks: addresses arrive parsed or refused, user ids arrive valid, and the unknown-owner error of the progress row is not modelled.
- Profiles apart from the time zone, which is an offset under a day that any step may change; the IANA database is not modelled.
- Read-only use cases: Get, Snapshot, Me and FindByID only return what a row holds.
- Failures of auth database statements: a request that fails there ends without a further effect, which the interleaved machine covers by dropping it.
- Fractions of a second: auth instants are whole seconds, the precision of the stored TIMESTAMP columns.
- AuthAttained.SessionBoundIsAttained: for code lifetimes over one second, because its requests confirm one account at two alternating instants while the code lives.
- AuthAttained.WhenCodesAreSingleUse: for code lifetimes over one second, because it rests on those runs.
- Timestamps of rows (`created_at`, `updated_at`), and the 32-bit width of the counter columns.
- Scoring.Skills.SetScore: works on a value where the source writes through a pointer to a local copy; there is no aliasing to capture.
- Text.SortStrings: stands for the library's sort with an insertion sort; every correct sort of distinct strings returns the same list. On valid UTF-8, byte order is character order.
- AuthProtocol.StartPlan: creates an account in one step whatever the earlier address check said, because the unique index decides there too.
- AuthProtocol.SendsCode: reads the clock and writes the row in one step, and marking an address reads its zone in the same step.
- AuthProtocol.SendsReset: gives every account a row of its own; a generated token whose hash is another account's, which `AuthStore.AuthRepository.PutReset` covers, is not part of the interleaved machine.
- AuthStore.AuthRepository.PutReset: with two unique indexes in conflict, the row of the one declared first (`migrations/00004_add_email_verification_and_password_reset.sql:49`) is taken to be the one renewed.
