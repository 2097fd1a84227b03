# Verified model of the common library's stateful core

This project models, in Dafny, the parts of the Go library whose correctness depends on order, crashes and
history rather than on one function body, and proves what they keep.

* **Login state** (`satoken`): a key-value store with time-to-live holds token to account, account to session
  with its terminal list, and last-active stamps. `MemoryStore.dfy` is the store as a class over a clock;
  `LoginSpec.dfy` says which writes each operation makes, in which order; `Logic.dfy` is the code, key by key,
  proved to make exactly these writes (or the first of them, when its context is cancelled on the way);
  `LoginKeys.dfy` connects the string keys with the state; `TokenIndex.dfy`, `LoginInvariant.dfy`,
  `LoginCrash.dfy`, `LoginTidy.dfy` and `LoginTorn.dfy` prove what holds after every single write; `LoginEffects.dfy`
  says what each completed operation leaves, from the states before and after alone; `LoginRuns.dfy`,
  `LoginFinality.dfy`, `LoginIdle.dfy`, `LoginIsolation.dfy`, `LoginTerminals.dfy` and `LoginAnswers.dfy` what holds
  over every run of operations, crashes and waiting; `LoginWitness.dfy` and `LoginLockout.dfy` show what the
  exceptions lead to.
* **Session codec** (`satoken/session_codec.go`): `Sessions.dfy`, `SessionCodec.dfy`, `CodecRoundTrip.dfy`,
  `CodecDialects.dfy` and `SessionDocuments.dfy` (every document, whoever wrote it), over JSON trees.
* **Transactions in the context** (`db/tx.go`): `Transactions.dfy`, an interpreter for programs of statements,
  errors, panics and nested `Within`, against a driver that may fail anywhere; `NestedErrors.dfy`, when an inner
  error rolls everything back; `DriverAnswers.dfy`, results in terms of the driver's replies.
* **Transactional outbox** (`mongox/mongox.go`): `Outbox.dfy`, `OutboxDocuments.dfy`,
  `OutboxReplayer.dfy`, `OutboxCounts.dfy`, `OutboxDrain.dfy` and `OutboxOvertaking.dfy`, a step machine with failing
  applies, lost marks and crashes; `TransactionalOutbox.dfy` joins it with the transactions that enqueue the events;
  `Utf8.dfy` is the cut of error messages.
* **Write builder with optimistic locking** (`mysqlx/mysqlx.go`): `WriteBuilder.dfy` (the text and its arguments),
  `StatementText.dfy` (reading a statement back), `OptimisticLock.dfy` (histories on rows), `CommandEffects.dfy` (what
  the sent text does to a row).
* **Two string transformers**: `EnvTemplates.dfy` (`config/config.go`) and `ObjectPath.dfy` (`objectstore/s3.go`).

`dafny verify dfyconfig.toml` checks everything.

## Where the code falls short of what is said about it

Each of these is a proved statement, with the exact condition where there is one.

* `db/tx.go:112` says that an error of a nested `Within` rolls the outer transaction back. An inner error that the
  outer body handles is committed, with everything the inner call had done. `NestedErrors.InnerErrorsRollBackExactly`
  says for which bodies the promise holds, and `NestedErrors.DroppedInnerErrorIsCommitted` names one for which it
  does not.
* A session whose permission list is a nil `[]any` reads back with the permission `java.util.ArrayList`
  (`CodecRoundTrip.NilListGrantsWrapper`): the encoder wraps the nil list as `["java.util.ArrayList", null]`, which
  the decoder does not recognise as a wrapper. `CodecRoundTrip.PermissionsSurviveExactly`,
  `CodecRoundTrip.StringsSurviveExactly` and `CodecRoundTrip.RoundTripExactly` give the exact conditions for
  permissions, string lists and whole sessions.
* Renewing in share mode maps the token before it renews the session. With a finite timeout a crash between the
  two can leave a token that outlives its session; this is the only unsafe cut of any operation
  (`LoginCrash.EveryPrefix`, `LoginWitness.TornRunExists`), and with timeout -1 there is none
  (`LoginCrash.NeverTorn`).
* A login that crashes between mapping its token and stamping it leaves a token without a stamp. Until a check has
  accepted it once, however late, no idle time ends it; only its own deadline does, and with timeout -1 it has none
  (`LoginIdle.CutLoginNeverIdles`). `LoginIdle.EveryPrefixStamps` lists the cuts that do so exactly.
* Logging out a token that has expired but is still listed leaves it listed, and a later share-mode login can
  bring the very same token back to life (`LoginFinality.LogoutFinalExactly`, `LoginWitness.RevivedRunExists`).
* `SaveSession` stores a data map that the decoder then rejects. In every run from there on each login of the account
  fails until the stored session expires or a session of the account is saved; with timeout -1 it never expires
  (`LoginLockout.UnreadableDataLocksAccount`, an if-and-only-if).
* A positive timeout of more than 9223372036 seconds overflows `time.Duration` and ends the value early
  (`MemoryStores.TimeoutsAsDocumented`).
* With failing applies and two open rows for one document, either event can be made the last one
  (`OutboxOvertaking.UndisciplinedCanEndWrong`).
* `Update` keeps `id` and `is_deleted` out of the SET list by exact spelling only, while the database resolves
  quoted, qualified and capitalised names to the same column (`OptimisticLock.ProtectedColumnsExactly`,
  `OptimisticLock.QuotedFlagIsWritten`); and a field that writes `version` can make the same expected version win
  twice (`OptimisticLock.VersionWrittenWinsTwice`, with the exact condition in `OptimisticLock.CountsExactly`).

## Model

| member | source | states |
|---|---|---|
| `LoginKeys.KeysAreUnambiguous` | satoken/logic.go:75-95 | Two keys of the four families are equal if and only if family and name are, whatever the names and the configured prefixes contain. |
| `LoginKeys.KeysOfTheTests` | satoken/logic_test.go:17-31 | The four keys of a configured system, as literal texts. |
| `LoginKeys.LoadReadsTheEntry` | satoken/logic.go:361-374 | The session of an account is what the text under its literal key decodes to: missing, unreadable or a session. |
| `LoginKeys.OwnerReadsTheEntry` | satoken/logic.go:224-237 | The owner of a token is the text under its literal key, unless the token is empty or the text blank. |
| `LoginKeys.StoreWriteRefines` | satoken/logic.go:75-95 | A store write under a string key does to the tokens, sessions and stamps exactly what the planned write says and touches nothing else. |
| `LoginKeys.TickRefines` | satoken/store.go:70-75 | Entries expiring in the store are the tokens, sessions and stamps expiring in the state. |
| `TokenIndex.SafetyIsExact` | satoken/logic.go:131-144 | A single change of either index keeps forward and reverse index in agreement if and only if it meets the stated guard. |
| `TokenIndex.TimeKeepsAgreement` | satoken/store.go:70-75 | Expiry alone never separates the two indexes. |
| `TokenIndex.AgreementIsTidy` | satoken/logic.go:99-220 | Indexes in agreement are tidy: every token is live and listed with one account only. |
| `TokenIndex.GoneIsUnissued` | satoken/logic.go:99-220 | A token is neither live nor listed if and only if the index is tidy without it among the issued tokens. |
| `LoginInvariant.WriteKeepsConsistency` | satoken/logic.go:99-220 | The next write of any operation keeps the state consistent if and only if it is safe at that point. |
| `LoginInvariant.ReplacedIsSafe` | satoken/logic.go:198-220 | Every prefix of an eviction keeps the indexes in agreement, and at its end the account owns and lists no token. |
| `LoginInvariant.LiveToken` | satoken/logic.go:224-237 | In a consistent state a live token names an account with a live, readable session that lists it and lives at least as long. |
| `LoginCrash.FreshIsSafe` | satoken/logic.go:121-145 | Saving the session before mapping the new token keeps the agreement after each write. |
| `LoginCrash.LogoutIsSafe` | satoken/logic.go:166-196 | Every prefix of a logout, unmapping first and unlisting last, keeps the agreement. |
| `LoginCrash.RenewPrefixes` | satoken/logic.go:148-164 | Of a renewal's prefixes exactly one can break the agreement: the token mapped and the session not yet renewed, if the session is due earlier. |
| `LoginCrash.EveryPrefix` | satoken/logic.go:99-220 | Cutting any operation after any number of its writes leaves a consistent state if and only if it is not that one cut of a renewal. |
| `LoginCrash.NeverTorn` | satoken/logic.go:148-164 | With timeout -1 the excepted cut does not exist. |
| `LoginTidy.EveryPrefixIsTame` | satoken/logic.go:99-220 | Any cut of any operation, the torn renewal included, leaves every token with its own account only, and nothing is live or listed that was not, but for the account and the token of the operation. |
| `LoginTorn.EveryPrefixAgreesButForTorn` | satoken/logic.go:99-220 | Any cut of any operation keeps the agreement for all tokens but those whose last mapping was torn. |
| `LoginRuns.RunIsWellKept` | satoken/logic.go:78-220 | Every run of completed operations, cuts anywhere and waiting keeps each token with its own account and the agreement of all tokens that are not torn, and tears nothing unless logins may be concurrent. |
| `LoginRuns.InterruptedCallIsACut` | satoken/logic.go:99-220 | A call cancelled half-way leaves the state of a cut step, and all that runs keep. |
| `LoginRuns.EveryTokenIsAnchored` | satoken/logic.go:78-220 | In every reachable state a live token whose last mapping was not torn maps to an account whose live session has that login id, lists the token and expires no earlier. |
| `LoginRuns.CrashesNeverTear` | satoken/logic.go:136-219 | With timeout -1, or without concurrent logins, crashes at any point of any run leave no torn token and the whole state consistent. |
| `LoginRuns.TornCutStrandsToken` | satoken/logic.go:150-160 | After a torn cut there is a waiting time at which the token is live and its session is not. |
| `LoginWitness.TornRunExists` | satoken/logic.go:109-160 | With a finite timeout, concurrent and shared logins, a run from the empty store ends with a live token and no session. |
| `LoginRuns.AtMostOneToken` | satoken/logic.go:104-108 | Without concurrent logins two live tokens of one account are the same, in every reachable state, whatever crashed on the way. |
| `LoginRuns.LoginIssuesTheLiveToken` | satoken/logic.go:99-146 | A completed login's token is live for the account, and without concurrency it is new and the only one, shared or not. |
| `LoginFinality.EvictedIsGone` | satoken/logic.go:199-220 | After an eviction no token the account listed is live or listed anywhere. |
| `LoginFinality.GoneForGood` | satoken/logic.go:109-119 | A token that is neither live nor listed is never live, listed or accepted again in any run, torn cuts included. |
| `LoginFinality.LogoutFinalExactly` | satoken/logic.go:166-196 | A completed logout removes the token for good if and only if it was live or already gone. |
| `LoginFinality.KilledIsGone` | satoken/logic.go:166-271 | Any completed operation that ends a live token also unlists it. |
| `LoginFinality.EndedTokensStayEnded` | satoken/logic.go:166-279 | A live token ended by logout, eviction or idleness is refused in every later run, whatever crashes. |
| `LoginFinality.ExpiredTokenIsRevived` | satoken/logic.go:109-119 | Logging out an expired token that is listed first, then logging in, answers that very token, live. |
| `LoginWitness.RevivedRunExists` | satoken/logic.go:109-196 | A run from the empty store logs a token out and makes it live again. |
| `LoginIsolation.EveryPrefixLeavesOthersAlone` | satoken/logic.go:99-308 | Any cut of any operation leaves every account that the operation is not about with the same session, the same live tokens and their stamps, deadlines included. |
| `LoginIsolation.MatchingAnswers` | satoken/logic.go:99-308 | Where the store holds the same of an account, an operation about it is allowed, writes and answers the same. |
| `LoginIsolation.OwnRunMatches` | satoken/logic.go:99-308 | From two worlds that hold the same of an account, a run and the same run without the other accounts' operations, crashed ones included, end in worlds that hold the same of it. |
| `LoginIsolation.OthersDoNotInterfere` | satoken/logic.go:99-308 | Taking all operations of the other accounts out of a run from the empty store changes nothing that the store holds of an account, nor what any later operation about it writes and answers. |
| `LoginEffects.LoginLeaves` | satoken/logic.go:99-146 | A login that signs in with a new token keeps the session's id, token, creation time and data, sets type, login type and login id, keeps the former terminals field by field unless evicted, and appends one numbered, named DEF and dated now; token, session and stamp are due anew, evicted tokens are unmapped and unstamped, and nothing else in the store changes. |
| `LoginEffects.RenewalLeaves` | satoken/logic.go:109-164 | A renewal answers the current token, maps it again, stores the session with all it holds again and stamps the token; nothing else changes. |
| `LoginEffects.RenewMapsAnyway` | satoken/logic.go:149-164 | Where the session cannot be loaded a renewal still maps the token, and succeeds if and only if the session is missing rather than unreadable. |
| `LoginEffects.FirstTokenExactly` | satoken/logic.go:241-252 | The token that share mode answers is the first listed one that is not empty. |
| `LoginEffects.ReplacedLeaves` | satoken/logic.go:199-220 | An eviction keeps the session but for its terminals, and unmaps and unstamps exactly the listed tokens. |
| `LoginEffects.FailedLoginLeaves` | satoken/logic.go:99-124 | A login for a blank id changes nothing, and one that gets no token nothing but the eviction. |
| `LoginEffects.LogoutLeaves` | satoken/logic.go:167-196 | A logout unmaps and unstamps exactly its token and takes its terminal off the owner's session, which keeps all else and goes with its last terminal. |
| `LoginEffects.LogoutDeletesFirst` | satoken/logic.go:166-176 | In any state the first three writes of a logout delete the token's mapping, stamp and token session. |
| `LoginEffects.CheckLeaves` | satoken/logic.go:255-279 | A check refuses and logs out a live token that is idle, accepts and only stamps one that is not, and changes nothing without an idle timeout or for a token that is not live. |
| `LoginEffects.SaveLeaves` | satoken/logic.go:294-308 | SaveSession changes the one session; loaded again it has its given id, type and login type, or for each that was empty the default, and all else it had; it fails to load only for an unreadable data map. |
| `LoginAnswers.AnswersLast` | satoken/logic.go:99-220 | In any run without a save of the account, its session answers StringList and String under every steady key as before, unless the session was gone in between, and then nothing. |
| `LoginAnswers.PermissionsLast` | satoken/logic.go:312-322 | So CheckPermission stays the same for every code from one save of the account to the next. |
| `LoginTerminals.TerminalsStayOrdered` | satoken/session_codec.go:152-179 | In every run of at most 2^53 steps each account's terminals keep distinct non-empty tokens and increasing numbers within 1..historyTerminalCount, though each save goes through JSON. |
| `LoginTerminals.NumbersCollidePast53Bits` | satoken/session_codec.go:301-310 | After terminal number 2^53 the next one reads back with the same number. |
| `LoginLockout.SavedLoadsExactly` | satoken/logic.go:294-308 | After SaveSession the account's session loads if and only if the decoder accepts its data map, and then as the stated normal form; the rest of the store is as before. |
| `LoginLockout.UnreadableDataLocksAccount` | satoken/logic.go:294-374 | After saving a session whose data map the decoder rejects, in every run, a login of the account with a fresh token fails if and only if the stored session has not expired and no session of the account was saved; otherwise it succeeds. |
| `LoginLockout.LockedLogoutAnswers` | satoken/logic.go:167-196 | While such a session is stored, logging out a token of the account deletes the token all the same and reports the session's error. |
| `LoginIdle.EveryPrefixStamps` | satoken/logic.go:139-163 | A cut operation leaves every live token with a lasting stamp if and only if it is not cut between mapping and stamping a new token, or one whose old stamp is missing or due earlier. |
| `LoginIdle.RunStamps` | satoken/logic.go:339-344 | In every run, crashes included, each stamp prints its token's last use, and each live token whose last mapping was not cut before its stamp has one that lives as long. |
| `LoginIdle.CheckSucceedsExactlyWhenRecentlyUsed` | satoken/logic.go:255-279 | After any run a check accepts a token if and only if it is live and was last logged in, renewed or accepted at most the idle timeout ago, or is one of those cut tokens and has no stamp. |
| `LoginIdle.IdleTokensAreLoggedOut` | satoken/logic.go:255-279 | After any run, a completed check of a live, stamped token last used longer ago than the idle timeout leaves it neither live nor listed nor stamped, and it is not live again in any later run. |
| `LoginIdle.OtherChecksOnlyStamp` | satoken/logic.go:255-279 | Every other check leaves tokens and sessions as they were and stamps a live token with the time. |
| `LoginIdle.RecentInSeconds` | satoken/logic.go:255-279 | A use at most the timeout's seconds ago counts as recent, and one a millisecond or more beyond that does not. |
| `LoginIdle.CutLoginNeverIdles` | satoken/logic.go:139-144 | After a first login that crashes before its last write and any waiting time, the first check accepts the token if and only if its own deadline has not passed, which with timeout -1 it never has. |
| `Text.ParsePrintRoundTrip` | satoken/logic.go:398-405 | Every 64-bit clock value printed in decimal is not blank and parses back. |
| `Text.BlankExactly` | satoken/logic.go:101 | A text is blank if and only if all its characters are spaces. |
| `LoginLogic.Logic.LoginIDByToken` | satoken/logic.go:225-237 | Answers the owner in the current state or is cancelled; changes nothing a reader can see. |
| `LoginLogic.Logic.GetSessionByID` | satoken/logic.go:361-374 | Answers a new object holding the stored session, or its error; changes nothing a reader can see. |
| `LoginLogic.Logic.TokenValueByLoginID` | satoken/logic.go:241-252 | Answers the first listed token of the account. |
| `LoginLogic.Logic.Renew` | satoken/logic.go:149-164 | Makes exactly the planned writes of a renewal in order, or a first part of them when cancelled. |
| `LoginLogic.Logic.EvictListed` | satoken/logic.go:207-217 | The loop deletes the keys of every listed token in list order. |
| `LoginLogic.Logic.Replaced` | satoken/logic.go:199-220 | Makes exactly the planned writes of an eviction, or a first part when cancelled. |
| `LoginLogic.Logic.IssueToken` | satoken/logic.go:121-145 | Makes exactly the planned writes of a fresh sign-in, or a first part when cancelled. |
| `LoginLogic.Logic.Login` | satoken/logic.go:99-146 | Makes exactly the writes of the login plan, in all four mode combinations and on every error path, or a first part when cancelled. |
| `LoginLogic.Logic.Logout` | satoken/logic.go:167-196 | Makes exactly the writes of the logout plan, or a first part when cancelled. |
| `LoginLogic.Logic.CheckLogin` | satoken/logic.go:255-279 | Makes exactly the writes of the check plan and answers its result, or a first part when cancelled. |
| `LoginLogic.Logic.SaveSession` | satoken/logic.go:294-308 | Fills in the defaults and makes the one planned write; refuses nil. |
| `MemoryStores.LazyDeletionUnobservable` | satoken/store.go:60-108 | After any trace a read answers the latest effective Set not followed by a Delete and not past its deadline: reaping at read time cannot be observed. |
| `MemoryStores.TimeoutsAsDocumented` | satoken/store.go:80-97 | At every later time -1 keeps for ever, 0 and -2 or less change nothing, and a positive timeout keeps until it has fully elapsed, if and only if the timeout is at most 9223372036 seconds. |
| `MemoryStores.MemoryStore.Get` | satoken/store.go:60-77 | Answers as the lazy machine does and reaps as it does; the visible entries stay. |
| `MemoryStores.MemoryStore.Set` | satoken/store.go:80-97 | Steps the lazy machine, or changes nothing when cancelled. |
| `MemoryStores.MemoryStore.Delete` | satoken/store.go:100-108 | Steps the lazy machine, or changes nothing when cancelled. |
| `Sessions.SessionObject.Set` | satoken/session_codec.go:110-115 | Writes one key of the data map, creating it when nil; the rest of the session stays. |
| `Sessions.SessionObject.AddTerminal` | satoken/session_codec.go:152-164 | The object becomes the session with the terminal, numbered and defaulted, unless its token is listed. |
| `Sessions.SessionObject.RemoveTerminal` | satoken/session_codec.go:167-179 | The compaction in place leaves exactly the terminals with another token, in order. |
| `Sessions.TerminalListInvariant` | satoken/session_codec.go:152-179 | Over any adds and removes tokens stay distinct, indexes increase within 1..historyTerminalCount, and the count never drops. |
| `Sessions.WithoutLists` | satoken/session_codec.go:167-179 | After a removal exactly the other tokens are listed. |
| `Sessions.WithTerminalLists` | satoken/session_codec.go:152-164 | After adding a terminal exactly the former tokens and the new one are listed. |
| `Sessions.AddedExactly` | satoken/session_codec.go:152-164 | A listed token adds nothing; any other terminal is appended with the raised count as its number, DEF when it has no device type, and changes nothing else. |
| `Sessions.RemovedInOrder` | satoken/session_codec.go:167-179 | Each terminal is kept or removed by itself, in the given order. |
| `Sessions.StringsInOrder` | satoken/session_codec.go:124-131 | A list answers exactly its strings, in order and as often as they occur. |
| `SessionCodec.SmallIntegersAreExact` | satoken/session_codec.go:281-285 | Integers up to 2^53 survive the trip through float64. |
| `CodecRoundTrip.PlainRoundTrip` | satoken/session_codec.go:301-310 | Through json.Marshal and back into an any, content is kept if and only if all its numbers fit a float64. |
| `CodecRoundTrip.NestedRoundTrip` | satoken/session_codec.go:400-459 | A value inside a nested map decodes to its own content if and only if it is clean. |
| `CodecRoundTrip.TopRoundTrip` | satoken/session_codec.go:240-253 | A value directly in the data map survives wrapping and decoding if and only if it is clean. |
| `CodecRoundTrip.ReloadComputes` | satoken/session_codec.go:182-324 | What decode-after-encode gives for every session: the normal form, or an error exactly for an unreadable data map. |
| `CodecRoundTrip.RoundTripExactly` | satoken/session_codec.go:182-324 | Decoding undoes encoding if and only if the session is in the stated domain. |
| `CodecRoundTrip.DecodedIsReadable` | satoken/session_codec.go:418-459 | Whatever was decoded can be encoded and decoded again. |
| `CodecRoundTrip.StringsSurviveExactly` | satoken/session_codec.go:118-149 | Under every key but @class, String never changes and StringList stays the same if and only if the value is neither a nil list nor a map posing as a collection of strings; @class is dropped, so its answers stay only if they were empty. |
| `CodecRoundTrip.PermissionsSurviveExactly` | satoken/logic.go:312-322 | CheckPermission answers the same for every code if and only if the permissions are neither a nil list nor a map posing as a collection with a non-empty string. |
| `CodecRoundTrip.NilListGrantsWrapper` | satoken/session_codec.go:248-249 | A session with a nil permission list reads back with the permission java.util.ArrayList, which it did not have. |
| `CodecDialects.EveryDialectDecodes` | satoken/session_codec.go:326-459 | Each list in a dialect of its own, inside any of three outer forms, reads back as the strings and texts it stands for. |
| `CodecDialects.DialectsAgree` | satoken/session_codec.go:256-459 | Two documents that differ only in the data map's dialect decode alike, with equal StringList and String under every key but @class. |
| `SessionDocuments.SessionDecodes` | satoken/session_codec.go:256-324 | Every JSON object, whoever wrote it, decodes if and only if each named field is absent, null or of its kind and the lists and maps can be read, and then each field of the session is the document's own. |
| `SessionDocuments.OtherDocuments` | satoken/session_codec.go:256-277 | Of all other documents only null decodes, as the empty object does. |
| `SessionDocuments.SessionClassIsIgnored` | satoken/session_codec.go:256-277 | The session's class name may be absent or any text without changing the result. |
| `SessionDocuments.TerminalDecodes` | satoken/session_codec.go:301-310 | An element of the terminal list decodes if and only if its fields are of their kinds, its class name being any text or absent, and then holds them. |
| `SessionDocuments.TerminalFormsAgree` | satoken/session_codec.go:326-358 | The terminal list decodes alike wrapped with its class name, as an object with its items and bare. |
| `SessionDocuments.DataMapDecodes` | satoken/session_codec.go:362-416 | A data map in any of its forms decodes if and only if its entries can be read, and then holds exactly these, without the class name. |
| `SessionDocuments.ValueDecodes` | satoken/session_codec.go:418-459 | A value decodes if and only if no object in it poses as a collection without a list, and then holds the document's content and answers its strings in order. |
| `SessionDocuments.DocumentGrantsExactly` | satoken/logic.go:312-322 | The session of a document has exactly the permissions that are non-empty strings of the document's list, whatever the list's form. |
| `SessionDocuments.NumberLoginIdDecodes` | satoken/session_codec_test.go:187-197 | The document of the tests, with a number as its login id and no class name, decodes to its session. |
| `SessionDocuments.WrittenForm` | satoken/session_codec.go:182-254 | A session is written with the class names where the Java side reads them, an empty token or terminal list as null, and every field under its name. |
| `Transactions.NestedWithinIsTransparent` | db/tx.go:118-121 | Inside a transaction a program gives the same outcome, effects and driver calls as with all inner Within calls erased. |
| `Transactions.OneBeginOneEnd` | db/tx.go:125-155 | An outermost Within makes one Begin, then its body's statements in the transaction, then one Commit if the body returned nil and one Rollback otherwise. |
| `Transactions.WithinIsAtomic` | db/tx.go:125-155 | A nil result makes all effects visible; an error or panic of the body makes none, keeps the error and raises the same panic. |
| `Transactions.NoTransactionLeaks` | db/tx.go:114-155 | Any program and any driver: the calls obey the driver's protocol and no transaction stays open. |
| `NestedErrors.InnerErrorsRollBackExactly` | db/tx.go:109-121 | An error of a nested Within always rolls the outer transaction back, whatever the driver does, if and only if the text of the body cannot turn an inner error into success. |
| `NestedErrors.UnguardedBodiesRollBack` | db/tx.go:109-121 | So it does where no error handler encloses a nested Within. |
| `NestedErrors.DroppedInnerErrorIsCommitted` | db/tx.go:109-121 | It does not hold of a body that drops the error of a nested Within. |
| `NestedErrors.HandledInnerErrorCommits` | db/tx.go:109-121 | A handler around a failing nested Within commits all, the inner effects included, if it and what follows succeed. |
| `Transactions.Handle.ExecContext` | db/tx.go:53-61 | Runs the statement in the context's transaction if there is one, else on the pool, else refuses. |
| `Transactions.Handle.CallWithin` | db/tx.go:114-155 | Does to the database what the meaning of Within says, for nil functions and handles, joined and outermost calls. |
| `DriverAnswers.StatementAnswers` | db/tx.go:53-61 | A statement makes one call, to the connection its context says, and answers nil if and only if the driver's reply is fine, else the driver's own error; an uninitialised handle refuses it without a call. |
| `DriverAnswers.StatementTakesEffect` | db/tx.go:53-61 | Its effect goes where it was sent, into the open transaction or to the committed data, if the driver carried it out. |
| `DriverAnswers.CannotBegin` | db/tx.go:122-128 | Without a pool, or when the driver cannot begin, Within returns that error and nothing happens. |
| `DriverAnswers.WithinAnswers` | db/tx.go:129-155 | The result of an outermost Within in terms of its body's own and the driver's last reply: the same panic, the body's error joined with a failed rollback's, nil only for a fine commit, and else the commit's error. |
| `DriverAnswers.WithinTakesEffect` | db/tx.go:125-155 | Exactly the body's effects become visible when it returned nil and the commit took effect, even if its answer was lost; otherwise none. |
| `DriverAnswers.NothingFailsInSilence` | db/tx.go:109-155 | Around a body without handlers Within returns nil only if every call was answered fine; after a statement that was not, only the rollback is sent, its error comes out and nothing becomes visible. |
| `Utf8.ShorteningValidText` | mongox/mongox.go:207-218 | Cutting valid text gives its longest valid prefix within the width, at most three bytes short of it. |
| `Utf8.Truncate` | mongox/mongox.go:209-218 | The loop computes that cut. |
| `Utf8.ShorteningAnyText` | mongox/mongox.go:207-218 | Any text, valid or not: what fits stays as it is, and the cut is the longest valid prefix that fits. |
| `Utf8.EncodedIsCharacter` | mongox/mongox.go:214 | The encoding of every scalar value (section 3 of RFC 3629) is recognised as one character. |
| `Utf8.CharacterIsEncoded` | mongox/mongox.go:214 | Whatever is recognised as a character is the encoding of a scalar value. |
| `Outbox.RunAccounted` | mongox/mongox.go:45-48 | In any run with any failures attempts never exceed 10 and every done row was applied successfully. |
| `Outbox.SelectedExactly` | mongox/mongox.go:82-84 | A row is selected if and only if it is not done, has fewer than 10 attempts and the batch is not full of earlier ones. |
| `Outbox.DrainedDocsAreTheFold` | mongox/mongox.go:78-96 | With succeeding applies, and selects failing, marks lost and crashes anywhere: once no row is pending the documents are the committed events applied in commit order. |
| `OutboxDocuments.DrainedDocIsTheFold` | mongox/mongox.go:156-183 | With failing applies the same holds for each document that never had two open rows and has none left. |
| `TransactionalOutbox.WithinCommitsOnceOrAborts` | db/tx.go:125-155 | An outermost Within gives the outbox one commit of exactly the events its body enqueued, or nothing: the commit when it returns nil, nothing when it cannot begin or its body fails or panics. |
| `TransactionalOutbox.ServingIsARun` | mongox/mongox.go:78-96 | Services and replayer in any order, with any driver, are a run of the outbox whose committed events are those of the committed statements. |
| `TransactionalOutbox.DrainedDocsFollowTheCommits` | mongox/mongox.go:78-96 | With succeeding applies, once no row is pending the documents are the events of the committed statements applied in commit order. |
| `TransactionalOutbox.DrainedDocFollowsTheCommits` | mongox/mongox.go:156-183 | With failing applies the same for each document that never had two open rows and has none left. |
| `OutboxOvertaking.RetriedLastWins` | mongox/mongox.go:160-178 | Any pending row with two attempts left can be the last to reach its document. |
| `OutboxOvertaking.UndisciplinedCanEndWrong` | mongox/mongox.go:160-178 | From any state with two such rows of one document and different effects, some continuation settles all rows and leaves the document different from the fold. |
| `OutboxOvertaking.OvertakenEventWins` | mongox/mongox.go:160-178 | For example a run from the start whose final document is the older one. |
| `OutboxReplayer.SweepIsARun` | mongox/mongox.go:156-183 | A sweep is a run of the small steps, so what holds of runs holds of it. |
| `OutboxReplayer.Stores.SelectPending` | mongox/mongox.go:82-84 | Selects the first pending rows in order, at most the limit. |
| `OutboxReplayer.Replayer.Replay` | mongox/mongox.go:161-180 | One event: apply, then record success or the shortened error, as the two small steps say. |
| `OutboxReplayer.Replayer.Sweep` | mongox/mongox.go:156-183 | The loop ends with the tables, the count and the error of the specified sweep, whatever fails. |
| `OutboxCounts.SweepCounts` | mongox/mongox.go:156-183 | A sweep counts exactly the rows whose apply succeeded and whose mark was acknowledged, and fails if and only if the select or a mark reports an error. |
| `OutboxCounts.SweepRecords` | mongox/mongox.go:160-181 | Each row reached before a failing mark gets one attempt more and is done or holds its error cut to 1000 bytes; a mark that fails may or may not have been written; no other row changes. |
| `OutboxCounts.WithinLimits` | mongox/mongox.go:45-48 | In every run no row has more than 10 attempts or an error of more than 1000 bytes. |
| `OutboxDrain.SweepTries` | mongox/mongox.go:156-183 | Without store errors a sweep tries each selected row exactly once. |
| `OutboxDrain.DrainBound` | mongox/mongox.go:45-48 | N selectable rows in batches of B: at most 10*N/B + 10 sweeps find work, whatever the applies do. |
| `OutboxDrain.EmptySweepMeansSettled` | mongox/mongox.go:82-84 | A sweep finds nothing if and only if every row is done, having been applied, or has used up its attempts. |
| `OutboxDrain.SweepsDrain` | mongox/mongox.go:156-183 | After more sweeps than the bound the table is settled. |
| `WriteBuilder.Connection.Insert` | mysqlx/mysqlx.go:246-266 | Sends the rendered insert of exactly the fields with a value, or reports that there is none and sends nothing. |
| `WriteBuilder.Connection.Update` | mysqlx/mysqlx.go:273-296 | Sends the rendered update of the writable fields, the id and the expected version, or nothing when there is nothing to set. |
| `WriteBuilder.Connection.UpdateColumn` | mysqlx/mysqlx.go:299-302 | Sends the one-column update, nil included. |
| `WriteBuilder.Connection.Delete` | mysqlx/mysqlx.go:305-308 | Sends the soft delete of the live row. |
| `WriteBuilder.KeptExactly` | mysqlx/mysqlx.go:250-257 | Exactly the fields with a value are inserted. |
| `WriteBuilder.KeptInOrder` | mysqlx/mysqlx.go:250-257 | Each field is inserted or left out by itself, in the given order and as often as it is given. |
| `WriteBuilder.AssignedExactly` | mysqlx/mysqlx.go:276-282 | Exactly the fields with a value, other than id and is_deleted, are set. |
| `WriteBuilder.AssignedInOrder` | mysqlx/mysqlx.go:276-282 | Each field is set or left out by itself, in the given order. |
| `WriteBuilder.AffectedExactly` | mysqlx/mysqlx.go:311-321 | A count is answered if and only if the database gave one; any failure comes out with its cause. |
| `WriteBuilder.MarksMatchExactly` | mysqlx/mysqlx.go:261-296 | Marks and arguments agree in number if and only if no table or column name holds a question mark. |
| `WriteBuilder.BindingIsFaithful` | mysqlx/mysqlx.go:261-296 | Binding the k-th mark to the k-th argument gives the statement with each value in its own place, id and version in the WHERE clause, whatever the values contain. |
| `WriteBuilder.PlaceholdersJoinMarks` | mysqlx/mysqlx.go:189-204 | Both spellings are n marks joined by their separator, and empty when n is not positive. |
| `StatementText.CommandDeterminesStatement` | mysqlx/mysqlx.go:246-308 | With names free of separators, query and arguments determine the statement: no two are sent alike. |
| `CommandEffects.CommandDoesWhatItSays` | mysqlx/mysqlx.go:273-308 | Read word by word from its text, with marks taking arguments from left to right, the command of an update or delete selects exactly the rows its statement hits and changes them as its statement does. |
| `CommandEffects.SentHistory` | mysqlx/mysqlx.go:273-308 | A history of sent texts changes a row as the history of statements does, so all that holds of these histories holds of what is sent. |
| `CommandEffects.SentUpdate` | mysqlx/mysqlx.go:273-296 | The text of Update hits exactly the live row with the id at the expected version, and gives each column but the version the last writable field that names it. |
| `CommandEffects.SentUpdateColumn` | mysqlx/mysqlx.go:299-302 | The text of UpdateColumn writes the one column of the live row with the id, and leaves every other row. |
| `CommandEffects.SentDelete` | mysqlx/mysqlx.go:305-308 | The text of Delete marks the live row with the id as deleted, and leaves every other row. |
| `CommandEffects.SentInsert` | mysqlx/mysqlx.go:246-266 | The text of Insert writes exactly the fields with a value, each column with its own, in the given order. |
| `OptimisticLock.UpdateWritesFields` | mysqlx/mysqlx.go:273-296 | A hit writes each column with the last field that names it and leaves every other column but the version. |
| `OptimisticLock.ProtectedColumnsExactly` | mysqlx/mysqlx.go:268-282 | The id or the deletion flag gets into the SET list if and only if a field names that column in another spelling: capitals, backquotes, a qualifier or blanks. |
| `OptimisticLock.QuotedFlagIsWritten` | mysqlx/mysqlx.go:276-282 | A field with the quoted flag deletes the row it hits. |
| `OptimisticLock.DeletedRowIsFrozen` | mysqlx/mysqlx.go:273-308 | A row that is not live never changes again under any history. |
| `OptimisticLock.DeleteIsFinal` | mysqlx/mysqlx.go:304-308 | A delete that hits marks the row for good. |
| `OptimisticLock.CountsExactly` | mysqlx/mysqlx.go:283-294 | A statement moves the version of every row it hits by one, or not at all when unversioned, if and only if no field disturbs the version. |
| `OptimisticLock.VersionCountsWins` | mysqlx/mysqlx.go:273-308 | Over any such history the final version is the first plus the number of versioned updates that hit. |
| `OptimisticLock.LaterWinnersExpectMore` | mysqlx/mysqlx.go:273-308 | Each expected version wins at most once on a row; later winners expect greater versions. |
| `OptimisticLock.NoLostUpdate` | mysqlx/mysqlx.go:273-308 | Between reading a version and the hit of an update that expects it, no versioned update hits. |
| `OptimisticLock.VersionWrittenWinsTwice` | mysqlx/mysqlx.go:276-285 | An update that writes the version through a field can win again with the same expectation. |
| `OptimisticLock.CountMeansWon` | mysqlx/mysqlx.go:283-321 | With an expected version the affected count is 1 if the row is live at that version, and 0 otherwise. |
| `EnvTemplates.ScanUndoesPrint` | config/config.go:387-413 | Scanning a printed well-formed template gives its segments back. |
| `EnvTemplates.PrintUndoesScan` | config/config.go:387-413 | Every text is the print of one well-formed template, perhaps with a placeholder left open at its end. |
| `EnvTemplates.ExpandsWhatIsPrinted` | config/config.go:386-413 | Expanding a printed template gives the concatenation of its segments' values; substituted text is not read again. |
| `EnvTemplates.FailsExactly` | config/config.go:397-409 | Expansion fails if and only if a placeholder is left open, or one is unset without a default. |
| `EnvTemplates.PlaceholderValue` | config/config.go:397-409 | A placeholder stands for the variable when it is set, even to nothing, else for its default, else fails; the text around it and after it is kept and expanded on its own. |
| `EnvTemplates.NoPlaceholder` | config/config.go:390-400 | Text without an opening stays as it is, and an opening without an end fails with all that follows it. |
| `EnvTemplates.ExpandEnv` | config/config.go:387-413 | The loop terminates with the value of the scanned template, or its first error. |
| `ObjectPath.UnreservedExactly` | objectstore/s3.go:363 | The listed characters are the unreserved ones of section 2.3 of RFC 3986. |
| `ObjectPath.DecodeUndoesEscape` | objectstore/s3.go:354-373 | Percent-decoding the output returns the key, for every byte string. |
| `ObjectPath.EscapeIsInjective` | objectstore/s3.go:354-373 | Two keys have the same output if and only if they are equal. |
| `ObjectPath.EscapeDistributes` | objectstore/s3.go:354-373 | Escaping distributes over concatenation. |
| `ObjectPath.EscapedIsNormal` | objectstore/s3.go:362-373 | The output is in the normal form of RFC 3986: upper-case digits, and nothing escaped that need not be. |
| `ObjectPath.NormalIsEscaped` | objectstore/s3.go:362-373 | Conversely each text in normal form is the output for the key it decodes to. |
| `ObjectPath.EscapedAlphabet` | objectstore/s3.go:362-373 | Only unreserved characters, percent signs and slashes come out. |
| `ObjectPath.SegmentsKept` | objectstore/s3.go:354-360 | Splitting the output at slashes gives the escaped segments of the input, in order. |
| `ObjectPath.AwsEscape` | objectstore/s3.go:362-373 | The loop escapes byte by byte. |
| `ObjectPath.EscapePath` | objectstore/s3.go:354-360 | Rewriting the segments in place and joining them escapes the key byte by byte with slashes kept. |

## Left out

- Two operations of the login logic interleaved on one account, and SaveSession with a stale snapshot or edited terminals: the store has no multi-key atomicity, so operations are atomic or cut, and saved snapshots are current.
- LoginRuns.RunIsWellKept: SaveSession is given a session whose data map the decoder accepts; LoginLockout.UnreadableDataLocksAccount says what happens otherwise, for runs in which all later saves are readable.
- LoginTerminals.TerminalsStayOrdered: SaveSession is given a session with the stored terminal count, and the run has at most 2^53 steps; LoginTerminals.NumbersCollidePast53Bits shows what happens past that.
- LoginIdle.CheckSucceedsExactlyWhenRecentlyUsed: the clock's milliseconds fit an int64.
- Timeouts other than -1 and 1..9223372036 seconds in the login configuration; the store itself models all of them, with the 64-bit product of `time.Duration`.
- LoginAnswers.AnswersLast: keys whose value is neither a nil list nor a map posing as a collection, which reading back changes; CodecRoundTrip.StringsSurviveExactly says how.
- Token values and session ids are parameters, assumed new; the styles of `NewTokenValue` and the randomness in `satoken/token.go` are not modelled.
- JSON text: a pair of functions that print a tree and parse it back. Case-insensitive field names, duplicate keys, byte-level trimming and error texts are not modelled.
- Numbers are integers, of an integer type or as float64 with its rounding; fractions, and the 64-bit width of counters, indexes and timestamps, are not modelled. `fmt`'s `%v` is a function of the value, so a session saved under a numeric login id must, as an assumption, read back for the same account.
- Invalid UTF-8 inside session strings, and `strings.TrimSpace` on bytes.
- `MemoryStore.Expire`, `SetExpire`, `Keys`, locking between goroutines, and `RedisStore`.
- `Config.Normalize`, `CheckRole` and `GetSession`: one-branch facts.
- `QueryContext`, `QueryRowContext`, `runtime.Goexit` and `panic(nil)` in a transaction body, and one context carrying the transaction of another database.
- Concurrent replayers, `Loop`, logging, and payload encoding: an applier is taken to save or delete one document, as its contract says.
- Outbox rows are known by position, and creation order is taken to be commit order. Which events a statement enqueues is a parameter; the replayer's marks are steps of their own.
- What the database answers to a statement is a parameter; the effect of statements on rows is modelled for columns without type conversion, with assignments carried out from left to right.
- OptimisticLock.ProtectedColumnsExactly: column names are taken to be column references (quoted, qualified or bare), with letter case folded for ASCII; other SQL text in a column name is not modelled.
- StatementText.CommandDeterminesStatement: names free of spaces, commas, closing parentheses and question marks; other names are not escaped by the code.
- `AppendLimit` and its variants, the `Null*` and `*Arg` helpers, `IsIntegrityViolation`, `WrapNoRows`, `CountRows`.
- `db.Open`, signing and HTTP in `objectstore`, `jwtauth`, `sign`, `redisx`, `server`, `health`, `logging`, `middleware`, `apperr`, `result`, `permission`: foreign calls and plumbing.
- CommandEffects.CommandDoesWhatItSays: names without spaces, commas, closing parentheses and question marks. The reader knows the forms the builder sends, not SQL; a sum with something that is no number is left alone.
