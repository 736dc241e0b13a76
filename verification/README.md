# Verified model of the user service and the signalling core

A Dafny model of two parts of the system, with proofs about every input, every run or every interleaving.
`dafny verify dfyconfig.toml` checks the whole project.

## What is modelled

**User store, listing and paging (Go).** `List` is a small compiler: it turns a filter with six optional parts
into SQL text with numbered placeholders and an argument list. `SqlText` holds the text of the statements, a
lexer, a parser with SQL's precedence and their round trip; `Ilike` the pattern matcher; `ListQuery` the
evaluator (conditions, the sort of ORDER BY, LIMIT and OFFSET), the compiled condition, its meaning and the
method that builds, counts and pages; `Paging` the RPC around it, the page arithmetic in 32 and 64 bits and how
pages fit together.

**User service (Go).** `Domain` holds users and rows, `UserStore` the table and its statements, `UserService`
the operations. Each operation is specified by a function of the table, the call and the environment
(`Served`); the methods of class `Service` load a fresh `User` object, assign its fields, write it back and
blank its password, and are proved to refine that function; `CallLaws` says of each call, on the columns of the
row, when it succeeds and what it leaves and answers. `Runs` proves properties of sequential runs under a
clock that never goes back; `Interleaving` splits each call into a read and a write step and mixes any number
of calls; `LateWrites` says exactly what a write that lands late can undo. `UserHandler` is the profile-update RPC.

**Signalling core (C++).** `Dispatcher` interleaves posting threads, the worker and the destructor at every lock
operation and shared read, and follows the worker loop as a method whose effects are runs of that system.
`PeerSession` and `SessionManager` are the two classes; `Sessions` puts registry, reference counts, weak
references, posted tasks and peer callbacks into one transition system, and `SessionLaws` says what each of its
steps does and what has been sent after a run. `TerminationRace` shows how much of the
state handler must be one step; `Locks` the lock order; `SignalStream` the read loop and the writes.

## Where the code differs from its apparent intent

The model follows the code.

- The ban statement asks the ban JSON for `banned_until`; the struct has no JSON tags, so the key is
  `BannedUntil` and every ban is stored as BANNED_PERMANENTLY, while the reply to a temporary ban says otherwise.
- The search string reaches ILIKE unescaped, so `%`, `_` and backslash act as pattern characters; escaped it would be
  a substring test (`Ilike.EscapedSearchIsSubstring`).
- `List` clamps the page size to 1..100, but `TotalPages` is computed from the size requested.
- A subscription filter with a number outside the enumeration asks for the text UNSPECIFIED, while one on status or
  role asks nothing.
- `UpdateUser` silently ignores a password that already looks hashed, and drops status and role; it does not
  look for another user with the same email or name.
- Subscription history ids have one-second resolution and are unique, so a second change in one second is lost.
- An unconditional write can overwrite a concurrent one: `Interleaving` gives a ban that revives a deleted user,
  a login that erases a ban and two registrations that share an email, and `LateWrites` the exact conditions.
- The dispatcher's worker leaves its loop as soon as it finds the queue empty, and `start` never starts it again.
- Disconnected is a final state without termination, so such a session is never released; `Sessions.ReleasableIff`
  says that only sessions in states without a way out share that fate.
- The connection notice goes through the sink without looking whether one is attached.

## Assumptions

- The clock of a sequential run never goes back and a call reads it once. In the interleaved model a call reads it
  once in each of its two steps, and nothing there relies on its order.
- What bcrypt, the token library and the UUID generator return are inputs of a call; bcrypt output has bcrypt
  form (60 characters and a version mark). Passwords are sequences of characters, and the 60 counts characters.
- A database call that reports an error has no effect. The table's schema is not part of this model: only `id` is
  taken to be a key. A lookup by email returns any live row with that email.
- Case folding works character by character and leaves the three pattern characters alone.
- While pages are read the database reads the table in one order, whichever it is, and keeps that order among equal
  times when it sorts.
- `Register` receives only the fields that the create request fills, so no ban and no subscription.
- `createSession` passes no id to the session it makes; it is modelled as passing the id it was given.
  `SignalStream` inherits `enable_shared_from_this` privately; it is modelled as if its weak self worked, and
  whether a stream is still there when a task runs is an input.
- Nothing calls `PeerSession::start` or `attachSignalStream`; both are steps of the environment. `state_` has no
  value before `start`: any value is allowed.
- A read or write of a shared C++ variable is one step. Handlers and `send` are one step, but for
  `TerminationRace`, which splits the state handler. `Locks` covers the accesses made under a lock, not the unlocked
  reads of the handlers and of the worker loop. Peer callbacks for state changes start on threads that hold
  no lock; those for descriptions and candidates may arrive under a session lock.

## Model

| member | source | states |
|---|---|---|
| `SqlText.CondRoundTrip` | backend/userservice/internal/repository/postgres/postgres_user_repository.go:297-333 | Every condition, of any depth, printed with the parentheses its grouping needs, lexed and parsed with AND binding tighter than OR, comes back as itself |
| `SqlText.QueryRoundTrip` | backend/userservice/internal/repository/postgres/postgres_user_repository.go:336-362 | The COUNT text and the multi-line page text parse back to the very condition, the order by created_at descending and the two placeholder numbers they were built from |
| `SqlText.CountTextIs` | backend/userservice/internal/repository/postgres/postgres_user_repository.go:336-336 | The count statement word by word, white space included |
| `SqlText.PageTextIs` | backend/userservice/internal/repository/postgres/postgres_user_repository.go:357-362 | The page statement word by word, line breaks and indentation included |
| `SqlText.AtoiItoa` | backend/userservice/internal/repository/postgres/postgres_user_repository.go:299-300 | The number printed after a dollar sign reads back as itself, for every number |
| `SqlText.ItoaIsDecimal` | backend/userservice/internal/repository/postgres/postgres_user_repository.go:299-362 | Placeholder numbers are written in decimal |
| `SqlText.LexRender` | backend/userservice/internal/repository/postgres/postgres_user_repository.go:336-362 | Lexing undoes printing for every token list |
| `ListQuery.CompiledMeansWanted` | backend/userservice/internal/repository/postgres/postgres_user_repository.go:288-333 | For every filter and row, the joined condition under its argument list, followed by any further arguments, is accepted by the database and selects the row exactly when the filter wants it and it is not deleted |
| `ListQuery.MoreArgumentsChangeNothing` | backend/userservice/internal/repository/postgres/postgres_user_repository.go:355-355 | Arguments appended for LIMIT and OFFSET do not change the value of any condition that was already well formed |
| `ListQuery.NothingAskedWantsEveryLiveRow` | backend/userservice/internal/repository/postgres/postgres_user_repository.go:297-333 | Empty texts, UNSPECIFIED and absent options ask for nothing |
| `ListQuery.EachPlaceholderNamesItsOwnArgument` | backend/userservice/internal/repository/postgres/postgres_user_repository.go:291-333 | There are as many conditions as arguments, and condition number k reads argument k and no other, whichever parts of the filter are present |
| `ListQuery.AllPartsAsked` | backend/userservice/internal/repository/postgres/postgres_user_repository.go:293-333 | With all six parts asked for: the seven conditions with their columns, operators, numbers and arguments, in order |
| `ListQuery.SearchTextIs` | backend/userservice/internal/repository/postgres/postgres_user_repository.go:298-300 | The literal search text, parentheses included, is the printed form of the three-way OR on one placeholder |
| `ListQuery.JoinTextIs` | backend/userservice/internal/repository/postgres/postgres_user_repository.go:336-336 | Joining condition texts with AND gives the text of their conjunction; an OR group keeps its parentheses |
| `ListQuery.WhereTextIs` | backend/userservice/internal/repository/postgres/postgres_user_repository.go:336-336 | The whole joined WHERE text is the printed form of the compiled condition |
| `ListQuery.FlatSearchLeaksDeletedRows` | backend/userservice/internal/repository/postgres/postgres_user_repository.go:298-300 | Why the parentheses matter: the same text without them parses to another condition, which accepts deleted rows whose email matches |
| `ListQuery.SelectsWantedRows` | backend/userservice/internal/repository/postgres/postgres_user_repository.go:336-365 | Running the compiled condition over any table never fails and yields the wanted rows, in the order in which the table is read |
| `ListQuery.SortedIsSorted` | backend/userservice/internal/repository/postgres/postgres_user_repository.go:360-360 | ORDER BY, evaluated as a sort on the column the text names, puts no row before one that should precede it |
| `ListQuery.SortedIsStable` | backend/userservice/internal/repository/postgres/postgres_user_repository.go:360-360 | Rows of equal time keep the order in which the table is read |
| `ListQuery.BuildWhere` | backend/userservice/internal/repository/postgres/postgres_user_repository.go:288-333 | The text and argument list built step by step are those of the compiled condition |
| `ListQuery.QueryCount` | backend/userservice/internal/repository/postgres/postgres_user_repository.go:336-341 | The COUNT text, parsed and run, gives the number of wanted rows |
| `ListQuery.QueryPage` | backend/userservice/internal/repository/postgres/postgres_user_repository.go:355-368 | The page text with its two appended arguments, parsed and run, sorts the wanted rows newest first and gives the slice at offset and limit, or is rejected for a negative offset |
| `ListQuery.ConvertAll` | backend/userservice/internal/repository/postgres/postgres_user_repository.go:370-378 | The conversion loop keeps every row, in order |
| `ListQuery.Clamp` | backend/userservice/internal/repository/postgres/postgres_user_repository.go:344-352 | The two assignments leave a page of at least 1 and a size in 1 to 100 and no other change |
| `ListQuery.List` | backend/userservice/internal/repository/postgres/postgres_user_repository.go:287-381 | Fails exactly when the database fails either query or the 64-bit offset wraps below zero, and otherwise gives the clamped page of wanted rows, newest first, with their total; the filter is clamped once the count has succeeded |
| `ListQuery.PlainSearchHits` | backend/userservice/internal/repository/postgres/postgres_user_repository.go:297-303 | A search free of pattern characters hits exactly the rows containing it, up to case, in name, email or phone |
| `Ilike.PlainSearchIsSubstring` | backend/userservice/internal/repository/postgres/postgres_user_repository.go:301-301 | For every text, ILIKE with `%s%` is a case-folded substring test when `s` has no pattern character |
| `Ilike.SearchIsSubstringIffPlain` | backend/userservice/internal/repository/postgres/postgres_user_repository.go:297-303 | The search is a substring test on all texts if and only if the string has no `%`, `_` or backslash: List does not escape it, and for any other string a text is accepted that does not contain it |
| `Ilike.LeadingRun` | backend/userservice/internal/repository/postgres/postgres_user_repository.go:301-301 | A leading `%` means: the rest of the pattern matches some suffix |
| `Ilike.StrippedMatches` | backend/userservice/internal/repository/postgres/postgres_user_repository.go:301-301 | For any search string there is a text its pattern accepts, built by dropping the pattern characters |
| `Ilike.FixedLengthPattern` | backend/userservice/internal/repository/postgres/postgres_user_repository.go:301-301 | A pattern of `_` and plain characters matches exactly the texts of its length that agree with it off the `_` |
| `Ilike.EscapedSearchIsSubstring` | backend/userservice/internal/repository/postgres/postgres_user_repository.go:301-301 | With its pattern characters escaped, which List does not do, every search string would be a substring test on every text |
| `Paging.BuildFilter` | backend/userservice/internal/delivery/grpch/user_handler.go:113-134 | UNSPECIFIED subscription fields and a false ban flag become absent filter parts; numbers outside the enumerations become the text UNSPECIFIED |
| `Paging.RequestMeans` | backend/userservice/internal/delivery/grpch/user_handler.go:113-134 | What a request asks for, field by field: a false ban flag and unknown status or role numbers ask nothing, while an unknown subscription number asks for rows whose column literally says UNSPECIFIED |
| `Paging.ListUsers` | backend/userservice/internal/delivery/grpch/user_handler.go:110-142 | Whenever the database answers, the call gives the answer that AnswerNumbers, AnswerLength and AnswersListEveryWantedUserOnce are about, and an error exactly when it does not |
| `Paging.AnswerNumbers` | backend/userservice/internal/domain/mappers.go:156-167 | Every answer, for every table, page and size, reports the page and size requested, the number of users the request asks for and the least number of pages of that size covering them, or 0 pages for a size below 1 |
| `Paging.AnswerLength` | backend/userservice/internal/repository/postgres/postgres_user_repository.go:344-362 | How many users an answer holds: pages below 1 count as page 1, sizes below 1 as 20 and above 100 as 100, and the last page holds the rest |
| `Paging.AnswersAreThePages` | backend/userservice/internal/server/user_server.go:174-188 | The users of successive answers are the pages of the listing with empty passwords |
| `Paging.AnswersListEveryWantedUserOnce` | backend/userservice/internal/delivery/grpch/user_handler.go:110-142 | End to end, for every table, reading order and sizes 1 to 100: the answers to pages 1 to the reported number of pages hold every user asked for exactly once, newest first, with an empty password, and nobody else |
| `Paging.BlankPasswords` | backend/userservice/internal/server/user_server.go:182-185 | The blanking loop empties every password and changes nothing else |
| `Paging.TotalPagesIsLeastCover` | backend/userservice/internal/domain/mappers.go:156-159 | TotalPages is the least number of pages covering the total if and only if that number fits 32 bits, which holds whenever the total does |
| `Paging.OffsetFits` | backend/userservice/internal/repository/postgres/postgres_user_repository.go:344-354 | For every 32-bit page number the offset is non-negative and does not wrap |
| `ListQuery.Int64KeepsLowBits` | backend/userservice/internal/repository/postgres/postgres_user_repository.go:354-354 | The wrapped product lies in 64-bit range and differs from the true one by a multiple of its span |
| `Paging.Int32KeepsLowBits` | backend/userservice/internal/domain/mappers.go:158-163 | The same for the 32-bit conversions of the response |
| `Paging.PagesArePrefix` | backend/userservice/internal/repository/postgres/postgres_user_repository.go:344-365 | The first n pages, one after the other, are the first n times page-size wanted rows |
| `Paging.PagesTileIff` | backend/userservice/internal/domain/mappers.go:156-159 | Pages 1 to TotalPages give the whole result if and only if TotalPages times the clamped size reaches the total |
| `Paging.WhichPageSizesTile` | backend/userservice/internal/delivery/grpch/user_handler.go:141-141 | Sizes 1 to 100 always tile; non-positive sizes tile only an empty result; above 100 the rows beyond 100 times TotalPages are on no page, because the response uses the raw size |
| `Paging.WantedRowsAreListed` | backend/userservice/internal/repository/postgres/postgres_user_repository.go:357-365 | In whatever order the table is read, the wanted rows come out newest first, none twice, equal times in reading order |
| `Paging.EveryTableHasAScan` | backend/userservice/internal/repository/postgres/postgres_user_repository.go:365-365 | Every table can be read in some order that meets each row once, so the results about pages speak of every table |
| `Paging.PagesListEveryWantedUserOnce` | backend/userservice/internal/domain/mappers.go:150-168 | For every table, every order in which it is read and sizes 1 to 100, the pages hold every wanted user of the table exactly once, newest first, and nobody else |
| `Domain.ClearedIfExpired` | backend/userservice/internal/domain/user_domain.go:185-202 | After the check the flag is set exactly when the ban is in force, and a ban in force is untouched |
| `Domain.LoadStoreIsIdentityIffCoherent` | backend/userservice/internal/repository/postgres/postgres_user_repository.go:49-130 | Loading a row and storing it back restores every column if and only if the four derived columns agreed with the JSON |
| `UserStore.User.IsBanned` | backend/userservice/internal/domain/user_domain.go:185-202 | Answers whether the ban is in force and clears only the flag of an expired temporary ban |
| `UserStore.UserRepository.CreateUser` | backend/userservice/internal/repository/postgres/postgres_user_repository.go:133-164 | A user without an id gets the generated one; the row is inserted unless its id exists; on any error the table is unchanged |
| `UserStore.UserRepository.FindByID` | backend/userservice/internal/repository/postgres/postgres_user_repository.go:167-186 | Succeeds exactly for a live row and returns a fresh user equal to it |
| `UserStore.UserRepository.FindByEmail` | backend/userservice/internal/repository/postgres/postgres_user_repository.go:189-208 | Succeeds exactly when a live row has the email, and returns one such row |
| `UserStore.UserRepository.UpdateUser` | backend/userservice/internal/repository/postgres/postgres_user_repository.go:211-252 | Writes every column but id and creation time; an unknown id is an error |
| `UserStore.UserRepository.BanUser` | backend/userservice/internal/repository/postgres/postgres_user_repository.go:420-452 | Sets ban, flag, status and update time of the row; an unknown id goes unnoticed |
| `UserStore.UserRepository.UnbanUser` | backend/userservice/internal/repository/postgres/postgres_user_repository.go:455-476 | Clears ban and flag and sets the row ACTIVE |
| `UserStore.UserRepository.UpdateSubscription` | backend/userservice/internal/repository/postgres/postgres_user_repository.go:479-516 | Stores the subscription and its three derived columns |
| `UserStore.Commit` | backend/userservice/internal/repository/postgres/postgres_user_repository.go:133-252 | A statement touches one row, and only Create adds a key |
| `UserStore.CommitKeepsKeys` | backend/userservice/internal/repository/postgres/postgres_user_repository.go:211-252 | No statement changes the id of a row |
| `UserStore.UpdateKeepsCreation` | backend/userservice/internal/repository/postgres/postgres_user_repository.go:217-235 | UPDATE takes over every column of the user but id and creation time |
| `UserStore.CommitKeepsCoherentIff` | backend/userservice/internal/repository/postgres/postgres_user_repository.go:420-436 | A statement keeps the derived columns equal to the JSON they repeat if and only if it is not a ban whose own flag is unset |
| `UserStore.CommitKeepsUniqueIff` | backend/userservice/internal/repository/postgres/postgres_user_repository.go:133-476 | A statement keeps live emails and names distinct if and only if it does not give a live row what another live row holds, be it by creating, updating or reviving a row |
| `UserStore.EveryBanIsStoredAsPermanent` | backend/userservice/internal/repository/postgres/postgres_user_repository.go:430-433 | The CASE asks for a key the ban JSON never has, so every ban, temporary or not, is stored as BANNED_PERMANENTLY |
| `UserService.Service.Register` | backend/userservice/internal/server/user_server.go:36-87 | Refines the call specification: new row, reply without password, or error with nothing changed |
| `UserService.Service.GetUser` | backend/userservice/internal/server/user_server.go:89-110 | Refines the call specification; the cleared ban stays in memory |
| `UserService.Service.UpdateUser` | backend/userservice/internal/server/user_server.go:112-157 | Refines the call specification: five profile fields, the password only when it does not look hashed |
| `UserService.Service.DeleteUser` | backend/userservice/internal/server/user_server.go:159-172 | Refines the call specification: soft deletion through Update |
| `UserService.Service.Authenticate` | backend/userservice/internal/server/user_server.go:190-239 | Refines the call specification, on which LoginSucceedsIff, LoginRefused and LoginLaw say what it means |
| `UserService.Service.ChangePassword` | backend/userservice/internal/server/user_server.go:255-288 | Refines the call specification |
| `UserService.Service.BanUser` | backend/userservice/internal/server/user_server.go:296-345 | Refines the call specification, on which BanUserLaw says what it means |
| `UserService.Service.UnbanUser` | backend/userservice/internal/server/user_server.go:347-385 | Refines the call specification: refused unless the stored flag is set |
| `UserService.Service.UpdateSubscription` | backend/userservice/internal/server/user_server.go:387-433 | Refines the call specification: the history entry carries the values read before the write |
| `UserService.Service.CancelSubscription` | backend/userservice/internal/server/user_server.go:435-482 | Refines the call specification: refused without a subscription |
| `UserService.Service.SaveAndBlank` | backend/userservice/internal/server/user_server.go:137-156 | The object written is the one blanked afterwards, and the stored hash survives the blanking |
| `UserService.Service.CreateAndBlank` | backend/userservice/internal/server/user_server.go:65-86 | The same for a new user |
| `UserService.Service.RecordLogin` | backend/userservice/internal/server/user_server.go:223-237 | The login time is written if the database answers, and the reply is the same if it does not |
| `UserService.AuditRepository.LogSubscriptionChange` | backend/userservice/internal/repository/mongodb/mongo_user_repository.go:227-249 | Appends the entry unless the collection fails or already has its one-second id |
| `UserService.WritesAreJustified` | backend/userservice/internal/server/user_server.go:36-482 | Every write follows from what the call read: who may write which statement, and which fields stay as read |
| `UserService.BanReplyMatchesRowIffPermanent` | backend/userservice/internal/server/user_server.go:309-322 | The status a ban call returns equals the one it stores if and only if the ban is permanent |
| `CallLaws.FailedCallsChangeNothing` | backend/userservice/internal/server/user_server.go:36-482 | A call of any kind that fails leaves table and history as they were |
| `CallLaws.SilentDatabase` | backend/userservice/internal/server/user_server.go:36-482 | A database that fails the read or the write gives an internal error, to a login a refusal on the read and nothing on the write |
| `CallLaws.HashFormIs` | backend/userservice/internal/server/user_server.go:541-547 | Sixty characters starting with one of the four version marks, character by character |
| `CallLaws.SameStampIff` | backend/userservice/internal/domain/user_domain.go:588-591 | Two moments share a history id if and only if they lie in one whole second |
| `CallLaws.RegisterLaw` | backend/userservice/internal/server/user_server.go:36-87 | Registration succeeds if and only if no live row has the email or name, the password can be stored and the id is new; the new row, column by column, and the reply |
| `CallLaws.GetUserLaw` | backend/userservice/internal/server/user_server.go:89-110 | A lookup succeeds if and only if the user is live and no ban is in force; what it shows, and that it changes nothing |
| `CallLaws.LoginSucceedsIff` | backend/userservice/internal/server/user_server.go:190-239 | A login succeeds if and only if the read answers, a live row of that email was picked, the password fits it, no ban is in force and the token is made |
| `CallLaws.LoginRefused` | backend/userservice/internal/server/user_server.go:193-221 | A password that does not fit gives InvalidCredentials, a ban in force IsBanned; a refused login leaves table and history as they were |
| `CallLaws.LoginLaw` | backend/userservice/internal/server/user_server.go:223-238 | A successful login stamps the login time and clears an expired ban, column by column, and no more |
| `CallLaws.UpdateUserLaw` | backend/userservice/internal/server/user_server.go:112-157 | When an update succeeds, what it changes, column by column, and what it replies |
| `CallLaws.DeleteUserLaw` | backend/userservice/internal/server/user_server.go:159-172 | A deletion sets status and update time of a live row and nothing else |
| `CallLaws.ChangePasswordLaw` | backend/userservice/internal/server/user_server.go:255-288 | A password changes if and only if the current one matches and the new one can be hashed, and then to that hash |
| `CallLaws.BanUserLaw` | backend/userservice/internal/server/user_server.go:296-345 | Bans go to live users who are no moderators or administrators; they end after the duration given and carry reason and issuer; the row column by column, and the reply |
| `CallLaws.UnbanUserLaw` | backend/userservice/internal/server/user_server.go:347-385 | An unban goes to a live user whose stored flag is set and leaves an ACTIVE row without a ban |
| `CallLaws.UpdateSubscriptionLaw` | backend/userservice/internal/server/user_server.go:387-433 | The subscription, its columns and the one history entry, with the level and status before and after |
| `CallLaws.CancelSubscriptionLaw` | backend/userservice/internal/server/user_server.go:435-482 | A cancellation keeps level and start, ends now if immediate and else keeps the end, and is recorded |
| `UserHandler.UpdateFromProto` | backend/userservice/internal/domain/mappers.go:109-136 | Non-empty, specified fields replace the fetched ones, all others stay |
| `UserHandler.OverlayTakesWhatIsGiven` | backend/userservice/internal/domain/mappers.go:109-136 | The same field by field: taken when given, left when not |
| `UserHandler.UpdateUserRpc` | backend/userservice/internal/delivery/grpch/user_handler.go:77-95 | Refines fetch, overlay and update as two service calls |
| `UserHandler.RpcChangesOnlyTheProfile` | backend/userservice/internal/delivery/grpch/user_handler.go:77-95 | A successful RPC changes exactly the named profile columns and the update time: status and role in the request are dropped, and so is a password that looks hashed |
| `UserHandler.FailedRpcChangesNothing` | backend/userservice/internal/delivery/grpch/user_handler.go:77-95 | A failed RPC leaves the table as it was |
| `UserHandler.RpcSucceedsIff` | backend/userservice/internal/delivery/grpch/user_handler.go:77-95 | The RPC succeeds if and only if both calls find the database answering and the user live, the user is not banned at the fetch and a new password can be stored; which error it gives otherwise |
| `Runs.NextIsCommit` | backend/userservice/internal/server/user_server.go:36-482 | A whole call changes table and history by its committed statement alone, or not at all |
| `Runs.EventsAreSuccessfulCalls` | backend/userservice/internal/server/user_server.go:296-385 | The ban events of a run are exactly its successful ban and unban calls, each ban with the moment, end, reason and issuer its call asked for |
| `Runs.BansAgreeRun` | backend/userservice/internal/domain/user_domain.go:185-202 | Over every run under a monotone clock the stored ban, lazily cleared or not, agrees with the last event |
| `Runs.BanVerdictFollowsEvents` | backend/userservice/internal/domain/user_domain.go:185-202 | In every run from the empty table, at every later moment, the lazily cleared verdict equals the simple reading: the last event is a ban that is permanent or not past its end; GetUser and Authenticate refuse exactly then |
| `Runs.LastEventIsLastCall` | backend/userservice/internal/server/user_server.go:296-385 | The last event of a user is what the last successful ban or unban call on the user asked for |
| `Runs.BanLastsAsAsked` | backend/userservice/internal/domain/user_domain.go:185-202 | In every run, at every later moment, a lookup and a login with the right password are refused as banned if and only if the last successful ban or unban call is a ban whose duration, from the moment of the call, has not passed; until then the row carries its reason and issuer |
| `Runs.BanEventsAlternate` | backend/userservice/internal/server/user_server.go:296-385 | In every run, events never begin with an unban nor hold two unbans without a ban between, and a set flag means the last event is a ban |
| `Runs.DeletedRowIsFrozen` | backend/userservice/internal/server/user_server.go:159-172 | A soft-deleted row never changes again in any column, over any run |
| `Runs.DeletedRowStaysHidden` | backend/userservice/internal/repository/postgres/postgres_user_repository.go:167-208 | After any run it is found by no lookup, listed by no filter, and aimed at by no later update, ban, unban or subscription call |
| `Runs.UpdateSucceedsIff` | backend/userservice/internal/server/user_server.go:112-157 | UpdateUser succeeds if and only if the database answers, the user is live and the password is empty, looks hashed or can be hashed |
| `Runs.StepKeepsUniqueIff` | backend/userservice/internal/server/user_server.go:112-157 | A call keeps live emails and names pairwise distinct if and only if it is not an UpdateUser that passes those guards and asks for an email or name another live row holds |
| `Runs.UniqueWithoutUpdates` | backend/userservice/internal/server/user_server.go:36-87 | Without UpdateUser they stay distinct over every run, and a lookup by email has at most one candidate |
| `Runs.ChangesPairIff` | backend/userservice/internal/server/user_server.go:387-466 | A call changes a stored level or status if and only if the database answers, the user is live and the call is an update to another pair or the cancellation of a subscription not yet canceled |
| `Runs.StepKeepsHistoryIff` | backend/userservice/internal/server/user_server.go:387-482 | A call keeps the history in step with the stored subscriptions if and only if it does not both change a pair in that sense and find its second taken or the collection silent |
| `Runs.HistoryReplaysToStored` | backend/userservice/internal/server/user_server.go:387-482 | With subscription calls in distinct seconds and the collection answering, every user's history is a chain and replaying it gives the stored level and status |
| `Runs.EmptyStarts` | backend/userservice/internal/repository/postgres/postgres_user_repository.go:133-164 | The empty table satisfies every invariant the runs need |
| `Interleaving.ServedIsTwoSteps` | backend/userservice/internal/server/user_server.go:36-482 | A call served alone is the interleaving whose read and write steps are adjacent |
| `Interleaving.ColumnsAgreeRun` | backend/userservice/internal/repository/postgres/postgres_user_repository.go:420-516 | Under every interleaving of reads and writes of any number of calls, the derived columns equal the JSON they repeat |
| `Interleaving.PasswordsKeptRun` | backend/userservice/internal/server/user_server.go:36-288 | Under every interleaving stored passwords stay bcrypt hashes and every user handed back has an empty password |
| `Interleaving.RolesKeptRun` | backend/userservice/internal/server/user_server.go:296-345 | Under every interleaving no row changes role, new rows are plain users, and administrators and moderators who start unbanned stay so |
| `Interleaving.EveryInterleavingKeepsTheTable` | backend/userservice/internal/server/user_server.go:36-482 | The three together from any table in order |
| `Interleaving.LateBanRevivesDeletedUser` | backend/userservice/internal/repository/postgres/postgres_user_repository.go:426-436 | A ban written after a concurrent deletion makes the deleted user live again, for every live user who can be banned; when this can happen is LateWrites.DeletedReturnsIff |
| `Interleaving.LateLoginErasesBan` | backend/userservice/internal/server/user_server.go:223-228 | A login that read before a ban and writes after it erases the ban; when this can happen is LateWrites.BanLostIff |
| `Interleaving.ConcurrentRegistrationsShareAnEmail` | backend/userservice/internal/server/user_server.go:40-66 | In a schema whose only key is the id, two registrations that both looked before either wrote give two live users one email; when this can happen is LateWrites.FinishKeepsUniqueIff |
| `LateWrites.PendingAfter` | backend/userservice/internal/server/user_server.go:36-482 | A step adds at most one write under way, justified by the table of that moment, and changes none of the others |
| `LateWrites.DeletedReturnsIff` | backend/userservice/internal/repository/postgres/postgres_user_repository.go:211-476 | From any state of the interleaving a deleted user can come back in some run if and only if a write under way bans or unbans the user or stores a status other than DELETED |
| `LateWrites.DeletedChangesIff` | backend/userservice/internal/repository/postgres/postgres_user_repository.go:211-516 | A deleted row can change in some column if and only if a write under way bans, unbans or subscribes it or stores other values; otherwise it is frozen under every interleaving |
| `LateWrites.BanLostIff` | backend/userservice/internal/server/user_server.go:190-239 | A set ban flag can be lost without an unban landing or a login that finds the ban run out, if and only if an update of the user under way carries an unset flag |
| `LateWrites.BanChangesIff` | backend/userservice/internal/server/user_server.go:112-239 | The stored ban as a whole can change without a ban, an unban or such a login if and only if an update of the user under way carries another one |
| `LateWrites.FinishKeepsUniqueIff` | backend/userservice/internal/repository/postgres/postgres_user_repository.go:133-476 | The landing of a write keeps live emails and names distinct if and only if it does not give a live row what another live row holds at that moment |
| `LateWrites.AlwaysUniqueIff` | backend/userservice/internal/server/user_server.go:36-157 | Over a whole interleaving they stay distinct at every moment if and only if no write of the run does that |
| `LateWrites.ExclusiveRenamesKeepUnique` | backend/userservice/internal/server/user_server.go:36-172 | With registrations, looking updates and deletions run one at a time, and everything else interleaved freely, they stay distinct over every run |
| `Dispatcher.SafeRun` | backend/webrtc/src/dispatcher/Dispatcher.cpp:5-35 | In every interleaving of posters, worker and destructor: posted log = executed + in flight + queued; no front of an empty queue; one lock holder; the worker never blocks on the condition |
| `Dispatcher.LeftWorkerExecutesNothing` | backend/webrtc/src/dispatcher/Dispatcher.cpp:5-19 | Once the worker has left its loop the executed log is frozen, whatever is posted or started later, and the queue only grows |
| `Dispatcher.WhatTheWorkerLeavesBehind` | backend/webrtc/src/dispatcher/Dispatcher.cpp:8-8 | It leaves on a cleared flag or with everything posted executed; all later posts stay queued |
| `Dispatcher.StartedEmptyNeverExecutes` | backend/webrtc/src/main.cpp:16-17 | A dispatcher started before its first post, whose worker looks first, executes nothing ever |
| `Dispatcher.ShutdownIsBounded` | backend/webrtc/src/dispatcher/Dispatcher.cpp:30-35 | After the destructor clears the flag the worker makes at most six more steps and executes at most one more task; then the join goes through |
| `Dispatcher.WorkerOrHolderCanMove` | backend/webrtc/src/dispatcher/Dispatcher.cpp:9-26 | While the worker has steps left, it or the lock holder can move |
| `Dispatcher.TaskDispatcher.Post` | backend/webrtc/src/dispatcher/Dispatcher.cpp:22-28 | Appends the task; a run of the step system |
| `Dispatcher.TaskDispatcher.ClearFlag` | backend/webrtc/src/dispatcher/Dispatcher.cpp:31-31 | The first statement of the destructor; a run of the step system |
| `Dispatcher.TaskDispatcher.Launch` | backend/webrtc/src/dispatcher/Dispatcher.cpp:6-8 | The flag is set and the worker enters its loop; a run of the step system |
| `Dispatcher.TaskDispatcher.TakeFront` | backend/webrtc/src/dispatcher/Dispatcher.cpp:9-15 | Removes and returns the oldest task; a run of the step system |
| `Dispatcher.TaskDispatcher.RunFront` | backend/webrtc/src/dispatcher/Dispatcher.cpp:8-17 | One pass of the loop: the oldest task runs and what was posted meanwhile waits behind the rest; a run of the step system |
| `Dispatcher.TaskDispatcher.Start` | backend/webrtc/src/dispatcher/Dispatcher.cpp:5-19 | The loop, with posts and shutdown arriving while tasks run, ends with an empty queue or a cleared flag, having executed just the tasks it returns; the whole is a run of the step system |
| `PeerSession.PeerSession.Start` | backend/webrtc/src/session/PeerSession.cpp:5-16 | Starts an open session once |
| `PeerSession.PeerSession.AttachSignalStream` | backend/webrtc/src/session/PeerSession.cpp:103-113 | Attaches a sink, or reports a closed session or a null sink, in that order |
| `PeerSession.PeerSession.SetRemoteDescription` | backend/webrtc/src/session/PeerSession.cpp:115-128 | The peer library is handed the description exactly when no error is reported, after what it had before; the errors are those InputsNeverFindAClosedSession reasons about |
| `PeerSession.PeerSession.AddIceCandidate` | backend/webrtc/src/session/PeerSession.cpp:130-143 | Likewise for candidates, with a non-negative index |
| `PeerSession.PeerSession.HandleLocal` | backend/webrtc/src/session/PeerSession.cpp:50-66 | Posts a send exactly when open with a sink |
| `PeerSession.PeerSession.HandleConnectionStateChange` | backend/webrtc/src/session/PeerSession.cpp:68-100 | Which reports change the state of an open session, which of them terminate it, and that only becoming Connected posts a notice, state by state |
| `PeerSession.PeerSession.Close` | backend/webrtc/src/session/PeerSession.cpp:145-150 | Drops peer and sink and closes |
| `PeerSession.FeedRaisesRank` | backend/webrtc/src/session/PeerSession.cpp:68-100 | Every accepted change strictly raises a rank; terminations happen exactly on entering Failed or Closed; nothing leaves a final state |
| `PeerSession.StartedSessionIsBounded` | backend/webrtc/src/session/PeerSession.cpp:68-100 | Over any stream of events: at most three changes, one notice, one termination, and final states are kept |
| `SessionManager.SessionManager.CreateSession` | backend/webrtc/src/session/SessionManager.cpp:6-17 | Refuses a used id, otherwise adds one fresh session and keeps the others |
| `SessionManager.SessionManager.GetSession` | backend/webrtc/src/session/SessionManager.cpp:19-26 | What is found is registered, carries the id asked for and is open; nothing is found only for an unregistered id |
| `SessionManager.SessionManager.DeliverRemote` | backend/webrtc/src/signaling/SignalStream.cpp:30-66 | A description or candidate through registry and setter: never answered with session closed, handed to the peer exactly when started and well formed, no other session touched |
| `SessionManager.SessionManager.CloseSession` | backend/webrtc/src/session/SessionManager.cpp:28-34 | Closes and erases that session and leaves the others as they were |
| `SessionManager.SessionManager.DeliverStateChange` | backend/webrtc/src/signaling/SignalStream.cpp:80-87 | A state message through registry, handler and termination callback: the exact effect on registry, session, other sessions and queue |
| `Sessions.StepIsDirect` | backend/webrtc/src/session/PeerSession.cpp:18-48 | Weak references and reference counts are invisible: each step does what asking the registry would do; what that is, SessionLaws says |
| `SessionLaws.StateReportLaw` | backend/webrtc/src/session/PeerSession.cpp:68-100 | Which (state, report) pairs end a registered session, which move it, and that all others, and reports for sessions gone, change nothing; the whole world after |
| `SessionLaws.EndedIdIsFree` | backend/webrtc/src/session/SessionManager.cpp:8-15 | After a session has ended a creation under its id, ignored before, makes a new open session |
| `SessionLaws.LocalCallbackLaw` | backend/webrtc/src/session/PeerSession.cpp:50-66 | A local description or candidate is queued if and only if the session is registered and has a sink |
| `SessionLaws.StartLaw` | backend/webrtc/src/session/PeerSession.cpp:5-16 | A start gives an unstarted session its peer and the state New, and is nothing otherwise |
| `SessionLaws.AttachLaw` | backend/webrtc/src/session/PeerSession.cpp:103-113 | Attaching replaces the sink of a registered session, unless the sink is null |
| `SessionLaws.CreateLaw` | backend/webrtc/src/session/SessionManager.cpp:6-17 | The worker creates a session if and only if the stream is there and the id is free |
| `SessionLaws.DeliverLaw` | backend/webrtc/src/signaling/SignalStream.cpp:29-39 | A posted message reaches the session registered under its id, if stream and session are there |
| `SessionLaws.SendLaw` | backend/webrtc/src/session/PeerSession.cpp:40-79 | A send task writes its notice to the sink of its session under the id and state the session has, or is dropped with its session |
| `SessionLaws.SentChange` | backend/webrtc/src/session/PeerSession.cpp:40-79 | Nothing but such a task writes to a sink |
| `SessionLaws.EverySendReachesItsSink` | backend/webrtc/src/session/PeerSession.cpp:40-79 | In every run in which sinks are attached before Connected and no session goes away with a send queued, the sends are exactly the send tasks that left the queue, in order, each to the sink of its session under its own id |
| `Sessions.SoundRun` | backend/webrtc/src/session/SessionManager.cpp:6-34 | Over every run an object has one reference, from the registry, or none, and is then destroyed and closed |
| `Sessions.AliveOpenAndRegisteredTogether` | backend/webrtc/src/session/SessionManager.cpp:6-34 | A created session is alive, open and registered together, or none of the three |
| `Sessions.TerminationClosesOnlyItself` | backend/webrtc/src/session/SessionManager.cpp:11-13 | A termination closes that very session and leaves every other as it was, later users of the id included |
| `Sessions.LeftoversAreNoOps` | backend/webrtc/src/session/PeerSession.cpp:40-48 | After a session has gone, over any further run, its callbacks change nothing and its posted tasks only leave the queue |
| `Sessions.QueueChange` | backend/webrtc/src/session/PeerSession.cpp:50-87 | A step takes at most the front task and appends at most one, and sends are posted only for registered sessions, with a sink unless just connected |
| `Sessions.CrashesIff` | backend/webrtc/src/session/PeerSession.cpp:75-79 | A step goes through a null sink if and only if the worker runs the connection notice of an open session without a sink |
| `Sessions.TheOnlyCrash` | backend/webrtc/src/session/PeerSession.cpp:75-79 | The same as a statement about every run from the start |
| `Sessions.AttachedSessionsNeverCrash` | backend/webrtc/src/session/PeerSession.cpp:103-113 | If sinks are attached before Connected, no send ever finds a null sink |
| `Sessions.UnattachedSessionCrashes` | backend/webrtc/src/session/PeerSession.cpp:75-79 | Otherwise three steps from a started session suffice |
| `Sessions.InputsNeverFindAClosedSession` | backend/webrtc/src/session/PeerSession.cpp:115-143 | In every run no description or candidate of a stream is answered with session closed, since what the registry gives out is open |
| `Sessions.StuckSessionIsNeverReleased` | backend/webrtc/src/session/PeerSession.cpp:80-100 | Disconnected is final without terminating: such a started session stays registered for ever and its id can never be created again |
| `Sessions.ReleasableIff` | backend/webrtc/src/session/PeerSession.cpp:68-100 | Some run releases a registered session if and only if it is not started in a state that no change leaves; every other one can still be released |
| `TerminationRace.LateCallbackClosesItsOwnSession` | backend/webrtc/src/session/PeerSession.cpp:68-87 | With guards and write in one step the termination callback may come arbitrarily late and still closes its own session |
| `TerminationRace.SplitHandlerClosesALaterSession` | backend/webrtc/src/session/PeerSession.cpp:68-87 | With guards and write apart, two threads reporting one closure can close a later session of the same id |
| `Locks.ProgramsAreOrdered` | backend/webrtc/src/session/SessionManager.cpp:28-34 | Every thread made of these calls takes locks in the order registry, session, dispatcher, and gives all back |
| `Locks.DisciplinedRun` | backend/webrtc/src/dispatcher/Dispatcher.cpp:22-28 | Ordered programs and exclusive locks survive every interleaving |
| `Locks.NoWaitingCycle` | backend/webrtc/src/session/SessionManager.cpp:28-34 | No thread waits, directly or through others, for itself |
| `Locks.HolderCanStep` | backend/webrtc/src/session/SessionManager.cpp:28-34 | If a lock is held, some holder can step |
| `Locks.NoDeadlock` | backend/webrtc/src/session/SessionManager.cpp:28-34 | The same for every reachable state, and some thread can step until all are done |
| `Locks.AccessesExcludeEachOther` | backend/webrtc/src/session/SessionManager.cpp:6-34 | In every reachable state whoever is about to access the registry, a session under its lock or the queue holds its lock, and nobody else is about to |
| `Locks.CallbackUnderSessionLockDeadlocks` | backend/webrtc/src/session/PeerSession.cpp:33-37 | Why callbacks must start without locks: one raised under the session lock deadlocks with a concurrent close |
| `SignalStream.WritesEndAtFirstFailure` | backend/webrtc/src/signaling/SignalStream.cpp:89-97 | Over every run the closed flag never reverts, nothing is written after it, and writes are successes followed by at most one failure |
| `SignalStream.SignalStream.Send` | backend/webrtc/src/signaling/SignalStream.cpp:89-93 | One write attempt unless closed; a failure closes |
| `SignalStream.SignalStream.Close` | backend/webrtc/src/signaling/SignalStream.cpp:95-97 | Sets the closed flag and nothing else |
| `SignalStream.SignalStream.HandleMessage` | backend/webrtc/src/signaling/SignalStream.cpp:41-87 | NEW asks for a session, anything else is delivered to one, empty messages post nothing |
| `SignalStream.SignalStream.ReadOne` | backend/webrtc/src/signaling/SignalStream.cpp:9-25 | A message whose read finds the stream closed is dropped, any other is posted |
| `SignalStream.SignalStream.Start` | backend/webrtc/src/signaling/SignalStream.cpp:7-27 | Exactly the messages before the first read that finds the stream closed are posted, in order |
| `SignalStream.StreamFeedsSystem` | backend/webrtc/src/signaling/SignalStream.cpp:30-39 | The tasks a stream posts are steps of the session system, entering its queue in reading order |
| `SignalStream.MessageTakesEffect` | backend/webrtc/src/signaling/SignalStream.cpp:41-87 | What each kind of message does when its task comes up: NEW creates under a free id, other states are reported, descriptions and candidates are answered, unknown ids do nothing |
| `SignalStream.EmptyMessageIsNothing` | backend/webrtc/src/signaling/SignalStream.cpp:23-24 | Only a message without content posts nothing |

## Left out

- `Dispatcher.TaskDispatcher.Start`: other threads act only while a task runs, where the loop holds no lock; every other
  interleaving is covered by the step system (`Dispatcher.SafeRun` and the lemmas after it), not by this method.
- `UserHandler.UpdateFromProto`: the overlay of the metadata map is not modelled, as no metadata is.
- `UserStore.UserRepository.CreateUser`: only `id` can collide; the source reports a violation of any unique key the
  schema may have in the same way.
- `Interleaving.ConcurrentRegistrationsShareAnEmail`: supposes a schema without a unique key on email or name; the
  schema is not part of this model.
- `SignalStream.SignalStream.Start`: other code acts on the stream only while a read waits.
- Metadata, activity and ban history documents in MongoDB: nothing of them is read back by the modelled operations.
- Payment, trial, billing and feature fields of subscriptions: carried along unchanged by every modelled operation.
- Sharing of the `BanInfo` and `SubscriptionInfo` objects between a caller and the user: they are values inside the
  `User` object here, so aliasing through those pointers is not captured.
- JSON text of the ban and subscription columns: rows hold the decoded values and marshalling succeeds; only the keys
  of the ban JSON are modelled.
- The rest of SQL (NULL logic, types beyond text, flag and number, other statements' texts), and database constraints
  beyond the primary key.
- `CheckSubscriptionAccess`: it compares level names alphabetically, so no property of tiers holds.
- `ValidateToken`, token contents, `ResetPassword` and the RPCs that only forward a call.
- Repository `Delete`, `FindByPhone`, `CancelSubscription` and `UpdateLastLogin`: the service does not call them.
- Enum mappers and protobuf conversion of users: finite tables.
- Overflow of the 64-bit sum `total + pageSize - 1`: a table of that size cannot exist.
- The seconds of history ids are taken from a linear clock; a repeated local hour at the end of daylight saving time
  is not modelled.
- `RtcPeer` and the peer library: replaced by callbacks that may arrive at any time for any session, live or gone.
- The texts of messages a sink sends, and the delivery of descriptions and candidates to the peer library.
- Reference counting during `TerminationRace` and the number of callbacks under way in `Sessions`, where a handler
  is one step.
- The gateway, the WebRTC service registration, configuration and connection set-up.
