# A verified model of the transactional table server

The server (`csf_assign05/`) keeps named tables of string entries for any number of
clients. A client sends one request per line: it logs in, works on an operand stack
(PUSH, POP, TOP, ADD, SUB, MUL, DIV), creates tables, and moves values between its
stack and a table (GET, SET), either one operation at a time (autocommit) or in a
transaction (BEGIN ... COMMIT). This project models the server's logic and proves what
its documentation claims for it (`README.txt:25-39`), and what its parts owe each other.
`dafny verify dfyconfig.toml` checks everything.

## How it is built

| layer | modules |
|---|---|
| strings, numerals, messages, wire format | `Wrappers`, `Text`, `Digits`, `Messages`, `Codec`, `Grammar` (the request language, without a parser) |
| buffered reading, number printing | `Rio`, `Sio` |
| one table, one stack | `Tables`, `StackMachine` |
| the server as a state machine | `Engine`, `Requests` (what it makes of well-formed lines), `Runs` (building runs) |
| locks, deadlock, registry | `Holdings` (true of every run), `Locks` (exclusive ownership), `Deadlock` |
| serializability | `Serial` (the reference), `History` (recording), `Serializability`, `SerialSteps`, `Accounts` (what is recorded is what clients lived through) |
| what follows for transactions, values, sessions | `Aborts`, `Values`, `Sessions`, `Loop` (the session loop), `Phrases`, `Replies`, `Conversation` (lines and their replies), `Increment` |
| the main theorems from the empty server | `Correctness` |
| where the code fails | `StrayUnlock`, `Scenes` (telling runs), `Damage`, `Crashes` |
| what requests do | `Alone` (one thread undisturbed), `Manual` (every request as one action) |
| the server's objects | `Connection` |

`Engine` is a step relation over all clients at once. A client is a thread with a program
counter; locking, trying a lock, each per-table commit or rollback, each unlock, the
lookup and the insertion of CREATE are separate steps, and any interleaving of any number
of clients is a run. `Legal`/`After` define runs, `Variant` the code as written and the code
without the unlock of line 433 (see below). The classes in `Tables`, `StackMachine`, `Messages`, `Codec`,
`Rio`, `Sio` and `Connection` are the imperative code, method by method and loop by loop.
`Connection` simulates `Engine`: if the objects mirror a state of the state machine when a
connection takes a line, any line, they mirror afterwards the state that the machine's own
steps lead to when no other client moves (`Connection.ClientConnection.TakeLine`,
`Alone.AnsweredIsRun`). `Manual` says in plain terms, with neither the parser nor the state
machine's functions, what each request does to stack, session and tables and which reply it
gets; a request that is not disturbed and need not wait does just that.

Main theorems: `SerialSteps.EveryRunIsSerializable`, `Increment.NoLostUpdates`,
`Deadlock.NoDeadlock`, `Locks.OwnershipOnEveryRun`, `Deadlock.TwoPhaseRelease`,
`Deadlock.RegistryOnEveryRun`, `Deadlock.WorkShrinks`, `Aborts.AbortLeavesNoTrace`, `Aborts.RollbackKeepsStack`,
`Accounts.HistoryIsLived`, `Conversation.BytesAnswerLines`, `Manual.ManualOnEveryRun`, `Grammar.DecodesExactly`,
`StackMachine.ComputesResult`, `Digits.StoiExactly`,
`Values.ValuesOnEveryRun`, `Values.TopIsAlwaysAnswered`, `Sessions.SessionsInLockStep`,
`Replies.SessionBytesComeBack`, `Replies.Converse`, `Replies.ClientUnderstands`,
`Sessions.ExpressionsCompute`, `Crashes.RunCrashesExactly`, `Codec.RoundTrip`,
`Codec.Normalisation`, `Tables.KeepingIsClearing`, `Rio.Reader.ReadAllLines`,
`Sio.RenderReadsBack`, `Connection.ClientConnection.TakeLine`; and, for what the code as
written gets wrong, `StrayUnlock.GetKeepsOwnersExactlyIfKeyExists`,
`Damage.AbortsCanCommit`, `Damage.AbortsCanWipe`, `Damage.IncrementsCanBeLost`.

## Where the code departs from its intent

The model keeps the code as it is.

- GET of a missing key unlocks its table twice (`client_connection.cpp`, line 433, then
  408 or 95). What does not depend on exclusive ownership holds on every run of the code
  as written all the same: no deadlock, two-phase release, bounded work, the registry,
  what a rollback leaves of the stack, and everything about values, sessions, replies and
  crashes. Exclusive ownership (`Locks.OwnershipOnEveryRun`) and abort atomicity
  (`Aborts.AbortLeavesNoTrace`) hold of every table on which no GET has missed
  (`Spared`); serializability and the count of increments, which concern all tables, on
  every run in which none has (`Sound`). Without line 433 all of them hold on every run.
  `StrayUnlock` proves that a GET keeps ownership intact if and only if its key exists.
  `Damage` shows, by runs from the empty server told line by line, what happens otherwise:
  an aborted transaction's SET is committed though nobody ever asks for a COMMIT, an
  autocommit SET is answered OK and wiped by another's rollback, and two committed
  increments count for one. So abort atomicity, serializability and the absence of lost
  updates fail there, and with them the claim of `README.txt:27-31`.
- `Table::get` prefers the committed value, so a transaction does not see its own
  overwrite of a committed key. The serial reference has the same rule.
- `commit_changes` leaves its proposals behind. `Tables.KeepingIsClearing` and the
  invariant behind `EveryRunIsSerializable` show why nobody notices.
- `handle_login` tests a pointer that is never null: every LOGIN succeeds, also inside a
  transaction, which goes on (`Loop.LoginSucceeds`).
- An operand out of the range of int, signed overflow and division by zero end the
  process. `Crashes.StepCrashesExactly` says that no other request in the model does, in
  any state, and `Crashes.ZeroDivisorCrashes` that any client can bring this about.
- `encode` puts no quotation marks around the text of FAILED and ERROR, `decode` demands
  them. No such message ever comes back: `Codec.QuotedNeverComesBack`. A client's `decode`
  therefore rejects every FAILED and every ERROR the server sends, and understands every
  OK and DATA: `Replies.OnlySuccessIsUnderstood`.
- Clients read replies into 1024 bytes, of which `rio_readlineb` uses at most 1023. The
  longest DATA reply the server sends has 1024, so it comes back without its newline:
  `Replies.ReplyComesBackWhole` is an if-and-only-if with that one length excluded.
- `decode` of an empty string calls `back()` on it, which is undefined; the model takes
  the only defined path left, the complaint about the missing newline.

## Model

| member | source | states |
|---|---|---|
| `SerialSteps.EveryRunIsSerializable` | csf_assign05/client_connection.cpp:201-437 | for every interleaving, replaying whole transactions, autocommit operations and CREATEs one at a time in commit/abort order gives every recorded read, lookup and CREATE its outcome, and the replayed database is what the tables hold, although COMMIT unlocks each table before committing the next |
| `SerialSteps.RunIsFaithful` | csf_assign05/client_connection.cpp:357-437 | the invariant behind it, on every run: the history replays, and each table's two maps stand to its serial row as its owner's phase demands |
| `SerialSteps.StepIsSerial` | csf_assign05/client_connection.cpp:201-437 | every single step of every client keeps that invariant |
| `SerialSteps.IdleIsAtRest` | csf_assign05/client_connection.cpp:92-100 | once all clients are idle outside transactions no lock is taken and no table shows uncommitted entries |
| `Accounts.HistoryIsLived` | csf_assign05/client_connection.cpp:30-437 | on every run, for every client: its lines, its replies and the values its GETs put on its stack determine its stack and exactly the units the history records for it, in order, its open transaction included; so the serial replay explains what clients have seen |
| `Accounts.IdleHistoryIsLived` | csf_assign05/client_connection.cpp:30-437 | the same for a client between two requests, where every line has its reply |
| `Accounts.RecordsAccount` | csf_assign05/client_connection.cpp:201-437 | recording a step changes the account of the client that moves, and no other |
| `Accounts.GoMovesOn` | csf_assign05/client_connection.cpp:161-437 | a step of a thread whose reply is open either books nothing or settles the reply and books what line and reply say |
| `Correctness.ClientsSeeSerialRuns` | README.txt:27-31 | from the empty server, on every run without a GET that misses or without line 433: the recorded history replays serially, and for every client it is what that client lived through |
| `SerialSteps.AbortPoint` | csf_assign05/client_connection.cpp:74-100 | an abort becomes an aborted unit of the history; its tables await rollback, the serial database does not change |
| `SerialSteps.CommitPoint` | csf_assign05/client_connection.cpp:201-216 | from the start of COMMIT's loop on, the serial database holds the transaction's writes, while its tables await their commit |
| `Serial.OpsAgreeFrame` | README.txt:27-31 | what a transaction has read stays valid as long as nobody changes the tables it works on |
| `Serializability.TallyEdit` | csf_assign05/table.cpp:67-78 | committing or rolling back one table of a release brings it to its serial row and disturbs no other table or transaction |
| `Serializability.TallyUnlock` | csf_assign05/client_connection.cpp:92-98 | unlocking a processed table early, before the rest of the release, keeps everything in step |
| `Serializability.TallyWrite` | csf_assign05/client_connection.cpp:382-394 | a SET inside a transaction makes proposal and recorded write grow together |
| `Serializability.TallyInsert` | csf_assign05/server.cpp:78-82 | a new table is an empty new row of the serial database |
| `Increment.NoLostUpdates` | csf_assign05/incr_value.cpp:262-311 | any number of concurrent `incr_value -t` clients, failing anywhere, among others that do not SET the key: the entry denotes its initial value plus the number of their COMMITs processed |
| `Increment.RunInPlace` | csf_assign05/incr_value.cpp:262-311 | on every such run each program's transaction is exactly one read and one write of the next number when it commits, and nobody else's committed unit writes the entry |
| `Increment.ReplayCounts` | csf_assign05/incr_value.cpp:262-311 | in a serial history of such units the entry counts the committed increments |
| `Increment.IncrementRaises` | csf_assign05/client_connection.cpp:245-267 | one committed increment raises the entry by exactly one |
| `Increment.ScriptParses` | csf_assign05/incr_value.cpp:262-311 | the server decodes every line of the program to the request meant |
| `Increment.AddOfOne` | csf_assign05/client_connection.cpp:245-267 | ADD on a value and "1" yields the next number, refuses, or crashes, and nothing else |
| `Locks.LocksOnEveryRun` | README.txt:25-39 | on every run without a GET that misses, and on every run without line 433: a table's owner is exactly the client that holds it by its own variables, and likewise the server mutex |
| `Locks.StepKeepsLocks` | csf_assign05/client_connection.cpp:92-100 | every step without line 433 keeps exclusive ownership, and changes holdings only as its lock or unlock says |
| `Holdings.HoldingsOnEveryRun` | csf_assign05/client_connection.cpp:92-437 | on every run, of the code as written too: names and tables correspond, the server mutex is owned by exactly the client that has it, and whoever owns a table is going to unlock it |
| `Holdings.StepKeepsHoldings` | csf_assign05/client_connection.cpp:92-437 | every step of either variant keeps that |
| `Locks.OwnershipOnEveryRun` | csf_assign05/client_connection.cpp:367-420 | on every run, of the code as written too: each table on which no GET has missed has as owner exactly the one client that holds it; nothing is held outside transactions and operations, and what a release has not processed is still held |
| `Locks.SoleOnEveryRun` | csf_assign05/client_connection.cpp:429-437 | on every run: whoever holds a table on which no GET has missed owns it, and no stray unlock of it is under way |
| `Locks.StepKeepsSole` | csf_assign05/client_connection.cpp:429-437 | every step of either variant keeps this of a table, unless it is a GET that misses on that table |
| `Locks.ExclusiveOnSoundRuns` | csf_assign05/client_connection.cpp:367-420 | on every run in which no GET misses, or without line 433, that is so of every table, and holdings of different clients are disjoint |
| `Deadlock.TwoPhaseRelease` | csf_assign05/client_connection.cpp:92-213 | from any state and for either variant: once a COMMIT or abort has begun, a client's tables only shrink until it is through and its stack stays, however others interleave |
| `Deadlock.ReleaseStep` | csf_assign05/client_connection.cpp:92-100 | one step of anyone during a release, in any state: same release, no table more, same stack, or it is through and holds none |
| `Deadlock.NoDeadlock` | README.txt:33-39 | on every run, of the code as written too: from a blocked client at most two waits-for edges lead to one that is not blocked, which can step now or is idle in a transaction |
| `Deadlock.ChainsAreShort` | README.txt:33-39 | no waits-for chain over the two lock levels has more than two edges |
| `Deadlock.NoCycle` | README.txt:33-39 | no waits-for cycle, not even of one client |
| `Deadlock.TableWaiterHoldsNothing` | csf_assign05/client_connection.cpp:367-368 | a client waiting for a table holds no table and not the server mutex |
| `Deadlock.HoldersHardlyWait` | csf_assign05/client_connection.cpp:161-176 | whoever holds the server mutex waits for nothing; whoever holds a table waits for the server mutex at most |
| `Deadlock.WaitedFor` | csf_assign05/client_connection.cpp:161-176 | whoever is waited for does not wait for a table, and does not wait at all if it is waited for with the server mutex; nobody waits for itself |
| `Deadlock.Unblocked` | csf_assign05/client_connection.cpp:103-158 | a thread inside a request, between the two unlocks of a GET included, that no lock blocks can take its next step |
| `Deadlock.WorkShrinks` | csf_assign05/client_connection.cpp:201-437 | every step of a request brings it nearer its end; it takes at most 2n + 5 steps of its own with n tables locked, 2n + 6 in the code as written |
| `Deadlock.RegistryOnEveryRun` | csf_assign05/client_connection.cpp:161-176 | racing CREATEs on every run, of the code as written too: names and tables stay one-to-one, no name is lost or redirected, committed keys never vanish |
| `Deadlock.StepExtends` | csf_assign05/server.cpp:65-93 | the same for one step of either variant |
| `Correctness.HoldsOnEveryRun` | README.txt:25-39 | from the empty server, on every run of either variant: registry, holdings, values, lock-step and replies are in order, and each table no GET has missed on is owned by exactly its holder |
| `Correctness.NobodyIsStuck` | README.txt:33-39 | from the empty server, on every run of either variant: at most two edges lead from a blocked client to one that can go on |
| `Correctness.HoldsOnSoundRuns` | README.txt:27-31 | from the empty server, on every run without a GET that misses or without line 433: every table is owned by exactly its holder, and replaying the history serially agrees with the run |
| `Correctness.EmptyServerStarts` | csf_assign05/server.cpp:78-93 | the empty server meets the start conditions of all theorems about runs |
| `Aborts.AbortLeavesNoTrace` | csf_assign05/client_connection.cpp:92-100 | of a table on which no GET has missed: between lock and unlock by an uncommitted transaction nothing observable happens to it; same committed map, and every key reads as before |
| `Aborts.UntouchedInUncommittedHands` | csf_assign05/client_connection.cpp:92-100 | while such a table is in the hands of an uncommitted transaction nobody changes its committed map |
| `Aborts.OnlyCommitCommits` | csf_assign05/client_connection.cpp:22-216 | COMMIT is the only end of a transaction that commits; every other end, a missing key in the code as written included, starts a rollback of all tables locked so far |
| `Aborts.UncommittedStep` | csf_assign05/table.cpp:32-35 | no step of an uncommitted transaction, in either variant, changes any committed map |
| `Aborts.OwnedStep` | csf_assign05/table.cpp:67-78 | no step of anyone changes the committed map of a table with one holder that is free or owned by an uncommitted transaction |
| `Aborts.FreeIsClean` | csf_assign05/table.cpp:37-53 | a table nobody has locked, and no GET has missed on, reads exactly as its committed map, leftovers notwithstanding |
| `Aborts.TidyOnEveryRun` | csf_assign05/table.cpp:67-78 | before its first use and after its commit or rollback such a table proposes only what is committed |
| `Aborts.AbortStep` | csf_assign05/client_connection.cpp:92-100 | the same for one step of either variant |
| `Aborts.RollbackKeepsStack` | csf_assign05/client_connection.cpp:74-100 | on every run, of the code as written too: through the whole of a rollback, its last step included, the stack is what it was when the transaction failed and all created tables stay; once through, the client is out of the transaction and owns nothing |
| `Values.ValuesOnEveryRun` | csf_assign05/client_connection.cpp:351-436 | in every reachable state, of the code as written too, each value on a stack or in either map of a table is a nonempty word without NUL of at most 1018 characters |
| `Values.TopIsAlwaysAnswered` | csf_assign05/client_connection.cpp:228-242 | in every reachable state TOP's reply fits, decodes to the very value, and never reaches the InvalidMessage handler |
| `Values.PushedIsValue` | csf_assign05/client_connection.cpp:351-354 | a PUSH that was decoded carries one word without NUL of at most 1018 characters |
| `Values.ArithGivesValues` | csf_assign05/client_connection.cpp:245-342 | arithmetic on such values leaves such values, refused or not |
| `Values.ValueFits` | csf_assign05/message_serialization.cpp:166-171 | such a value fits a DATA line, which decodes to it into any target |
| `Sessions.SessionsInLockStep` | csf_assign05/client_connection.cpp:30-66 | on every run a session has sent one reply per line taken, bar the one at work; replies are only appended; before a LOGIN nothing touches stack, tables or transaction state |
| `Sessions.StepInStep` | csf_assign05/client_connection.cpp:30-158 | the same for one step of any client |
| `Conversation.RepliesAnswerLines` | csf_assign05/client_connection.cpp:30-158 | on every run each session's replies answer its lines in order, one a line: which replies a line can get depends on what it says, on whether a LOGIN came before, and on the reasons the request can fail for |
| `Conversation.BytesAnswerLines` | csf_assign05/client_connection.cpp:40-88 | and so in bytes, the words written out: an undecodable line gets an ERROR line, a LOGIN gets OK, anything else before a LOGIN gets an ERROR line; after it a request gets OK, or DATA with a value if it is TOP, or a FAILED line with a reason it may fail for |
| `Conversation.ServeAdvances` | csf_assign05/client_connection.cpp:35-66 | a line taken is answered with a fitting reply, or its thread is on the way to one |
| `Conversation.ContinueAdvances` | csf_assign05/client_connection.cpp:92-437 | every further step stays on the way or sends a fitting reply |
| `Loop.LoginSucceeds` | csf_assign05/client_connection.cpp:46-48 | in any state, a line that is a LOGIN gets exactly one OK, counts one line, logs in, and changes nothing else, also when logged in already and inside a transaction |
| `Loop.StrangersAreShownOut` | csf_assign05/client_connection.cpp:49-60 | before a LOGIN any other message gets exactly one ERROR and ends the session |
| `Loop.BadLinesFail` | csf_assign05/client_connection.cpp:40-44 | a line that does not decode gets exactly one ERROR, after the rollback of an open transaction, and the session stays open |
| `Loop.HangingUpCloses` | csf_assign05/client_connection.cpp:38-39 | at the end of its input a client gets no reply, its session ends, and an open transaction is rolled back |
| `Manual.ServerObeysManual` | csf_assign05/client_connection.cpp:30-437 | from any state with an idle session: every line that says a message, and need not wait, leads by that client's own steps to the state the manual gives, tables, stack, session and reply alike, in either variant; the process ends exactly if the manual says so |
| `Manual.ManualOnEveryRun` | csf_assign05/client_connection.cpp:30-437 | so at any moment of any run from the empty server |
| `Manual.BadLinesAreRefused` | csf_assign05/client_connection.cpp:40-44 | a line that says nothing ends, alone, with the transaction rolled back and free, one ERROR, and the session open |
| `Manual.ParsesExactly` | csf_assign05/client_connection.cpp:36-41 | the server takes a line for a message if and only if its bytes before the first NUL spell it, are at most 1024, and the message is proper |
| `Manual.CalculationObeys` | csf_assign05/client_connection.cpp:245-342 | ADD, SUB, MUL, DIV: which operand is taken first, what a failing conversion leaves, the exact integer result, and when the process ends |
| `Manual.SetObeys` | csf_assign05/client_connection.cpp:357-394 | SET, in every case: the steps add up to the entry committed or proposed, or to the refusal and rollback |
| `Manual.GetObeys` | csf_assign05/client_connection.cpp:397-437 | GET, in every case: the committed value before the proposed one, or the refusal and rollback |
| `Manual.CreateObeys` | csf_assign05/client_connection.cpp:161-176 | CREATE: a new empty table, or the refusal and rollback |
| `Manual.CommitObeys` | csf_assign05/client_connection.cpp:201-216 | COMMIT: every held table has its proposals over its committed entries and is free |
| `Replies.RepliesOnEveryRun` | csf_assign05/client_connection.cpp:228-242 | in every reachable state every DATA reply a session has sent or is about to send carries a value |
| `Replies.ReplyIsOneLine` | csf_assign05/client_connection.cpp:74-89 | every OK, FAILED and ERROR, and every DATA carrying a value, is a single line within the message bound |
| `Replies.ReplyComesBackWhole` | csf_assign05/incr_value.cpp:44-48 | a client's 1024-byte read returns a reply whole if and only if it is not DATA with 1018 characters |
| `Replies.RepliesComeBack` | csf_assign05/csapp.c:877-899 | a stream of replies cut into lines is those replies one by one, if and only if none is DATA with 1018 characters |
| `Replies.SessionBytesComeBack` | csf_assign05/client_connection.cpp:30-66 | for every session of every run: one reply per line taken, bar the one at work, and all the bytes it has sent, cut into lines by its client, are its replies one by one, if and only if none is DATA with 1018 characters |
| `Replies.ReadReply` | csf_assign05/incr_value.cpp:44-48 | a client's read with a fresh buffer gets the reply whole and leaves no byte behind to be thrown away, if and only if it is not DATA with 1018 characters |
| `Replies.Converse` | csf_assign05/incr_value.cpp:61-230 | over any number of requests, each answered before the next, a fresh buffer per request gives the client exactly the replies sent, if and only if none is DATA with 1018 characters |
| `Replies.OnlySuccessIsUnderstood` | csf_assign05/incr_value.cpp:10-29 | a client's decode turns every OK and DATA line into the message sent, and rejects every FAILED and ERROR line the server can send |
| `Replies.RepliesRead` | csf_assign05/client_connection.cpp:80-88 | the bytes of every reply: OK, DATA and the value, FAILED or ERROR and the exception's text |
| `Replies.ClientUnderstands` | csf_assign05/incr_value.cpp:10-58 | reading and decoding together yield the message sent, if and only if the reply is OK or DATA with at most 1017 characters |
| `Phrases.PhraseIsPlain` | csf_assign05/client_connection.cpp:74-89 | every exception text is short and contains neither newline nor quotation mark |
| `Sessions.ExpressionsCompute` | csf_assign05/client_connection.cpp:245-354 | for every expression tree with a value, its postorder requests, sent as lines, are all answered OK and leave the prior stack plus one entry denoting the value, computed on integers with left and right operand in order |
| `Engine.ParseOfLine` | csf_assign05/client_connection.cpp:40 | what the server sees of a message sent as its own encoding is that message |
| `StrayUnlock.GetKeepsOwnersExactlyIfKeyExists` | csf_assign05/client_connection.cpp:429-437 | a GET of the code as written keeps every table with its owner if and only if the key is there |
| `StrayUnlock.ExclusivityCanBreak` | csf_assign05/client_connection.cpp:404-434 | a run of the code as written, from any resting server with three sessions and a missing key, after which two transactions hold one table |
| `StrayUnlock.StartIsReachable` | csf_assign05/client_connection.cpp:161-187 | three connections, three LOGINs and a CREATE lead to where that run starts |
| `StrayUnlock.ExclusivityBreaksFromEmpty` | csf_assign05/client_connection.cpp:404-434 | the same from the empty server: three connections, three LOGINs, one CREATE, then that run |
| `Damage.AbortsCanCommit` | csf_assign05/client_connection.cpp:92-434 | a run of the code as written from the empty server, without any COMMIT, after which the only SET of a key, in a transaction answered FAILED and rolled back, is committed |
| `Damage.AbortsCanWipe` | csf_assign05/client_connection.cpp:92-434 | a run of the code as written from the empty server after which a key SET outside transactions, with OK for an answer, is not there |
| `Damage.IncrementsCanBeLost` | csf_assign05/incr_value.cpp:262-311 | a run of the code as written from the empty server in which two increment programs are answered OK throughout, COMMIT included, and the entry is one higher |
| `Damage.NoSerialOrderLosesIncrements` | csf_assign05/incr_value.cpp:262-311 | no serial order of two committed increments, with nobody else writing the entry, makes it one higher |
| `Crashes.StepCrashesExactly` | csf_assign05/client_connection.cpp:245-342 | in any state, a step ends the process if and only if it is ADD, SUB, MUL or DIV of a logged-in session with two entries whose conversions are out of range, or whose result overflows or divides by zero |
| `Crashes.RunCrashesExactly` | csf_assign05/client_connection.cpp:245-342 | a run ends with the server down if and only if its last action is such a request |
| `Crashes.ZeroDivisorCrashes` | csf_assign05/client_connection.cpp:320-342 | a run from the empty server that ends with it down: connect, LOGIN, PUSH 0 twice, DIV |
| `Crashes.ParsedConforms` | csf_assign05/client_connection.cpp:40-44 | decode throws nothing the session does not catch, and what it accepts has the arguments the handlers take |
| `Crashes.ArithCrashesExactly` | csf_assign05/client_connection.cpp:253-340 | the right operand is converted first; the exact condition on the two conversions under which nobody catches what follows |
| `Crashes.QuotientIsInt` | csf_assign05/client_connection.cpp:340 | the quotient of two ints is an int, except the smallest divided by -1 |
| `Engine.SameStep` | csf_assign05/client_connection.cpp:432-435 | away from a GET that misses, line 433 makes no difference |
| `Tables.KeepingIsClearing` | csf_assign05/table.cpp:32-78 | over every history of calls a table that keeps its proposals after commit answers as one that clears them, with the same committed map |
| `Tables.ReadsOwnWrite` | csf_assign05/table.cpp:37-53 | after any history, reading differs from a proposal-first table exactly at committed keys with a different change pending |
| `Tables.ShownCommit` | csf_assign05/table.cpp:67-73 | committing applies exactly the pending changes, whatever leftovers there are, and leaves none pending |
| `Tables.Fetch` | csf_assign05/table.cpp:37-53 | a value is found exactly if the key is committed or proposed |
| `Tables.Table.constructor` | csf_assign05/table.cpp:6-10 | a new table is empty and unlocked |
| `Tables.Table.Lock` | csf_assign05/table.cpp:17-20 | the caller owns the mutex afterwards |
| `Tables.Table.Unlock` | csf_assign05/table.cpp:22-25 | the mutex is free afterwards, whoever called |
| `Tables.Table.TryLock` | csf_assign05/table.cpp:27-30 | succeeds exactly if the mutex is free, and changes nothing otherwise |
| `Tables.Table.Set` | csf_assign05/table.cpp:32-35 | proposes one entry; nothing else changes |
| `Tables.Table.Get` | csf_assign05/table.cpp:37-53 | the committed value, else the proposed one, else the exception |
| `Tables.Table.Has` | csf_assign05/table.cpp:55-65 | true exactly if Get finds a value |
| `Tables.Table.CommitChanges` | csf_assign05/table.cpp:67-73 | the loop, in any order, overlays the committed map with all proposals and keeps them |
| `Tables.Table.RollbackChanges` | csf_assign05/table.cpp:75-78 | drops all proposals; the committed map stays |
| `StackMachine.HandleArith` | csf_assign05/client_connection.cpp:245-342 | the handlers' pops and pushes realise the arithmetic function, repair included; a success leaves the exact integer result of left and right operand in place of the two |
| `StackMachine.TakeOperands` | csf_assign05/client_connection.cpp:252-263 | which operand fails decides what is left on the stack |
| `StackMachine.RefusalRepairsStack` | csf_assign05/client_connection.cpp:251-263 | a refused request keeps depth and all below the top, turns the top at most into the canonical form of the same number, and restores the stack if and only if the top was canonical or no number |
| `StackMachine.TruncatedQuotientIsQuotient` | csf_assign05/client_connection.cpp:340 | division truncates toward zero: remainder smaller than the divisor and never of the other sign |
| `StackMachine.ComputesResult` | csf_assign05/client_connection.cpp:265-340 | for all integers: the machine finds x if and only if x is the sum, difference, product, or quotient that misses by less than the divisor on the side of zero, and x is a 32-bit int |
| `StackMachine.ComputeExactly` | csf_assign05/client_connection.cpp:265-340 | the same by integer operations: left operand first, nothing for a zero divisor or a result that is no int |
| `StackMachine.ValueStack.Push` | csf_assign05/value_stack.cpp:20-23 | one entry on top, the rest unchanged |
| `StackMachine.ValueStack.Pop` | csf_assign05/value_stack.cpp:34-40 | removes the top, or throws and changes nothing if empty |
| `StackMachine.ValueStack.GetTop` | csf_assign05/value_stack.cpp:25-32 | the last entry, or the exception |
| `StackMachine.ValueStack.IsEmpty` | csf_assign05/value_stack.cpp:12-18 | true exactly if there is no entry |
| `StackMachine.ValueStack.GetSize` | csf_assign05/value_stack.cpp:42-44 | the number of entries |
| `Digits.StoiOfToString` | csf_assign05/client_connection.cpp:253-265 | `stoi` undoes `to_string` on every 32-bit int |
| `Digits.ToStringIsShortWord` | csf_assign05/client_connection.cpp:261 | a printed int is a word of at most eleven characters |
| `Digits.StoiExactly` | csf_assign05/client_connection.cpp:253-263 | on every text, taken apart into whitespace, sign, digits and rest: no number without digits; otherwise the number in decimal notation if it is a 32-bit int, and out of range if not; the rest is ignored |
| `Digits.EveryTextSplits` | csf_assign05/client_connection.cpp:253-263 | every text can be taken apart so |
| `Digits.ToStringExactly` | csf_assign05/client_connection.cpp:261-265 | the decimal notation of every number: a minus sign exactly if negative, no other sign, no superfluous zero |
| `Digits.DenotesPlace` | csf_assign05/client_connection.cpp:253-263 | Horner's rule computes the number by place value |
| `Digits.DenotesPrepend` | csf_assign05/csapp.c:252-254 | in every base the first digit counts as many times the base as digits follow |
| `Digits.DigitsAre` | csf_assign05/csapp.c:253 | the digits beyond nine are the small letters |
| `Codec.RoundTrip` | csf_assign05/message_serialization.cpp:10-163 | decoding undoes encoding for every valid message of words that fits, other than NONE, FAILED, ERROR, whatever the target held |
| `Codec.Normalisation` | csf_assign05/message_serialization.cpp:56-197 | re-encoding what was decoded is no longer than the line, decodes to the same message, and changes nothing the second time |
| `Codec.DecodedIsShort` | csf_assign05/message_serialization.cpp:142-197 | decoded messages conform to the protocol, consist of words, and re-encode to a line no longer than theirs |
| `Codec.PriorIsIrrelevant` | csf_assign05/message_serialization.cpp:71-163 | the target's content decides neither success nor result |
| `Codec.DecodeNeverEscapes` | csf_assign05/message.cpp:138-143 | `at(0)` is never reached with an empty identifier from inside decode |
| `Codec.QuotedTextSurvives` | csf_assign05/message_serialization.cpp:174-186 | a FAILED or ERROR line with a text in quotes decodes to exactly that text, quotes inside included |
| `Codec.UnquotedIsRejected` | csf_assign05/message_serialization.cpp:56-186 | decoding an encoded FAILED or ERROR message succeeds if and only if its text brings a quote on its first line; without quotes it is rejected |
| `Codec.QuotedNeverComesBack` | csf_assign05/message_serialization.cpp:56-186 | no encoded FAILED or ERROR message decodes to itself, quotes or not |
| `Codec.KeywordNames` | csf_assign05/message_serialization.cpp:15-140 | the keyword a type is printed as is parsed as that type |
| `Codec.KindIsNamed` | csf_assign05/message_serialization.cpp:85-140 | a word that is parsed as a type is what the type is printed as |
| `Grammar.DecodesExactly` | csf_assign05/message_serialization.cpp:71-163 | any type but FAILED and ERROR: a string decodes to a message if and only if it has at most 1024 characters, spells the message, with any whitespace before the type, between and after the arguments, and the message is proper |
| `Grammar.RefusesExactly` | csf_assign05/message_serialization.cpp:73-140 | exactly which strings are refused as too long, for want of a newline, and for want of a type, in this order |
| `Grammar.DecodesWords` | csf_assign05/message_serialization.cpp:79-163 | whatever the spacing, outcome and content are those of the message spelled; an improper message is not valid |
| `Grammar.DecodesQuotation` | csf_assign05/message_serialization.cpp:174-186 | FAILED and ERROR: the text between the first and the last quotation mark, or after the only one |
| `Grammar.DecodesNoQuotation` | csf_assign05/message_serialization.cpp:180-182 | without a quotation mark on its line such a message is rejected |
| `Grammar.DecodesNoWord` | csf_assign05/message_serialization.cpp:136-140 | a first word that names no type is rejected, the target untouched |
| `Grammar.LeadIsIdle` | csf_assign05/message_serialization.cpp:79-82 | whitespace before the first word makes no difference |
| `Grammar.EveryLineIsWritten` | csf_assign05/message_serialization.cpp:79-147 | every line that is not blank has such a spelling |
| `Grammar.WordsOfSpelled` | csf_assign05/message_serialization.cpp:189-197 | words are read back however they are spaced |
| `Grammar.EveryTextSpells` | csf_assign05/message_serialization.cpp:189-197 | every text spells the words that are read from it |
| `Grammar.LineIsWritten` | csf_assign05/message_serialization.cpp:15-64 | encoding writes the type's word, one blank before each argument, and a newline |
| `Grammar.CallsAre` | csf_assign05/message_serialization.cpp:15-140 | the eighteen words of the protocol, for printing and for parsing |
| `Grammar.ProperAre` | csf_assign05/message.cpp:88-135 | type by type, how many arguments a message has and which are names |
| `Grammar.NamesAre` | csf_assign05/message.cpp:138-156 | the alphabet of names, spelled out |
| `Grammar.PushLineWithBlanks` | csf_assign05/message_serialization.cpp:79-97 | a line with blanks before PUSH, a tab before the value and a blank after it pushes that value |
| `Codec.Encode` | csf_assign05/message_serialization.cpp:10-69 | the loop yields type word, blank-separated arguments and newline; rejected without type or beyond 1024, the text being written even then |
| `Codec.Decode` | csf_assign05/message_serialization.cpp:71-163 | outcome and content of the target for every string, also when it throws half way |
| `Codec.DecodeArgs` | csf_assign05/message_serialization.cpp:142-163 | the same from the arguments on |
| `Codec.ExtractSingleWordArgs` | csf_assign05/message_serialization.cpp:189-197 | the loop appends the whitespace-separated words of the text, in order |
| `Codec.ExtractQuotedTextArg` | csf_assign05/message_serialization.cpp:174-186 | takes the text from the first to the last quote, all the rest if there is only one, and complains exactly if there is none |
| `Text.WordsOfSpread` | csf_assign05/message_serialization.cpp:58-61 | words written with one blank before each are read back as they were |
| `Text.CStringExactly` | csf_assign05/client_connection.cpp:40 | of a buffer, `decode` gets what stands before the first NUL, and all of it |
| `Text.SpreadOfWordsIsShort` | csf_assign05/message_serialization.cpp:189-197 | normal spacing is the shortest spacing |
| `Messages.Message.IsValid` | csf_assign05/message.cpp:88-135 | the branches decide exactly the protocol: arity, identifiers, no blank PUSH; an empty identifier throws |
| `Messages.IsValidIdentifier` | csf_assign05/message.cpp:138-156 | accepts exactly a letter followed by letters, digits and underscores; throws exactly on the empty string |
| `Messages.Message.Assign` | csf_assign05/message.cpp:29-45 | the value of the right-hand side, also under self-assignment |
| `Messages.Message.SetMessageType` | csf_assign05/message.cpp:52-55 | sets the type, keeps the arguments |
| `Messages.Message.PushArg` | csf_assign05/message.cpp:82-85 | one argument more, at the end |
| `Messages.AllSpace` | csf_assign05/message.cpp:130 | true exactly if every character is whitespace |
| `Rio.Reader.Refill` | csf_assign05/csapp.c:811-826 | under any schedule of short reads and interruptions nothing pending is lost; 0 only at the end of the stream |
| `Rio.Reader.Read` | csf_assign05/csapp.c:811-836 | bytes delivered plus bytes pending are the bytes that were pending; the rest of the caller's buffer is untouched |
| `Rio.Reader.CopyOut` | csf_assign05/csapp.c:828-835 | the bytes handed out are the next ones, and buffer and count move on by exactly those |
| `Rio.Reader.ReadBytes` | csf_assign05/csapp.c:855-870 | min(n, remaining) bytes, independent of chunking; a failing read loses nothing |
| `Rio.Reader.ScanLine` | csf_assign05/csapp.c:877-896 | the loop stops after a newline, at maxlen - 1 bytes, or at the end of the stream, and nowhere else |
| `Rio.Reader.ReadLine` | csf_assign05/csapp.c:877-899 | the stream up to and including the next newline, cut at maxlen - 1 bytes, NUL-terminated, with exact count |
| `Rio.Reader.ReadAllLines` | csf_assign05/client_connection.cpp:35-39 | calling it until nothing comes yields the stream cut into lines, independent of chunking |
| `Rio.Reader.constructor` | csf_assign05/csapp.c:843-848 | nothing is buffered, everything is pending |
| `Rio.CutIsUnique` | csf_assign05/csapp.c:877-899 | bytes without an inner newline that end where a line must end are the line, whatever follows |
| `Rio.LinesJoin` | csf_assign05/csapp.c:877-899 | the lines joined are the stream: nothing lost, duplicated or reordered |
| `Rio.LinesComeBack` | csf_assign05/csapp.c:877-899 | newline-terminated lines shorter than the buffer come back one by one |
| `Sio.Ltoa` | csf_assign05/csapp.c:244-261 | the array holds the signed numeral and its NUL; it fits, and the rest is unchanged |
| `Sio.Terminate` | csf_assign05/csapp.c:259-260 | NUL after the digits, everything before it reversed, the rest unchanged |
| `Sio.GenerateDigits` | csf_assign05/csapp.c:252-254 | the do-while loop leaves the numeral backwards |
| `Sio.Reverse` | csf_assign05/csapp.c:232-241 | in place, the string up to its NUL reversed and nothing else |
| `Sio.Strlen` | csf_assign05/csapp.c:264-271 | the position of the first NUL |
| `Sio.RenderReadsBack` | csf_assign05/csapp.c:244-261 | for every base from 2 to 36 the text reads back as the number, with a sign iff negative and no superfluous zero |
| `Sio.LongIsShort` | csf_assign05/csapp.c:282-286 | no long has more than 63 digits in any base |
| `Connection.Server.Lock` | csf_assign05/server.cpp:65-69 | the caller owns the server mutex |
| `Connection.Server.Unlock` | csf_assign05/server.cpp:72-75 | the server mutex is free |
| `Connection.Server.CreateTable` | csf_assign05/server.cpp:78-82 | the name leads to a new empty unlocked table at the allocator's address; all other names lead where they led |
| `Connection.Server.FindTable` | csf_assign05/server.cpp:85-93 | the table of that name, null exactly if there is none |
| `Connection.ClientConnection.constructor` | csf_assign05/client_connection.cpp:12-19 | a new session as the state machine starts it: not logged in, no transaction, empty stack |
| `Connection.ClientConnection.FailTransaction` | csf_assign05/client_connection.cpp:92-100 | the loop rolls back and unlocks every locked table; none is locked afterwards |
| `Connection.ClientConnection.HandleCommit` | csf_assign05/client_connection.cpp:201-216 | the loop commits and unlocks every locked table, or throws and touches none |
| `Connection.ClientConnection.ManageException` | csf_assign05/client_connection.cpp:74-89 | rolls back first if in a transaction, then sends FAILED or ERROR |
| `Connection.ClientConnection.Catch` | csf_assign05/client_connection.cpp:153-157 | ends where the state machine's abort ends; InvalidMessage closes the session |
| `Connection.ClientConnection.HandleCreate` | csf_assign05/client_connection.cpp:161-176 | throws exactly if the name is taken; the server mutex is free afterwards either way |
| `Connection.ClientConnection.HandleBegin` | csf_assign05/client_connection.cpp:190-198 | throws exactly inside a transaction |
| `Connection.ClientConnection.HandlePop` | csf_assign05/client_connection.cpp:219-225 | one entry less and OK, or the exception |
| `Connection.ClientConnection.HandleTop` | csf_assign05/client_connection.cpp:228-242 | a DATA reply exactly if the encoded top fits, stack unchanged |
| `Connection.ClientConnection.HandleOperator` | csf_assign05/client_connection.cpp:245-342 | OK with the result, an exception with the repaired stack, or the crash |
| `Connection.ClientConnection.HandleSet` | csf_assign05/client_connection.cpp:357-394 | which error comes first, and otherwise: committed and free again outside a transaction, proposed and owned inside, the value gone from the stack |
| `Connection.ClientConnection.Acquire` | csf_assign05/client_connection.cpp:374-380 | fails exactly if in a transaction another client has the table |
| `Connection.ClientConnection.GetTableValue` | csf_assign05/client_connection.cpp:429-437 | the value on the stack, or the exception with the table unlocked |
| `Connection.ClientConnection.HandleGet` | csf_assign05/client_connection.cpp:397-426 | which error comes first, and otherwise the value on the stack and the table free outside a transaction, owned inside; after a missing key the table is free, yet in a transaction still among `locked_tables` |
| `Connection.ClientConnection.HandleBye` | csf_assign05/client_connection.cpp:345-348 | OK, and the loop ends |
| `Connection.ClientConnection.HandlePush` | csf_assign05/client_connection.cpp:351-354 | the argument on top, and OK |
| `Connection.ClientConnection.Close` | csf_assign05/client_connection.cpp:22-27 | an open transaction is rolled back and its tables unlocked |
| `Connection.ClientConnection.HandleLocal` | csf_assign05/client_connection.cpp:103-151 | the switch agrees with the state machine's dispatch for requests that name no table |
| `Connection.ClientConnection.AnswerLocal` | csf_assign05/client_connection.cpp:103-158 | dispatch, catch clauses and destructor together end where the state machine ends, with every locked table committed or rolled back accordingly |
| `Connection.ClientConnection.AnswerInLoop` | csf_assign05/client_connection.cpp:40-62 | bad lines, LOGIN and requests before LOGIN, as in the state machine |
| `Connection.ClientConnection.AnswerSet` | csf_assign05/client_connection.cpp:357-394 | a SET with its catch clauses ends where the state machine's steps end, table and client alike |
| `Connection.ClientConnection.AnswerGet` | csf_assign05/client_connection.cpp:397-437 | the same for GET |
| `Connection.ClientConnection.AnswerCreate` | csf_assign05/client_connection.cpp:161-176 | the same for CREATE |
| `Connection.ClientConnection.Understand` | csf_assign05/client_connection.cpp:40 | the session's one message object, whatever it held, ends up with what a fresh one would |
| `Connection.ClientConnection.TakeLine` | csf_assign05/client_connection.cpp:35-66 | one round of the session loop on any line: objects that mirror a state of the state machine mirror afterwards the state the manual gives for the line, which is the state the machine's own steps lead to, from the line through the reply to the end of a release; the server goes down exactly if the manual says so |
| `Alone.AnsweredIsRun` | csf_assign05/client_connection.cpp:35-66 | a request answered alone is a run of the state machine: the line, then only steps of that client |
| `Alone.DriveIsSolo` | csf_assign05/client_connection.cpp:357-437 | alone, a GET or SET does to the state what it does to its client and its table, and nothing else |
| `Alone.ReleasedIsRun` | csf_assign05/client_connection.cpp:92-213 | alone, a COMMIT or abort ends with every locked table committed or rolled back and free, in whatever order they come up |
| `Alone.SoloAutoSet` | csf_assign05/client_connection.cpp:367-371 | the four steps of an autocommit SET add up to one committed entry |
| `Alone.SoloTxMiss` | csf_assign05/client_connection.cpp:416-434 | a GET of a missing key in a transaction, in the code as written: the table is free while the transaction still counts it as locked |
| `Alone.DriveCreateNew` | csf_assign05/client_connection.cpp:161-176 | the steps of a CREATE of a new name add up to one new empty table |

## Left out

- Sockets, `accept`, threads, closing of descriptors, `server_loop` and `server_main.cpp`: a client is an actor that is fed whole lines.
- The inside of a pthread mutex: a mutex is an optional owner. Unlocking frees it whoever calls, as a default mutex does in practice; a lock call returns once the mutex is free.
- Data races inside `std::unordered_map`: `find_table` runs without the server mutex in GET and SET; the model assumes that a lookup is one atomic step.
- The session's call of `rio_readlineb` with the size of the wrong buffer (`client_connection.cpp`, line 36), which lets a line of more than 1023 bytes overrun the 1024 bytes of `buf`: the reader is verified against its own contract, and lines of any length reach the session directly.
- A reply written to a socket the client has closed: the SIGPIPE it raises, which nothing in the repository ignores, ends the process; in the model every write succeeds.
- `rio_readn`, `rio_writen` and all other wrappers of `csapp.c`: thin calls into the operating system, or loops like that of `rio_readnb`.
- `get_value.cpp`, `set_value.cpp`, the argument handling and all console output of the clients: nothing beyond `incr_value.cpp`.
- Fairness and liveness against a client that never sends its next line: `Deadlock.NoDeadlock` and `Deadlock.WorkShrinks` say what the code contributes.
- What happens after a crash (out-of-range operand, overflow, zero divisor): the process ends and the run with it; undefined behaviour has no further model.
- Characters: one Dafny `char` stands for one byte, `isspace` is that of the "C" locale.
- Rio.Descriptor.Read: the schedule of short reads, interruptions and failures is any finite list, after which reads deliver all they can.
- Rio.Reader.ReadLine: `maxlen` is at least 1 and at most INT_MAX, and the caller's buffer is at least that long, as the C code needs.
- Sio.Ltoa: the smallest long is excluded, as negating it is undefined.
- Connection.ClientConnection.TakeLine: one thread running undisturbed, with a request that is not made to wait; what other threads do in between, and waiting, are the subject of `Engine`. The table address of a CREATE is a parameter, as the allocator's choice.
- Connection.ClientConnection.HandleGet: does not say who owns the table while other threads run between its two unlocks; `StrayUnlock` does.
- Increment.NoLostUpdates: for the code as written it covers runs in which no GET misses, on any table; `Damage.IncrementsCanBeLost` is a run in which one does. While such a COMMIT is between its commit point and its table, the entry meant is the one `commit_changes` is about to write.
