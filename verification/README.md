# Autograding server: a model and its proofs

The asynchronous grading server (v4) takes C++ files from clients, numbers them, and grades them in
the background; clients ask for the status of a number later. Two pools of threads share two queues
and a status file under three mutexes, and a restart rebuilds the work from the status file. This
project models that server as a machine whose threads interleave at every lock, file and queue
operation and which may crash between any two of them. It proves what the machine keeps over every
run, and it proves the sequential code underneath (status file, queue, file transfer, names, messages)
against specifications that the machine uses. The thread-pool server (v3) is proved over the same
queue machine.

`dafny verify dfyconfig.toml` checks everything.

## What is proved

The concurrent server (`GradingServer.dfy`, theorems in `ServerTheorems.dfy`, `ServerLocks.dfy`,
`ServerHistory.dfy`, `ServerRest.dfy`, `ServerBound.dfy` and `Drain.dfy`; what each thread can do in
`ServerScripts.dfy` and `ServerTalks.dfy`; runs that go wrong in `Overtaken.dfy`):

- The line-by-line rewrite of request_status.csv is one atomic update of the table at every instant
  of every interleaving, crashes included. The file is missing exactly between the remove and the
  rename of one worker; nobody looks for it then; the table is on disk all the same. A restart after
  a crash succeeds if and only if the crash did not fall into that window; `Overtaken.NoRestart` is
  a run that ends there.
- All this is so exactly when the turns of a worker for rows of other requests are clear, and the
  program does not see to that: strtok has one place for the whole process, and handlers call it
  without fileLock. A turn is clear if no other thread calls strtok between the worker's two calls, and
  if the first call that another thread makes between `fgets` and those two is not strtok(NULL, ",")
  with the place, where an earlier turn left it, inside the new row's number: that call cuts the row
  at its comma.
  `SharedUpdates.UpdateExactIff` proves this for every table, from any memory, and for all calls of
  handlers on texts in which no digit stands before a newline, as messages of the client program and
  lines of remarks.txt are; `ServerText.TurnExactIff` proves it for a turn of the machine.
  `SharedUpdates.LongerRowLost` and `LengthsApart` give two rows of which the second is lost although
  no call comes between any two of the worker's (5123 and 50000123), and `Overtaken.CopyDisturbed` a
  reachable state in which a handler is about to disturb a turn. `SharedUpdates.LineIs` says what is
  copied after calls on any texts; after a message with a code and a newline it can be a row again,
  with the same status or with another (`NewlineNeeded`).
- Under that condition a row never disappears, its status only rises, a verdict never changes. When a
  client is answered 2, 3 or 4, the report it is sent is the complete output of the failed command,
  from the run that recorded the status, and it stays that in every later state. A query reads its
  row's status exactly when its turn for the row is clear too, or what other threads leave happens to
  have the same code as its next word (`SharedReads.ReadExactIff`; `ReadByLastCall` tells the latter
  from the last call that comes between, such as another client's query for the request with that
  number).
- The status that a worker records is the one its commands call for, over every run: "2", "3" or "4"
  if compilation, run or comparison failed, "5" if none did; and every such outcome can come about. What
  a handler answers is what the table said of the client's id when the handler read it, and a request
  keeps its number from its creation to its row.
- A command that is running has complete input: the uploaded program, the executable of its own run, and
  that run's output.
- No request is queued or worked on twice at a time. While the server runs every unfinished row is
  some thread's responsibility, with one exception, which is a fault of the program and is stated
  exactly: `createNewRequest` queues a request before it writes its row, and a worker that makes its
  last update before the row exists updates nothing. `VerdictRecordedIff` says that the verdict is
  recorded if and only if the row is there at that moment; `Overtaken.LeftAtZero` is a run in which
  it is not, so that an acknowledged request stays at "0"; `MissedUntilCrash` says that it stays
  there until a restart, and `RestartTakesAll` that a restart takes it up again.
- A crash loses exactly the requests without a row, acknowledged or not: such a request never gets a
  row and nobody ever becomes responsible for it, whereas one with a row is, in every later state
  of a running server, graded or somebody's responsibility. `Overtaken.AcknowledgedAndLost` is a
  run in which the client has been told its number.
- After a restart, without new clients and crashes, every schedule of the workers is finite (with a
  bound), does exactly three key steps for each unfinished request and none for any other, and ends
  with every row graded. More generally, every run of the whole server without a crash is
  bounded, by the clients that come, the spurious wakeups and the size of the table, so a server that
  is left alone comes to rest; and it rests only when every connection is served and closed and every
  row is graded or one of those that were overtaken.
- No wakeup is lost; no thread holds two of the three locks; the owner of a lock can always go on,
  and comes to its unlock within a bounded number of its own steps.
- Every open connection is in exactly one place, and is closed once by the only thread that has it;
  its number may then be used again.

The sequential code:

- `updateStatusToFile` on the characters of a file is the replacement of the rows of one id in the
  printed table; reading finds what was written; recovery builds the queue of the unfinished rows.
- A read that prints an id into the 11 bytes of `s1` overruns them if and only if the table has a row
  and the id is -10^9 or less. Workers never ask for such an id; a client can, and
  `Overtaken.QueryOverruns` is a reachable state in which one does.
- Two queues used in any interleaving are two stacks, in what they hold and in what dequeue returns,
  and never share nodes.
- For every NUL-free file and every way TCP splits the stream, the received file is, but for NULs, a
  prefix of the sent one that misses at most one byte in 1024. It is complete under every split if
  and only if the file has fewer than 1024 bytes, and it is byte for byte the sent file if and only
  if, besides, a read ends at the file's last byte.
- File names determine kind and request, commands redirect into the files so named, numbers and
  messages read back what was printed. Two requests get the same number if and only if their times
  agree modulo 10^6 seconds and their random numbers modulo 1000, so the generator does not make
  numbers unique. The text that tells a client its number fits its 30 bytes if and only if the
  number has at most eight digits; one of nine digits needs one byte more.

## What is assumed

- Request numbers are fresh over the whole run, crashes included (the generator does not enforce
  it; see above), and accept does not return the number of a connection that is open.
- A crash also ends the commands that the server started; an orphaned graded program would go on
  writing its report.
- The turns of workers and queries on the status file are clear in the sense above, and so are the
  handlers' two calls on their messages. The program does not see to that; `SharedUpdates.dfy` and
  `SharedReads.dfy` say what becomes of a copied row, of a status that is read and of a query otherwise.
- strtok and fgets are not interrupted, and a NUL that a second call writes into a buffer whose function
  has returned damages nothing else.
- The two overruns named above have no effect on anything else in the model: queries are for ids
  above -10^9, and the byte after the 30 of a reply is not in use.
- File operations and malloc succeed (the queue also models a failing malloc); an append that is
  closed is on disk; the graded program writes only its standard output and error.
- pthread_cond_signal wakes one sleeper if there is one; further wakeups are the spurious ones.
- The 4-byte size arrives whole; a read yields 1 to 1024 bytes while the connection has data.
- The commands of grader (g++, the graded program, diff) succeed or fail freely.

## Model

| member | source | states |
|---|---|---|
| ServerTheorems.UpdatesAreAtomic | v4/server/utils/file_update.c:26-90 | In every reachable state and for every step, when the worker's turns are clear of other threads' strtok (SharedUpdates.UpdateExactIff): only the remove of an update and an append change the table, each all at once; the status file is the whole table, or missing with the temporary file the whole table, and it is missing exactly while a worker is between remove and rename |
| ServerTheorems.RecoverableIff | v4/server/server.c:52-60 | After a crash a restart finds the status file if and only if no worker was between remove and rename; the table is on disk in both cases |
| ServerTheorems.ReadsSeeTheTable | v4/server/server.c:233-236 | A status query under the lock finds the file, and reads the table's status of its id if the id fits s1; it does not fit exactly when the table has a row and the id is -10^9 or less; the read's turns are taken as clear of other threads' strtok (SharedReads.ReadExactIff) |
| ServerTheorems.FileIsThere | v4/server/server.c:112-134 | A worker about to open the file, and a handler about to append, find it |
| ServerTheorems.StatusOnlyRises | v4/server/server.c:95-150 | Over every run with any crashes, under the same condition, a row never disappears, its rank (absent, 0, 1, graded) never falls, and a verdict never changes |
| ServerTheorems.ReportsLast | v4/server/server.c:110-136 | A recorded verdict has the complete output of the command that gave it, from the run that recorded it, in every later state of every run |
| ServerTheorems.AnswersAreBacked | v4/server/server.c:228-286 | When the code that a handler answers has a file sent, that file is the complete output of the failed command, of the run that recorded the status, now and while it is sent |
| ServerHistory.AnswerIsWhatWasRead | v4/server/server.c:228-286 | In every run, with any steps of other threads between: a handler answers for the id it was asked, with what the table said of that id when it read it, a status or that there is none |
| ServerTalks.QueryIsAnswered | v4/server/server.c:228-243 | From every reachable state with fileLock free, a query for an id that fits s1 can go from the request to its answer, which is the table's status of that id; nothing else changes |
| ServerTalks.CanAnswer | v4/server/server.c:245-286 | The answer can be sent, and the connection is then to be closed |
| ServerTheorems.CommandsReadComplete | v4/server/server.c:103-124 | In every reachable state a running command has complete input: the compiler the uploaded program, the run the executable that this run compiled, the comparison this run's output |
| ServerTheorems.SentFileIs | v4/server/server.c:257-276 | The chain of strcmp calls sends the failed command's own report for 2, 3 and 4, and no file for any other status |
| ServerHistory.SentNames | v4/server/server.c:257-276 | For "2", "3" and "4" the names of the files sent are those of the compiler's, the run's and the comparison's report, in full; no other code has one |
| ServerHistory.StatusFollowsResults | v4/server/server.c:107-129 | In every run, the code that a worker is about to write is the one the results of its own commands since it took the request call for: "1" before them, "2", "3" or "4" for a failed first, second or third, "5" for three successes; and it runs a command only after the ones before it have succeeded |
| ServerHistory.RecordedCode | v4/server/server.c:112-134 | When the request has a row, that code is what the table says of it after the update |
| ServerHistory.VerdictFiles | v4/server/server.c:110-129 | A recorded "2" has the compiler's report, "3" the run's and "4" the comparison's, each complete and of a failed command, "5" that of a comparison that found no difference, all of the run that recorded it |
| ServerHistory.OutputNames | v4/server/utils/system_commands.c:8-69 | The names of the files that each of the three commands writes, in full |
| ServerHistory.RunsAreDistinct | v4/server/server.c:354-381 | In every reachable state gradings have different numbers, and all that is recorded of earlier ones has smaller numbers than any to come, over all crashes |
| ServerHistory.RequestKeepsItsNumber | v4/server/server.c:168-219 | In every run a handler that creates a request has the number it was given, up to its row |
| ServerHistory.NumberIsPassedOn | v4/server/server.c:190-218 | That number goes to the queue and into the row, with status "0", behind all other rows |
| ServerScripts.GradingOutcomes | v4/server/server.c:107-129 | A worker ready to compile can run the commands with each outcome: one failing, one success and a failure, two and a failure, three; it then wants to record a compile error, a runtime error, a wrong output or a pass, and the files of each command hold its complete output |
| ServerScripts.StartsPartial | v4/server/server.c:107-124 | A command that starts leaves its output files unfinished |
| ServerScripts.CanUpdate | v4/server/utils/file_update.c:26-90 | With fileLock free an update can go from lock to unlock: the table has the status of the request replaced, the temporary file is gone, the worker goes on to the commands after "1" and is done after a verdict |
| ServerScripts.CanGrade | v4/server/server.c:354-381 | A worker awake can take the request at the front and grade it with each outcome; then its row has the verdict, the other rows are as before, and the worker is back at the queue |
| ServerScripts.CanSleep | v4/server/server.c:355-360 | A worker that finds no request can go to sleep |
| ServerTheorems.EveryRowAccountedFor | v4/server/server.c:195-219 | While the server is up every unfinished row is some thread's responsibility or is a "0" row whose worker overtook it; nobody is responsible for a graded row |
| ServerTheorems.PendingIff | v4/server/server.c:350-386 | The requests with a final update to come are exactly those queued, being queued, or held by a worker that has not settled |
| ServerTheorems.RestartTakesAll | v4/server/server.c:63-87 | After a restart exactly the unfinished rows are queued and somebody's responsibility, overtaken ones included |
| ServerTheorems.VerdictRecordedIff | v4/server/server.c:112-134 | The final update of a grading records the verdict if and only if the row of the request is there; otherwise the request is missed |
| ServerTheorems.MissedUntilCrash | v4/server/server.c:207-219 | A missed request has no row or a "0" row, and nobody responsible, in every state before the next crash |
| ServerTheorems.CrashSurvivors | v4/server/server.c:195-219 | Of the requests that have a number at a crash: one without a row never has one in any later state and nobody is responsible for it; one with a row keeps it, and whenever the server is up it is graded or somebody's responsibility |
| ServerTheorems.ForsakenForGood | v4/server/server.c:212-218 | A request with a number, without a row, and with no handler left to write one never gets a row; once nobody is responsible for it, nobody ever is |
| ServerTheorems.FailedReply | v4/server/server.c:211-214 | A reply that cannot be sent makes the request such a one |
| Overtaken.LeftAtZero | v4/server/server.c:195-218 | A concrete run from a fresh installation after which a request that was acknowledged and graded stays at "0" with every worker idle |
| Overtaken.NoRestart | v4/server/utils/file_update.c:70-80 | A reachable crash between remove and rename, after which no restart is possible |
| Overtaken.AcknowledgedAndLost | v4/server/server.c:207-218 | One reachable state in which the client has been told its number, and in which a crash loses the request in every run that follows |
| Overtaken.QueryOverruns | v4/server/utils/file_update.c:105-109 | The client's message for -1000000000 is read back as that id, and a state is reachable in which a handler is about to look it up in a table with a row |
| Overtaken.CopyDisturbed | v4/server/server.c:314-330 | A reachable state with a worker in its turn for another request's row and a handler about to cut a message; either message of the client program, cut between the worker's two calls, spoils the line |
| Overtaken.EveryVerdict | v4/server/server.c:107-129 | For each outcome of the commands a state is reachable in which the row of a request has the verdict they call for |
| ServerTheorems.GradedByOne | v4/server/server.c:354-371 | In every reachable state a request is queued or held by workers at most once in total, so two workers never grade it at once |
| ServerTheorems.QueuedIdsAreValid | v4/server/server.c:365-370 | Queued ids are 0 to 999999999, so the negative error result of dequeue is never mistaken for one |
| ServerLocks.OneLockEach | v4/server/server.c:192-219 | Every thread holds at most one of fileLock, requestQueueLock and clientQueueLock |
| ServerLocks.FileOwnerGoesOn | v4/server/server.c:112-134 | The owner of fileLock always has an enabled step of its own that waits for no lock |
| ServerLocks.ReqOwnerGoesOn | v4/server/server.c:355-371 | The same for the owner of requestQueueLock |
| ServerLocks.CliOwnerGoesOn | v4/server/server.c:493-504 | The same for the owner of clientQueueLock, handler or accept loop |
| ServerLocks.LocksAreReleased | v4/server/server.c:112-134 | In any run without a crash in which a lock is owned throughout, its owner takes fewer steps than the table has rows plus four for fileLock, or fewer than three for a queue's lock |
| ServerLocks.HoldStep | v4/server/server.c:355-378 | Every step of a lock's owner brings its unlock nearer, and no step of another thread puts it off |
| ServerLocks.WaitersAreWoken | v4/server/server.c:295-312 | In both pools, while a thread sleeps, the queue has at most as many items as threads awake on the way to it, plus one whose signal is still to come |
| ServerLocks.ConnectionsInOnePlace | v4/server/server.c:482-504 | An open connection is in exactly one place: accept loop, queue, or handler; and a number is there or closed as often as accept returned it |
| ServerLocks.ConnectionsClosedOnce | v4/server/server.c:305-343 | A handler that closes a connection is the only thread to have it, and afterwards no thread has it and its number is closed once more |
| ServerTalks.CanConnect | v4/server/server.c:478-505 | Any connection that is not open can be accepted and put at the front of its queue, and a sleeping handler is woken |
| ServerTalks.CanPickUp | v4/server/server.c:295-312 | A handler awake can take the connection at the front |
| ServerTalks.CanReject | v4/server/server.c:315-343 | A client that asks for neither is left, to be closed |
| ServerTalks.CanClose | v4/server/server.c:342-343 | A handler that is through can close its connection and is free |
| ServerTalks.CanCreate | v4/server/server.c:168-224 | With the locks free a new request can be created with any fresh number: its program is stored, it is at the front of the queue, its row "0" is behind all others |
| ServerTalks.CanFailUpload | v4/server/server.c:177-181 | While it is received the file is unfinished, and a failed receive ends the request with nothing queued or written |
| ServerTalks.CanFailConfirmation | v4/server/server.c:184-187 | So does a confirmation that cannot be sent |
| ServerTalks.CanFailReply | v4/server/server.c:211-214 | A number that cannot be sent ends the request without a row |
| ServerRest.RestMeansGraded | v4/server/server.c:289-386 | In a reachable running server with workers and handlers in which nothing can happen but a new client, a spurious wakeup or a crash: both queues are empty, every connection is closed, and every row is graded or a missed "0" row |
| ServerBound.EveryRunIsBounded | v4/server/server.c:289-386 | From every reachable state of a running server, a run without a crash is no longer than the steps left at its start, three for each spurious wakeup, and a number linear in the table's size for each client that comes |
| ServerBound.RestartBound | v4/server/server.c:460-505 | After a restart, with n threads in each pool and u unfinished rows, the steps left are u(2L + 20) + 4n, where L is the number of rows and of clients to come |
| ServerBound.BoundStep | v4/server/server.c:289-386 | Every step of a worker, a handler or the accept loop takes something off the steps left, but for the coming of a client and spurious wakeups; and the table gets no more rows than there were connections for |
| ServerSafety.StepKept | v4/server/server.c:289-386 | Every step of every thread, a crash and a restart keep the invariant of queues, locks, files, ids and reports |
| ServerSafety.RunKept | v4/server/server.c:478-505 | The invariant holds after every run |
| ServerSafety.RecoveredMeaning | v4/server/server.c:66-86 | An id is in the rebuilt queue if and only if its row is unfinished, and then once |
| ServerIds.HeldOnce | v4/server/server.c:365-381 | The id a worker holds is held by no other thread and is not queued |
| ServerIds.PendingRemove | v4/server/server.c:376-378 | An update of a worker takes at most its own id off the requests still to be graded, and only the final update does; who is responsible for the others stays right |
| ServerInvariants.TableKept | v4/server/utils/file_update.c:46-80 | Every step keeps the copy a prefix of the replaced table, the ids of the table distinct, and the file present outside the window |
| ServerInvariants.FileLockKept | v4/server/server.c:233-236 | fileLock is owned by exactly the thread between its lock and its unlock |
| ServerReports.ReportCommand | v4/server/server.c:110-136 | Starting and ending a command changes the output files of that command and of that request alone, the request has no verdict yet, and every recorded verdict keeps its report |
| ServerReports.OutputsAreGradingFiles | v4/server/utils/system_commands.c:8-69 | The files that the three commands of a grading write in the machine are exactly those whose names are disjoint from any other grading's |
| ServerReports.BackedRemove | v4/server/server.c:113-133 | The verdict that an update records is the one its own run's complete report stands for |
| Drain.RestartDrains | v4/server/server.c:350-386 | From a restart with workers and until a client or a crash comes: a bound on every schedule, requests taken from the last unfinished row to the first, three key steps for each unfinished request of any set when the workers stop, and then every row graded |
| Drain.ThreeKeySteps | v4/server/server.c:365-384 | When they stop, an unfinished request has had exactly three key steps (dequeue, update to 1, final update) and any other request none |
| Drain.AllKeySteps | v4/server/server.c:365-384 | Which makes 3n for n unfinished rows |
| Drain.WorkRun | v4/server/server.c:365-384 | Under every schedule, key steps taken plus key steps left is constant, for any set of requests |
| Drain.WorkersStop | v4/server/server.c:352-385 | A schedule of the workers is no longer than a bound on table and queue, plus three for each spurious wakeup |
| Drain.StoppedMeansDone | v4/server/server.c:355-360 | Workers that can do nothing but wake spuriously have an empty queue and no work left |
| Drain.AllGraded | v4/server/server.c:110-136 | Then every row has its verdict |
| Drain.TakenInOrder | v4/server/server.c:365 | What the workers take, in order, followed by what is still queued, is the queue they started from |
| Pool.WakeKept | v3/server/server.c:126-133 | Every step keeps the bound on queued items that excludes lost wakeups, spurious wakeups included |
| Pool.SomeoneComes | v3/server/server.c:226-232 | With the lock free, an item queued and a worker asleep, a woken worker can take the lock |
| Pool.LockKept | v3/server/server.c:126-133 | The mutex is owned by exactly the thread between lock and unlock, through pthread_cond_wait |
| Pool.LiveStep | v3/server/server.c:132-141 | A step moves items from place to place; only accept adds one, only the close at the end takes one away |
| Pool.Exclusive | v3/server/server.c:132-141 | An item that is in one place is not queued and not with another thread when a worker holds it |
| Pool.FinishedOnce | v3/server/server.c:132-141 | The worker that closes an item is the only one to have it, and then nobody has it |
| Pool.LiveOnceKept | v3/server/server.c:215-232 | No step puts an item in two places, when accept returns no number that is still open |
| Pool.HoldStep | v3/server/server.c:126-133 | The owner of the mutex comes nearer its unlock with each of its steps, at most three, and other threads' steps change nothing of that |
| Pool.OwnerGoesOn | v3/server/server.c:126-133 | The owner of the mutex can take a step that does not wait for it |
| ThreadPool.OnePlaceEach | v3/server/server.c:213-233 | In every state of every run of the thread-pool server an open connection is in exactly one place, and a number is there or closed as often as accept returned it |
| ThreadPool.ClosedOnce | v3/server/server.c:135-141 | A worker that closes a connection is the only thread to have it; afterwards nobody has it, and each time that accept returned its number it has been closed |
| ThreadPool.NoLostWakeup | v3/server/server.c:126-133 | The wakeup bound in every state of every run, and the woken worker that it promises |
| ThreadPool.RestMeansServed | v3/server/server.c:120-143 | A server with workers that can only accept or wake spuriously has served and closed every accepted connection |
| ThreadPool.AnyCanBeServed | v3/server/server.c:120-143 | From the start any connection can be accepted, queued, taken, served and closed, by any worker, awake or woken from its sleep |
| ThreadPool.QueueIsTheList | v3/server/server.c:126-132 | In every run the queue is what the linked list holds after the same enqueues and dequeues, and the workers take what its dequeues return |
| ServerText.InTheLoop | v4/server/utils/file_update.c:43-65 | In every state of an update, the machine's two files print to what the copying loop on characters has read and written after as many turns |
| ServerText.TurnInText | v4/server/utils/file_update.c:46-64 | A turn of the machine is a turn of the loop: fgets takes the row, and the text of the temporary file grows by the row's line with the status replaced |
| ServerText.TurnExactIff | v4/server/utils/file_update.c:46-64 | From any memory and with any ordinary calls of handlers in a turn, the source writes that line if and only if the turn is clear or the row is the worker's own |
| ServerText.EndsInText | v4/server/utils/file_update.c:67-80 | At the remove the file is read to its end and the temporary file is the printed new table, which is the table then |
| SharedTokens.StrtokText | v4/server/utils/file_update.c:48-63 | A call of strtok on a buffer, in terms of the text it finds and the text it leaves |
| SharedTokens.PerformText | v4/server/server.c:324-330 | Any calls and buffer fills of other threads, with any texts, leave the token that a thread has cut off alone, and leave a text that is known from theirs |
| SharedTokens.BeforeLeaves | v4/server/utils/file_update.c:46-48 | Calls between the reading of a line and its first call leave it as it is, but when the place is inside its first token and the first of them is a second call that stops at the separator; then they cut it there |
| SharedTokens.FirstCallLeaves | v4/server/utils/file_update.c:46-49 | The first call returns the first token in either case; the second token is still to be had only if the line was not cut |
| SharedTokens.PositionAfter | v4/server/utils/file_update.c:48-63 | Calls on an own buffer leave the place elsewhere after another thread's first call, else at the end of the string after a second call, else where it was |
| SharedUpdates.LineIs | v4/server/utils/file_update.c:46-64 | From any memory and with any calls on any texts in a turn: the worker knows its own row, and another row's copy is its id and the next word of the text that is left, the second token being NULL if there is none |
| SharedUpdates.CopyExactIff | v4/server/utils/file_update.c:46-64 | From any memory and with any ordinary calls before, between and after the worker's two, another request's row is copied if and only if the turn is clear |
| SharedUpdates.TurnPosition | v4/server/utils/file_update.c:46-65 | Where a turn leaves the place for the next `fgets`: elsewhere, at the end of the row or of its first token, or behind its comma, told from the calls in the turn |
| SharedUpdates.UpdateExactIff | v4/server/utils/file_update.c:43-65 | For every table, from any memory and with any ordinary calls in every turn, the temporary file is the printed replaced table if and only if the turns for rows of other requests are clear, the place being carried from turn to turn |
| SharedUpdates.LongerRowLost | v4/server/utils/file_update.c:46-63 | Without any call between the worker's two, one handler's second call after `fgets` loses a row whose number is longer than the row before it, or than an own row's number by two; without that call the copy is right |
| SharedUpdates.LengthsApart | v4/server/server.c:153-168 | The numbers 5123 and 50000123 are such a pair |
| SharedUpdates.MessagesAreOrdinary | v4/client/client.c:72-140 | The messages of the client program are without a newline |
| SharedUpdates.RemarksAreOrdinary | v4/server/utils/file_update.c:140-147 | A code, a comma and a remark that does not end in a digit, with or without a newline, is a text of the kind that is meant |
| SharedUpdates.ClientsDisturb | v4/server/server.c:324 | Either message of the client program, cut between a worker's two calls, spoils the copy |
| SharedUpdates.CopyOfMessage | v4/server/server.c:324 | After a first call on any message with a command, a colon and an argument, the copied line is the row's id and the argument's next word |
| SharedUpdates.NewlineNeeded | v4/server/server.c:324 | So the condition on texts is needed: after a message whose argument is a code and a newline, the line is the row with that code, which may be its own or another |
| SharedReads.ReadExactIff | v4/server/utils/file_update.c:104-119 | For every table, from any memory and with any ordinary calls in every turn, a query reads the status of its id, or finds no row, if and only if the turn for its row is clear or the text that is left there has that very code as its next word |
| SharedReads.ReadByLastCall | v4/server/utils/file_update.c:107-119 | For calls on texts with one separator, the latter is so if and only if the last call between the query's two gives that code |
| SharedReads.MessagesGive | v4/client/client.c:140 | A status message gives a code exactly when it is a query for the request with that number, and a new request gives none |
| SharedReads.QueryIs | v4/server/server.c:314-330 | From any memory and with any calls before and between its two, a handler gets the number at the start of the text that is left for the id, or NULL |
| SharedReads.QueryUndisturbed | v4/server/server.c:324-330 | With no call between its two it gets the client's id, or NULL if the message was cut at its colon before the first |
| SharedReads.QueryCrossed | v4/server/server.c:324-330 | After a worker's two calls for a row, a handler's second call returns NULL |
| StatusFile.CopyRows | v4/server/utils/file_update.c:43-65 | The tokenizing copy loop on the printed table gives the printed table with the rows of the id replaced and all others byte for byte; the flag says whether there was one |
| StatusFile.CopyLine | v4/server/utils/file_update.c:47-64 | One turn: the row's line with the new status if the row is the request's, else the same line; and which of the two |
| StatusFile.Files.UpdateStatusToFile | v4/server/utils/file_update.c:26-90 | The file then holds the replaced table and the temporary file is gone; 0 if and only if the id occurs, -1 and no change if the file is missing |
| StatusFile.Files.UpdateAndRead | v4/server/utils/file_update.c:26-124 | An update of a request that has a row makes its line the printed id and ",1\n" to ",5\n", all text before and after unchanged, and a read returns "1" to "5" |
| StatusTable.RowTexts | v4/server/utils/file_update.c:19 | The six lines in full |
| StatusFile.Files.WriteStatusToFile | v4/server/utils/file_update.c:10-23 | The file holds the old table and the new row at its end, for a new request the old text, the printed id and ",0\n"; a missing file is created |
| StatusFile.Files.ReadStatusFromFile | v4/server/utils/file_update.c:93-124 | For every id: the code in the first row of the id, or nothing, or that the printed id overruns s1 |
| StatusFile.OverrunsIff | v4/server/utils/file_update.c:108-109 | It does exactly when the table has a row and the id is -10^9 or less |
| StatusFile.RowCopied | v4/server/utils/file_update.c:59-64 | A row cut by strtok at the comma and printed again is the same text |
| StatusFile.RowMatches | v4/server/utils/file_update.c:49-53 | The string comparison of the first token decides equality of ids |
| StatusTable.LookupAfterReplace | v4/server/utils/file_update.c:105-119 | A read after an update returns the new status for that id and the old one for every other |
| StatusTable.LookupAfterAppend | v4/server/utils/file_update.c:19 | A read after an append finds the new row exactly where nothing was found before |
| StatusTable.RecoveredExactly | v4/server/server.c:70-76 | The recovered queue holds the ids of the unfinished rows and no others |
| StatusTable.RecoveredOnce | v4/server/server.c:70-76 | With distinct ids, each once |
| StatusTable.RecoveredOrder | v4/server/utils/circular_queue.c:19-46 | Of two unfinished rows the later one in the file is ahead in the queue |
| Recovery.FaultTolerance | v4/server/server.c:52-90 | From the text of the status file, the queue of the unfinished requests; an error and an empty queue if the file is missing |
| Recovery.RowRead | v4/server/server.c:66-70 | strtok and atoi read back the printed id and status |
| CText.AtoiOfDecimal | v4/server/server.c:66 | atoi reads back what %d printed, whatever non-digit follows |
| CText.DecimalInjective | v4/server/utils/file_update.c:52 | Different numbers print differently |
| CText.DigitAt | v4/server/utils/file_update.c:19 | The digit of weight 10^k in a printed number has the value n / 10^k modulo 10, as the character's code less that of 0 |
| CText.SignOf | v4/server/utils/file_update.c:19 | A negative number is a minus sign and its opposite, and no other has a sign |
| CText.AtoiOfSpaced | v4/server/server.c:330 | atoi passes over white space and takes a plus sign |
| CText.LongLine | v4/server/utils/file_update.c:46 | fgets takes a line that is longer than the buffer in parts |
| Queues.CircularQueue.Enqueue | v4/server/utils/circular_queue.c:19-29 | The item is at the front, the others behind it; nothing changes if malloc fails |
| Queues.CircularQueue.Dequeue | v4/server/utils/circular_queue.c:32-46 | The front item, and the list without it; -1 and no change when empty |
| Queues.CircularQueue.IsEmpty | v4/server/utils/circular_queue.c:13-16 | The size is zero exactly when there is no item and front is NULL |
| Queues.CircularQueue.GetSize | v4/server/utils/circular_queue.c:49-52 | The counter is the length of the list |
| Queues.CircularQueue.constructor | v4/server/utils/circular_queue.c:6-10 | An empty valid queue |
| Queues.RunBoth | v4/server/utils/circular_queue.c:6-52 | Two queues used in any interleaving: each holds what the stack of its own uses holds, each dequeue returns what that stack returns (-1 when empty), and they share no node |
| Queues.LastInFirstOut | v4/server/utils/circular_queue.c:19-46 | After any uses, items enqueued and then as many dequeues: the dequeues return them in reverse order, and the stack is what it was |
| FileTransfer.SendFile | v4/client/utils/file_transfer.c:50-102 | The size header, least byte first, and chunks of 1 to 1024 bytes that concatenate to the frame of the file; one more chunk than the file has full ones |
| FileTransfer.RecvFile | v4/server/utils/file_transfer.c:9-48 | The file gets the reads up to the first that reaches the announced size; success exactly if one does; a negative size counts as the size_t it converts to |
| FileTransfer.FrameLength | v4/client/utils/file_transfer.c:82-98 | The payload has size + size/1023 + 1 bytes |
| FileTransfer.Delivery | v4/server/utils/file_transfer.c:30-45 | For every NUL-free file and every split: the transfer ends within the payload, in fewer than size + 1024 bytes, and without NULs it is a prefix of the file missing at most size/1024 bytes |
| FileTransfer.CompleteIffSmall | v4/server/utils/file_transfer.c:43-44 | The file arrives complete under every split if and only if it has fewer than 1024 bytes |
| FileTransfer.ByteExactIff | v4/server/utils/file_transfer.c:41-44 | The stored file equals the sent one if and only if it has fewer than 1024 bytes and one of the reads into which the stream is split ends at its last byte |
| FileTransfer.StopsExactly | v4/server/utils/file_transfer.c:33-45 | The loop stops with exactly the announced size if and only if one of the reads ends there |
| FileTransfer.Transfer | v4/server/utils/file_transfer.c:9-48 | send_file and recv_file together: success, and the prefix, the bound and the exact condition of the stored file |
| FileTransfer.StripFramePrefix | v4/client/utils/file_transfer.c:86-89 | The first t bytes on the wire carry t - t/1024 bytes of the file |
| FileTransfer.SizeRoundTrip | v4/server/utils/file_transfer.c:25-26 | The four bytes give back the size |
| FileTransfer.BytesInt | v4/server/utils/file_transfer.c:25-26 | Four bytes are read as an int, least byte first, in two's complement |
| FileTransfer.AsSize | v4/server/utils/file_transfer.c:43 | The size_t that an int is compared as: itself modulo 2^64 |
| Names.MakeFilename | v4/server/utils/make_filename.c:8-98 | The six names in full, each fitting the 200-byte buffer |
| Names.NamesInjective | v4/server/utils/make_filename.c:8-98 | Equal names are of the same kind and request |
| Names.GradingsDisjoint | v4/server/utils/system_commands.c:8-69 | Gradings of different requests write disjoint files, and no source file |
| Names.CompileCommand | v4/server/utils/system_commands.c:8-26 | Standard error goes to the file that make_compile_output_filename names |
| Names.RunCommand | v4/server/utils/system_commands.c:30-48 | Standard output and error go to the files that make_output_filename and make_runtime_output_filename name |
| Names.OutputCheckCommand | v4/server/utils/system_commands.c:52-69 | The difference goes to the file that make_output_diff_filename names |
| Names.GradingCommands | v4/server/server.c:95-105 | The three commands in full, built from the names that grader makes |
| Requests.SameIdIff | v4/server/server.c:153-168 | Two requests get the same number if and only if their times agree modulo 10^6 and their random numbers modulo 1000 |
| Requests.DifferentTimesDiffer | v4/server/server.c:156-165 | Requests of different seconds less than 10^6 apart get different numbers |
| Requests.LaterIsLarger | v4/server/server.c:165 | Within a period of 10^6 seconds a later second has a larger number |
| Requests.NotUnique | v4/server/server.c:152-168 | Two requests of one second can get the same number |
| Requests.GenerateUniqueRequestID | v4/server/server.c:153-168 | A number from 0 to 999999999 whose leading part is the time modulo 10^6 and whose last three digits are the random number modulo 1000 |
| Requests.ReplyFits | v4/server/server.c:207-209 | The text with the number fits requestIDString if and only if the number is at most 99999999, that is, the time modulo 10^6 is below 100000; it never needs more than 31 bytes; the number is read back from behind the colon |
| Requests.StatusRoundTrip | v4/client/client.c:140 | The server reads the id back from the client's status message, whatever follows it in the buffer |
| Requests.NewRecognised | v4/client/client.c:72 | A new request is recognised whatever the client sends after the word |
| Requests.OthersIgnored | v4/server/server.c:324-340 | Every other command is ignored, with or without an argument |
| Requests.NullTokens | v4/server/server.c:324-330 | A status command without an argument, or an empty message, gives a NULL token |

## Left out

- StatusFile.Files.UpdateStatusToFile: states the result of a whole call; the states between its steps are those of the machine, which keeps tables of rows instead of characters.
- StatusFile.Files.UpdateStatusToFile: asks for an id that fits s1; its callers are workers, whose ids are never negative (ServerTheorems.QueuedIdsAreValid).
- ServerTheorems.ReadsSeeTheTable: says nothing about what a query for -10^9 or less reads, because the overrun of s1 has no defined result.
- Names.MakeFilename: the six functions differ only in their literals and are one method with the kind as parameter.
- Queues.CircularQueue.Enqueue: the size counter is an unbounded integer; it would overflow at 2^31 items.
- Recovery.FaultTolerance: the printing, the lock and the signal are left out, because no other thread that uses the queue exists yet.
- Malformed status rows and malformed first messages, where the program hands NULL to strcmp, atoi or printf; first messages that arrive in pieces.
- Errors of recv during a file transfer (the size_t result makes -1 a huge count), and a size header that arrives in pieces.
- Sockets, connect, bind, signals, sleeping, printing, and the outcomes of g++, the graded program and diff beyond success and failure.
- The failing enqueue of createNewRequest, which closes the socket twice.
- readRemarksFromFile, countQueueSize and freeQueue: a constant table (its lines enter as a code, a comma and a sentence), an unlocked monitor, and a function that is never called.
- The server's send_file of a report: the client's framing without the size header.
- The v1 and v2 servers, the client's retry loops, and v3's thread ids used as file numbers.
- Order among clients that keep arriving: the queues are last in, first out, so waiting times are unbounded.
