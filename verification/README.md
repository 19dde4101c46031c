# ngPost in Dafny

ngPost posts files to Usenet, and checks posts that are already there. This project models
the parts of it whose correctness is not obvious from any one function, and proves what they
promise:

- **The NZB check.** From an NZB and the answers of a server, ngPost brackets the PAR2 source
  slices a post has lost and the recovery blocks it has left, and calls the post complete,
  repairable or beyond repair. The model has the counters, their accounting, the verdict, the
  connections that ask for the articles, and the ghost truth the verdict is about: the files
  cut into articles of any lengths, any of them lost, and any number of recovery packets
  surviving in a damaged volume.
- **The article pipeline.** Files cut into slices, builders and connections on their threads
  and locks, and each posting connection with the article it holds.
- **The queue of posting jobs** and **the pause**, as event-driven state machines.
- **Smaller cores**: the merge of a configuration file that was edited meanwhile, the folder
  monitor and its reservations, the retrying history queue, the segment sizes inferred from
  history, and the bounded output of a command.

## How it is laid out

| files | what they hold |
|---|---|
| `Arithmetic`, `Options`, `Slices`, `NzbFacts`, `CheckState` | rounded division and other shared definitions; block arithmetic and its geometry; the document and the counters; the state of a check and what every operation does to it |
| `NzbCheck`, `NntpCheckCon` | the objects of the check, with their fields and loops, proved against `CheckState` and `CheckRun` |
| `Parsing`, `Accounting` | the counters are a function of the document and of the answers, in whatever order these come |
| `Verdicts`, `Recovery`, `Tightness`, `EarlyStop`, `Estimates`, `CheckLimits` | every verdict read off the document and the replies; verdicts are proofs, and exactly when; stopping early changes nothing; the estimates stay within the proofs; two posts that show the conditions are needed |
| `CheckRun`, `CheckSafety`, `CheckSteps`, `CheckTheorems`, `CheckPolls`, `CheckProgress`, `CheckEnd`, `StalePoll`, `EndlessWait` | the protocol of several connections, its invariants over every run, progress and termination, the run that loses an article, and the wait that does not end |
| `Reader`, `Pipeline`, `Posting`, `NntpConnection` | slices of a post, threads and locks, the posting connection |
| `Scheduler`, `QueueProgress`, `PostingQueue`, `Pausing` | the queue of jobs, safe and never stalled; the pause |
| `ConfigText`, `ConfigEdit`, `ConfigMerge`, `FolderMonitor`, `HistoryQueue`, `SegmentSizes`, `BoundedOutput` | the smaller cores |

Where the source changes state, there is a class with its fields and methods. Each method is
proved against a function of the old state; the theorems are about those functions. `dafny
verify dfyconfig.toml` checks everything.

STAT is section 6.2.4 of RFC 3977, POST section 6.3.1; AUTHINFO USER/PASS is section 2.3 of
RFC 4643. Slices and packets follow the Input File Slice Checksum and Recovery Slice packets
of the Parity Volume Set Specification 2.0.

## Where the code falls short of its own comments

Each of these has a lemma that shows it happen, and one that says exactly when.

- Byte sums saturate at 2^63-1 before they are subtracted (src/NzbCheck.cpp:655-658). A file
  whose encoded sizes saturate can be called damaged beyond what it lost
  (`SaturationMisleads`). A verdict beyond repair is a proof if and only if the least damage
  that any layout of the post has exceeds the blocks that may be left
  (`UnrecoverableIsProofIff`); it is whenever no sum is cut (`VerdictIsJustified`).
- Both sides of the favourable comparison are cut at the largest int
  (src/NzbCheck.cpp:754), so a post with more damage than blocks can be called probably
  recoverable (`ClippingMisleads`): if and only if the guaranteed blocks reach that int and
  the sum of the check's own bounds on the damage exceeds them; below that int it never is
  (`FavourableIff`).
- The timer a connection sets while it waits for PAR2 answers is never cancelled
  (src/NntpCheckCon.cpp:437). If both transports fail at that moment it makes a connection ask
  for an article while it holds another, which is then never asked about again
  (`StalePollLosesArticle`, `StepConservesIff`).
- The counter of those waits has 16 bits (src/NntpCheckCon.h:73), the bound it is compared to
  does not. With a socket timeout of 65536 * 25 ms or more, the connections of a check that
  lost its PAR2 article that way poll for ever, owing no reply and with no watchdog left
  (`LosingRunWaits`, `WaitsForEver`); below it every run ends (`RunsEnd`).
- A connection that leaves the waiting loop of `Poster::getNextArticle` because of a pause
  that ends before the next test takes its empty queue for the end of the input, or builds an
  article itself, while its own is being built (`FlickerMisleads`, `FlickerIsWrong`,
  `StaysSureIff`).
- Two jobs can be packed at once. A job that does not need the VPN overtakes the head of the
  queue, which waits for it while packing (`TwoPackings`); or the job packed ahead is
  cancelled and its end packs the next one while such a job is packing
  (`TwoPackingsByRefill`). No other step leads there (`StepKeepsOneBusyIff`).
- The configuration merge is not three-way in five cases (`MergeExceptions`,
  `MergeIsThreeWayIff`). A setting added on both sides takes the file's value. One deleted
  from the file that ngPost cannot do without comes back. An edited line ngPost does not know
  is taken for a conflict and dropped (src/NgPost.cpp:4179). A setting ngPost has stopped
  writing takes the file's value when the value before or after the edit is empty, although
  both sides changed. And an edit of a setting that ngPost writes on two lines is lost: it
  goes to the first line, and the last one counts. `DISP_Progress` is one when both its
  displays are on (src/NgPost.cpp:6117-6118; `TwoLinesRepeat`).
- A file that ngPost put there itself can be posted after two steps, and no other
  (`StepLetsPostIff`): a rename to a name the monitor is sampling just then
  (`RenameUnderSamplingIsPosted`), and a failed restore that releases the reservation of a
  file which another job restored to the same path (src/PostingJob.cpp:116;
  `LostReservationIsPosted`).

## Model

| member | source | states |
|---|---|---|
| Slices.CeilDivIsLeast | src/NzbCheck.cpp:57-62 | rounding up gives the least number of blocks that holds the bytes |
| Slices.SaturatedAddIsSaturatedSum | src/NzbCheck.cpp:64-68 | a chain of saturated additions of non-negative numbers is the saturation of their sum, whatever the order |
| Slices.BytesFitTheirSlices | src/NzbCheck.cpp:643-660 | pigeonhole: any set of n bytes of a file touches at least n / blockSize slices, rounded up |
| Slices.IntervalTouchesAtMost | src/NzbCheck.cpp:70-76 | an article of L bytes, wherever it starts, touches no more slices than maxBlocksTouched says |
| Slices.MaxBlocksTouchedIsReached | src/NzbCheck.cpp:70-76 | that bound is tight: the last byte of a slice is a start that reaches it |
| Slices.TouchedWithinFile | src/NzbCheck.cpp:662-666 | lost bytes of a file never touch more slices than the file has |
| Parsing.ReadSegmentsIs | src/NzbCheck.cpp:390-432 | malformed ids are left out and the others are taken in one after the other, into their stack, the index and the bounds of their file |
| Parsing.ParsedAccounts | src/NzbCheck.cpp:280-441 | after parsing a document without a repeated id, every counter agrees with it and each stack holds each of its articles exactly once |
| NzbChecking.NzbCheck.ParseNzb | src/NzbCheck.cpp:280-441 | the two nested loops leave exactly the state that the document calls for |
| NzbChecking.NzbCheck.ReadFile | src/NzbCheck.cpp:292-432 | one file element: its segments taken in, absent articles counted as lost, contradictory bounds marked |
| NzbChecking.NzbCheck.TotalRecoveryBlocks | src/NzbCheck.cpp:560-566 | the saturating loop returns the clipped saturation of the sum of all blocks |
| NzbChecking.NzbCheck.UsableBlockRange | src/NzbCheck.cpp:573-592 | blocks of intact volumes at least, of volumes with an article left at most |
| NzbChecking.NzbCheck.HasIntactPar2Index | src/NzbCheck.cpp:602-613 | true exactly when some base file, not a volume, is intact |
| NzbChecking.FileDamage | src/NzbCheck.cpp:636-681 | the least and most slices the losses of one file damage, from its own byte bounds |
| NzbChecking.SumDamage | src/NzbCheck.cpp:622-682 | both ends summed with saturation over the files, the losses attributed, and whether every loss sits in a file of known extent |
| NzbChecking.NzbCheck.DamagedBlockRange | src/NzbCheck.cpp:615-697 | the damage range, with -1 when nothing bounds it from above; `FileMeans` says what both ends are |
| NzbChecking.NzbCheck.RecoveryVerdict | src/NzbCheck.cpp:728-765 | the method returns the verdict that `VerdictIs` characterises |
| NzbChecking.NzbCheck.CheckStatus | src/NzbCheck.cpp:767-786 | the status, which is also the exit code |
| NzbChecking.NzbCheck.MissingArticle | src/NzbCheck.h:403-444 | the loss goes to the volume or data file that owns the article, or to none, and the early stop is weighed again |
| NzbChecking.NzbCheck.ReevaluateEarlyStop | src/NzbCheck.h:446-461 | it stops exactly on a verdict beyond repair, after the PAR2 phase, unless told to check everything |
| NzbChecking.NzbCheck.GetNextArticle | src/NzbCheck.h:463-496 | PAR2 articles first; data only once every PAR2 article is answered; the whole state after the call |
| NzbChecking.NzbCheck.RequeueArticle | src/NzbCheck.h:498-506 | an unanswered article goes back on top of its own stack |
| NzbChecking.NzbCheck.ArticleChecked | src/NzbCheck.h:518-526 | the answer is counted, and for its volume when it is a PAR2 article |
| NzbChecking.NzbCheck.LikelyUsableBlocks | src/NzbCheck.cpp:594-600 | the pro-rata estimates of the volumes, summed with saturation and clipped |
| NzbChecking.NzbCheck.TotalDataBlocks | src/NzbCheck.cpp:699-708 | the slices of all files, each rounded up on its own, or -1 when some size is unknown |
| Verdicts.VerdictIs | src/NzbCheck.cpp:728-765 | each of the answers holds if and only if the document and the replies call for it: favourable exactly when the worst damage fits in the blocks of unharmed volumes and some base file is unharmed, impossible exactly when the least damage exceeds what may be left, and so on |
| Verdicts.RangesAre | src/NzbCheck.cpp:573-697 | the ranges reported, of damaged slices and of blocks left, from the document and the replies |
| Verdicts.FileMeans | src/NzbCheck.cpp:636-681 | both bounds of a file from the document: the bytes that cannot be in the articles left, and the slices that lost articles of their sizes can touch |
| Verdicts.UnknownLossHasNoBound | src/NzbCheck.h:417-420 | an article of no file counts as lost data without an upper bound, which rules the favourable verdict out |
| Verdicts.TakenAtItsWordIff | src/NzbCheck.cpp:345-358 | the sizes of a file are believed unless it is listed whole, all of it sized, and too small to hold the file |
| Verdicts.SafeIsReached | src/NzbCheck.cpp:573-592 | no more blocks are certain than those counted: they may be all that survives |
| Estimates.LikelyIsBetween | src/NzbCheck.cpp:84-104 | the likely number of usable blocks never leaves the proved range, volume by volume and in total |
| Estimates.LikelyIsShare | src/NzbCheck.cpp:84-104 | for a damaged volume it is what the articles confirmed to be there are worth, rounded down, less one packet per missing article |
| Estimates.PostHasItsSlices | src/NzbCheck.cpp:699-708 | the slices of the post are those that the bytes of its files lie in, counted file by file |
| Estimates.DamageFitsInPost | src/NzbCheck.cpp:615-708 | a bounded damage is at least one slice and at most the slices of the post |
| Accounting.MissingIsCounted | src/NzbCheck.h:403-444 | if the counters are right for a set of lost articles, counting one more makes them right for the larger set |
| Accounting.AnswerIsCounted | src/NzbCheck.h:518-526 | the same for answered articles, so the counters never depend on the order of the answers |
| Recovery.LeastDamageHolds | src/NzbCheck.cpp:643-660 | in every layout a byte is lost for each missing part, and whatever does not fit in the other parts: the slices those bytes need are damaged |
| Recovery.FloorIsTrueIff | src/NzbCheck.cpp:640-659 | the byte floor of a fully sized file claims no more than what cannot fit in the articles not known to be gone, if and only if the two saturated sums can be subtracted |
| Recovery.FloorFitsSuffices | src/NzbCheck.cpp:636-661 | where they can, the lower bound of the file is never above its least damage |
| Recovery.FileLowHolds | src/NzbCheck.cpp:636-661 | for every layout the NZB allows, a lower bound that is not above the least damage never exceeds the slices truly damaged |
| Recovery.FileHighHolds | src/NzbCheck.cpp:662-681 | once every loss in it is known, the upper bound of a file is never below them |
| Recovery.DamageLowHolds | src/NzbCheck.cpp:615-697 | the same for the post, slices counted file by file and the sum not cut to an int |
| Recovery.DamageHighHolds | src/NzbCheck.cpp:615-697 | the upper bounds of the files add up to no less than the true damage once all losses are known, and so does the end of the range unless their sum exceeds the largest int |
| Recovery.BestCaseHolds | src/NzbCheck.cpp:573-592 | no more recovery packets survive than the best case counts |
| Recovery.GuaranteeHolds | src/NzbCheck.cpp:573-592 | and no fewer than the guaranteed count, when the answers are true |
| Recovery.FavourableIff | src/NzbCheck.cpp:745-760 | the comparison behind the favourable verdict holds of the uncut counts if and only if the guaranteed blocks do not reach the largest int with the bounds on the damage adding up to more; fewer guaranteed blocks than that int suffice |
| Recovery.UnrecoverableIsProof | src/NzbCheck.cpp:728-765 | a justified verdict beyond repair proves, for every truth the NZB allows, that more slices are damaged than recovery blocks survive |
| Recovery.VerdictIsJustified | src/NzbCheck.cpp:728-765 | it is justified whenever the byte sums of every file can be subtracted, whatever the block sums and clipped counts |
| Tightness.LeastLayoutLaysOut | src/NzbCheck.cpp:640-661 | if a file has a layout at all, it has one whose lost bytes are exactly its least loss, at its start |
| Tightness.FileLowHoldsIff | src/NzbCheck.cpp:636-661 | the lower bound of a file holds for every layout if and only if it is not above the least damage |
| Tightness.DamageLowHoldsIff | src/NzbCheck.cpp:615-697 | the same for the post |
| Tightness.UnrecoverableIsProofIff | src/NzbCheck.cpp:728-765 | a verdict beyond repair is a proof for every consistent truth if and only if it is justified |
| Recovery.ProbablyRecoverableIsProof | src/NzbCheck.cpp:728-765 | the favourable verdict of a completed check proves that the surviving blocks cover the damage, unless a cut made it favourable |
| EarlyStop.VerdictIsFinal | src/NzbCheck.h:446-461 | a post found beyond repair stays beyond repair under every further loss, saturated sums included |
| EarlyStop.StoppingKeepsTheAnswer | src/NzbCheck.cpp:767-786 | a stopped run and a finished one that found at least the same losses have the same status |
| CheckLimits.ClippingMisleads | src/NzbCheck.cpp:754 | a consistent post with 2^31 damaged slices and 2^31-1 blocks is called probably recoverable |
| CheckLimits.SaturationMisleads | src/NzbCheck.cpp:655-658 | a file of ten bytes that lost one is called damaged in ten slices, because two encoded sizes saturate |
| NntpCheckConnection.NntpCheckCon.TakeArticle | src/NntpCheckCon.cpp:404-421 | the loop skips ids the serialiser refuses, counting them lost, until an article can be sent or none is left |
| NntpCheckConnection.StatIsOneCommand | src/NntpCheckCon.cpp:404-421 | an id is accepted if and only if it is a bracketed one of section 3.6 of RFC 3977, and then becomes one command line that nothing in it can break |
| NntpCheckConnection.NntpCheckCon.CheckNextArticle | src/NntpCheckCon.cpp:399-446 | ask, wait for the PAR2 phase, or close: the new state of the connection and of the check |
| NntpCheckConnection.NntpCheckCon.FinishOrRetry | src/NntpCheckCon.cpp:254-276 | the article in flight is handed back, and the connection retries within its budget or ends |
| NntpCheckConnection.NntpCheckCon.OnLine | src/NntpCheckCon.cpp:278-367 | greeting, authentication and answers, in every posting state, as long as the socket is connected |
| NntpCheckConnection.NntpCheckCon.OnWatchdogTimeout | src/NntpCheckCon.cpp:230-252 | silence ends the transport and hands the article back |
| NntpCheckConnection.NntpCheckCon.OnErrors | src/NntpCheckCon.cpp:379-397 | an error closes a connected socket and gives up one that never connected |
| CheckSafety.NextKeepsCore | src/NzbCheck.h:463-496 | what comes off a stack was in no other place, and data only after all PAR2 answers |
| CheckSafety.RequeueKeepsCore | src/NzbCheck.h:498-506 | handing an article back moves it from its connection to its stack and changes nothing else |
| CheckSafety.AnswerKeepsCore | src/NntpCheckCon.cpp:288-296 | an answer moves the article from its connection to the answered ones for good |
| CheckSteps.HandleKeeps | src/NntpCheckCon.cpp:219-446 | every event that does not make a connection ask while it holds an article keeps the accounting, the order and every article |
| CheckSteps.OverwritingLoses | src/NntpCheckCon.cpp:405-407 | every event that does loses that article: no stack, no connection and no answer has it |
| CheckTheorems.RunIsGood | src/NntpCheckCon.cpp:219-446 | the invariant holds in every state of every clean run of any number of connections |
| CheckTheorems.ArticlesAreConserved | src/NzbCheck.h:463-516 | stacks, articles in flight and answers partition the listed articles, and no two connections ask about the same one |
| CheckTheorems.AnswerIsNew | src/NntpCheckCon.cpp:288-296 | no article is answered twice |
| CheckTheorems.Par2ComesFirst | src/NzbCheck.h:468-495 | while a PAR2 article is unanswered, no connection holds a data article and none was answered |
| CheckTheorems.CompleteIff | src/NzbCheck.cpp:767-786 | the status is Complete if and only if every listed article was answered, none with 430, and none was absent from the NZB |
| CheckTheorems.UnrecoverableRunIsProof | src/NzbCheck.cpp:767-786 | in any state of a run against a truthful server, a justified status Unrecoverable is a proof, early stop or not |
| CheckTheorems.RecoverableRunIsProof | src/NzbCheck.cpp:745-760 | once all articles are answered, ProbablyRecoverable is a proof that the surviving blocks suffice, unless a cut made it favourable, and that a whole base file is on the server |
| CheckTheorems.EarlyStopIsHarmless | src/NzbCheck.h:446-461 | a run that stopped and a run of the same post on the same server that asked about everything report the same status; a full check never stops |
| CheckTheorems.InconclusiveIff | src/NzbCheck.cpp:769-776 | the check is inconclusive if and only if it could not be attempted, or was not stopped and an article still waits or is in flight |
| CheckTheorems.UnrecoverableIff | src/NzbCheck.cpp:767-786 | the status is Unrecoverable if and only if the verdict is beyond repair and the run was stopped or has every answer |
| CheckTheorems.StoppedIff | src/NzbCheck.h:446-461 | in every state of a run, it is stopped if and only if the PAR2 phase is over, the post beyond repair and a full check not asked for |
| CheckTheorems.RunAnswerIs | src/NzbCheck.cpp:728-765 | in every state of a run the verdict is the one the document and the replies so far call for, and a favourable one has seen an intact base file |
| CheckTheorems.HonestRunTells | src/NntpCheckCon.cpp:288-291 | if every reply to STAT is true, the check knows of each answered article whether it is lost |
| CheckSteps.NothingToRefuse | src/NntpCheckCon.cpp:404-421 | the branch that refuses a malformed id is never taken after parsing |
| CheckPolls.QuietRunsAreClean | src/NntpCheckCon.cpp:429-437 | if no connection loses its transport while it waits, none ever asks for an article while it holds one |
| CheckPolls.EveryQuietCheckIsGood | src/NntpCheckCon.cpp:219-446 | from any document without a repeated id, every state of every such run satisfies the invariant |
| CheckPolls.StepConservesIff | src/NntpCheckCon.cpp:405-437 | a step keeps every article if and only if it does not make a connection ask for one while it holds another |
| CheckPolls.StartsTwiceIff | src/NntpCheckCon.cpp:254-276 | a connection about to start again is told to start once more if and only if a leftover timer fires there with nothing to hand out before the PAR2 answers, no wait left and a try left |
| CheckPolls.QuietRunsStartOnce | src/NntpCheckCon.cpp:254-276 | no connection of such a run is ever told to start twice |
| CheckProgress.RequeuedComesNext | src/NzbCheck.h:498-506 | an article handed back is the next one handed out |
| CheckProgress.NothingToHandOutIff | src/NzbCheck.h:463-496 | nothing is handed out if and only if the check was stopped, nothing is left, or the data still has to wait |
| CheckProgress.AsksIff | src/NntpCheckCon.cpp:399-446 | with an article the connection asks, watched; with none it waits if and only if data is held back and its waits last, and closes otherwise |
| CheckProgress.UnaskedLineIsIgnored | src/NntpCheckCon.cpp:278-367 | a line nobody asked for only disarms the watchdog |
| CheckProgress.OpensIff | src/NntpCheckCon.cpp:71-217 | a start opens a watched transport unless refused; connected, and encrypted if need be, it awaits the greeting |
| CheckProgress.LosesIff | src/NntpCheckCon.cpp:219-276 | a transport lost or silent hands its article back and is tried again if and only if articles and tries are left; an error closes a connected one first |
| CheckProgress.LoginIff | src/NntpCheckCon.cpp:297-362 | while it logs in, a connection goes on, is refused, or asks, if and only if the reply and its identity say so |
| CheckProgress.NeverSilent | src/NntpCheckCon.cpp:230-252 | in every state of every run, a connection that is not over has its start queued, its close under way, its watchdog armed or a timer set |
| CheckProgress.GivesUpIff | src/NntpCheckCon.cpp:254-276 | a reply gives the whole budget back; a lost transport costs one try if articles and tries are left, and ends the connection only if not |
| CheckProgress.BudgetIsPerIncident | src/NntpCheckCon.cpp:254-296 | on every quiet run, the tries used are the restarts since the last reply |
| StalePoll.StalePollLosesArticle | src/NntpCheckCon.cpp:437 | twelve steps of two connections after which the only PAR2 article of a post is nowhere |
| StalePoll.StartsWithOnePar2Article | src/NzbCheck.cpp:280-441 | every document with one PAR2 article and some data starts in the state that run needs |
| CheckEnd.RunsEnd | src/NntpCheckCon.cpp:219-446 | from any state, no run of effective events is longer than the measure of that state: transports lost at any moment, timers left over and articles they lose included, although an answer gives its connection its retries back |
| CheckEnd.StuckIffFinished | src/NntpCheckCon.cpp:254-276 | nothing more can happen to a connection if and only if it was reported as finished and no timer of it is left |
| EndlessWait.LosingRunWaits | src/NntpCheckCon.cpp:429-437 | fifteen steps from the start of a check lead to a state in which every connection waits for a PAR2 article nobody will ask about |
| EndlessWait.OnlyTimersAreLeft | src/NntpCheckCon.cpp:429-437 | in such a state no reply is owed and no watchdog is armed: unless a transport fails, only the timers fire |
| EndlessWait.WaitsForEver | src/NntpCheckCon.cpp:429-430 | with a bound the 16-bit counter cannot reach, they fire in any order and any number of times and every connection still waits |
| SliceReading.SliceReader.ReadNextArticle | src/PostingJob.cpp:1548-1625 | the loop ends and hands out exactly the next slice of those still to come, or reports the end when there is none, with every unreadable file noted |
| SliceReading.ResumeTiles | src/PostingJob.cpp:1593-1622 | each part of a resumed file either was posted before and is not read again, or gets exactly one slice with exactly its bytes, and the parts tile the file |
| SliceReading.SlicesAreParts | src/PostingJob.cpp:1583-1614 | part k is read at (k-1) times the article size |
| SliceReading.SlicesAreOrdered | src/PostingJob.cpp:1583-1614 | slices come in the order of their parts, none twice |
| SliceReading.FreshPostIsWholeFile | src/PostingJob.cpp:1548-1625 | without a resume, the slices of a file joined are the file |
| SliceReading.EachFileHasItsOwn | src/PostingJob.cpp:1548-1625 | among all slices of the post, those of a readable file are its own, and an unreadable file has none |
| SliceReading.FilesInTurn | src/PostingJob.cpp:1548-1625 | the files come in the order of the queue |
| SliceReading.PostTiles | src/PostingJob.cpp:1548-1625 | over the whole post, every part of a readable file that is not posted yet is read exactly once with exactly its bytes, and nothing else is |
| Pipeline.EveryArticleInOnePlace | src/Poster.cpp:66-110 | on every interleaving, each slice read is in one builder's hands, one queue, held by one connection, posted or failed, and there once |
| Pipeline.StepKeepsInv | src/ArticleBuilder.cpp:46-93 | every step keeps the locks exclusive, the in-progress flag right and every article |
| Pipeline.NeverStuck | src/ArticleBuilder.cpp:66-93 | no deadlock: from every thread at work, the chain of what it waits for ends, after two links at most, in a thread that can move |
| Pipeline.StaysSureIff | src/Poster.cpp:79-84 | a step leaves every connection right about what the flag told it, if and only if it is not a pause that ends between the loop and the test behind it |
| Pipeline.RunsStaySure | src/Poster.cpp:79-84 | a run from the start without such a step leaves every connection right about it |
| Pipeline.NullMeansDone | src/Poster.cpp:66-110 | without such a step, a connection that leaves with nothing outside pause and stop leaves only when every slice is read, the queue is empty and no build is in flight |
| Pipeline.WaitsIff | src/Poster.cpp:70-84 | a connection is turned away if and only if paused or stopped, and sleeps if and only if its queue is empty while its builder has an article in flight |
| Pipeline.DecidesToServe | src/Poster.cpp:86-104 | while slices are left it is given the head of the queue, or goes on to build an article itself |
| Pipeline.FallbackServes | src/ArticleBuilder.cpp:66-93 | building goes on stage by stage, reads the next slice if one is left, and gives the connection exactly that article |
| Pipeline.OthersLeaveIt | src/ArticleBuilder.cpp:46-93 | no other step moves a connection, but for waking it: when its builder hands an article over, or of itself |
| Pipeline.QueuesAreInOrder | src/Poster.cpp:66-110 | on every run, each queue holds its articles in the order of their slices, so the oldest is given first |
| Pipeline.OutcomeCounts | src/Poster.cpp:66-110 | what a connection held is posted or failed as its outcome says |
| Pipeline.FlickerIsWrong | src/Poster.cpp:79-104 | after such a step, the connection it caught is next told that nothing is left, or builds an article itself, while its builder has one in flight |
| Pipeline.FlagExcludes | src/Poster.cpp:80-104 | the flag alone keeps a connection that builds its own article out of its builder's way |
| Pipeline.FlickerMisleads | src/Poster.cpp:79-84 | a run from the start after which a connection is told there is nothing left while its article is being built |
| Posting.HandleKeeps | src/NntpConnection.cpp:208-707 | every event of a connection keeps every promise its log makes |
| Posting.RunsKeepPromises | src/NntpConnection.cpp:208-707 | so does every run |
| Posting.AmbiguousIsMarked | src/NntpConnection.cpp:231-250 | a body that was written and not answered is marked unknown under the identifier it was written with, once its transport is gone |
| Posting.NextBodyComesAfter | src/NntpConnection.cpp:453-465 | and before any other body is written; a later body of the same article has another identifier |
| Posting.MarkedOncePerAttempt | src/NntpConnection.cpp:236-243 | between two marks there is a new attempt |
| Posting.OneOutcome | src/NntpConnection.cpp:487-554 | each article is reported posted or failed at most once |
| Posting.PostedAfterAccept | src/NntpConnection.cpp:489-524 | at any point of a run, an article is reported posted only right after a 240, and to a body of its own that was pending |
| Posting.FailedAfterLastTry | src/NntpConnection.cpp:524-550 | an article is reported failed only right after a reply other than 240 to a body of its own, and only once as many bodies were written as it has tries |
| Posting.RunsAreFair | src/NntpConnection.cpp:487-554 | the logs of all runs are such logs, and the tries of an article are the bodies written of it |
| Posting.AnswerDecides | src/NntpConnection.cpp:487-554 | posted if and only if 240, failed if and only if refused with its tries used up, and otherwise kept, to be posted again under an identifier it never had; once settled, the next article is sent |
| Posting.PermissionIffWritten | src/NntpConnection.cpp:453-485 | the body is written if and only if the server answers 340; otherwise the connection closes and keeps the article |
| Posting.NothingIsDropped | src/NntpConnection.cpp:208-707 | on every run, each article taken is in hand or has its outcome |
| Posting.LoginIff | src/NntpConnection.cpp:556-674 | a connection asks for work if and only if its login is over, and is refused if and only if a reply or its identity is wrong |
| Posting.UnaskedLineIsIgnored | src/NntpConnection.cpp:425-451 | a line nobody asked for changes nothing |
| Posting.OpensIff | src/NntpConnection.cpp:92-171 | a transport is opened if and only if there is none, the post is not paused and the VPN does not refuse |
| Posting.LosesIff | src/NntpConnection.cpp:173-356 | however a transport is lost, the article stays in hand, marked once under the identifier of its attempt and given a fresh one |
| Posting.SendsNextIff | src/NntpConnection.cpp:676-707 | outside a pause the article in hand is sent first, then the next one; the connection closes if and only if there is none |
| Posting.LossCountsIff | src/NntpConnection.cpp:317-338 | a lost transport counts against the connection if and only if it is to be used again |
| NntpPostingConnection.NntpConnection.PreserveCurrentArticle | src/NntpConnection.cpp:231-250 | marks once, then replaces the identifier and keeps the article |
| NntpPostingConnection.NntpConnection.SendNextArticle | src/NntpConnection.cpp:676-707 | a retained article is sent again, a pause holds back, nothing left closes the connection |
| NntpPostingConnection.NntpConnection.HandlePostResponse | src/NntpConnection.cpp:453-485 | 340 opens a new attempt; anything else closes the connection and keeps the article |
| NntpPostingConnection.NntpConnection.HandleArticleResponse | src/NntpConnection.cpp:487-554 | 240 settles, another reply buys a try with a fresh identifier or fails the article for good: the step `AnswerDecides` is about |
| NntpPostingConnection.NntpConnection.OnReadLine | src/NntpConnection.cpp:425-463 | every reply in every posting state |
| NntpPostingConnection.NntpConnection.OnDisconnected | src/NntpConnection.cpp:317-356 | both ways out of a lost transport keep and mark the article |
| Scheduler.NextKeeps | src/NgPost.cpp:2243-2421 | every event keeps the queue's invariant, whatever the VPN admits |
| Scheduler.PackedAheadIsHeadAndTransfersAreSingle | src/NgPost.cpp:2371-2421 | the job packed ahead is always the head of the queue, and no job is transferred twice |
| Scheduler.NextActiveIsThePackedOne | src/NgPost.cpp:2417-2418 | the branch that logs a different packing job is unreachable, and dropping the head drops that job |
| Scheduler.PackingDoneStartsNothing | src/NgPost.cpp:2258-2268 | what onPackingDone finds packed and not started is cancelled, so it starts no transfer |
| Scheduler.OnePackingAtATime | src/NgPost.cpp:2407-2416 | when the VPN always admits, at most one job is being packed in every reachable state |
| Scheduler.StepKeepsOneBusyIff | src/NgPost.cpp:2279-2421 | from at most one, a step leads to two jobs that pack if and only if it admits a job past a head that is packing, or fills the place ahead while the active job packs |
| Scheduler.RunsKeepOneBusy | src/NgPost.cpp:2279-2421 | a run without such steps never packs two jobs at once, whatever the VPN admits |
| Scheduler.TwoPackings | src/NgPost.cpp:5831-5852 | nine events lead to two by overtaking |
| Scheduler.TwoPackingsByRefill | src/NgPost.cpp:2352-2360 | thirteen lead to two by filling the place ahead |
| QueueProgress.ResumeGoesOn | src/NgPost.cpp:1859-1905 | a resume ends the pause unless the active job stays paused; with none active the head takes over; with a packed one the head is packed ahead |
| QueueProgress.FinishGoesOn | src/NgPost.cpp:2290-2369 | the end of the active job lets the head of the queue take over |
| QueueProgress.VpnLetsGo | src/NgPost.cpp:2371-2421 | what the VPN held back starts once it is connected |
| QueueProgress.TakingOverMakesRoom | src/NgPost.cpp:2392-2421 | a job that takes over with no packing left to do has the next one packed ahead; one that still has to pack has not |
| QueueProgress.PackedMakesRoom | src/NgPost.cpp:2243-2277 | once the active job is packed the head is packed ahead |
| QueueProgress.EndedMakesRoom | src/NgPost.cpp:2352-2360 | so is the next one when the job packed ahead ends before its turn |
| QueueProgress.SubmitIff | src/NgPost.cpp:5784-5852 | started at once, queued last or turned away, and exactly when |
| QueueProgress.JobGoesOn | src/PostingJob.cpp:799-930 | where the start, the packing, the transfer and a cancellation lead a job |
| QueueProgress.LastEndsBoth | src/NgPost.cpp:2290-2369 | with the last job gone, and not before, the pause and the cancellation are over |
| QueueProgress.FlagsIff | src/NgPost.cpp:1847-1857 | when a pause and a cancellation take effect |
| QueueProgress.InOrder | src/NgPost.cpp:2371-2421 | a job becomes active only as the head of the queue or at its submission, and those that wait keep their order |
| QueueProgress.NeverStalls | src/NgPost.cpp:2243-2421 | on every run, an event that takes the active job further is due; and if the VPN admits, one is active whenever one waits and the queue may start it |
| PostingJobQueue.PostingQueue.StartNextPostingJob | src/NgPost.cpp:2371-2421 | the head becomes active, posted if packed, started if not, and the next one is packed |
| PostingJobQueue.PostingQueue.StartPostingJob | src/NgPost.cpp:5784-5852 | a job is started, queued, or discarded: while everything is being cancelled, or blocked with no window |
| PostingJobQueue.PostingQueue.OnPostingJobFinished | src/NgPost.cpp:2290-2369 | active, packed ahead or pending: the ended job leaves its place and the next one moves up |
| PostingJobQueue.PostingQueue.OnPackingDone | src/NgPost.cpp:2243-2277 | the next job is packed once the active one is |
| PostingJobQueue.PostingQueue.Resume | src/NgPost.cpp:1859-1905 | the queue goes on, waits for the VPN, or stays paused: the step `ResumeGoesOn` is about |
| Pausing.PausedQueueIsTheUsers | src/PostingJob.cpp:573-641 | from the start, through any events, the user's included, an active job of a paused queue is paused for the user and for no other reason |
| Pausing.OnlyTheUserEndsAUserPause | src/PostingJob.cpp:573-641 | through any number of backoff timeouts, VPN events and further pauses, a user pause ends only by the user or with the job, and a paused queue stays paused |
| Pausing.PausedQueueStartsNothing | src/NgPost.cpp:2371-2421 | a queue paused between two jobs starts none, whatever happens, until the user ends the pause |
| Pausing.BackoffResumesIff | src/PostingJob.cpp:765-776 | a backoff timeout resumes the post if and only if the backoff is still its only reason to pause and it is not being cancelled |
| Pausing.ConnectionsAreKept | src/PostingJob.cpp:607-625 | no pause, swap or resume loses or doubles a connection, and a resumed post has connections again |
| Pausing.PausesCommute | src/PostingJob.cpp:573-583 | the reason kept does not depend on the order of the pauses |
| Pausing.PauseTakesHigher | src/PostingJob.cpp:573-605 | a pause leaves the job paused for the higher of the two reasons |
| Pausing.EventsPause | src/PostingJob.cpp:585-605 | every event that calls for a pause makes one |
| Pausing.UserResumesIff | src/NgPost.cpp:1859-1905 | a user's resume runs the active job if and only if it does not have to wait for the VPN, and otherwise leaves it waiting or paused |
| Pausing.UserResumesQueue | src/NgPost.cpp:1859-1905 | with no paused job it ends the pause of the queue alone |
| Pausing.VpnResumesIff | src/PostingJob.cpp:627-641 | a VPN that is back resumes exactly what was paused for it |
| Pausing.ConnectionsComeBack | src/PostingJob.cpp:765-776 | a connection that ends is set aside; the backoff timer brings all back if and only if the backoff is the reason to pause |
| Pausing.NextJobRunsIff | src/NgPost.cpp:2290-2369 | the next job runs unless the queue is paused or being cancelled; both end with the last job |
| Pausing.PostingPause.Pause | src/PostingJob.cpp:585-605 | reasons merge by rank, and the backoff timer stops when outranked |
| Pausing.PostingPause.Resume | src/PostingJob.cpp:607-625 | the pause ends and the connections set aside come back when none is in use |
| Pausing.PostingPause.ResumeIfPausedFor | src/PostingJob.cpp:627-633 | it resumes exactly a job paused for that reason |
| ConfigText.MatchesIffParsed | src/NgPost.cpp:4024-4031 | the line the editors take for the line of a key is exactly the one that gives the parser its value, for every key the parser can report |
| ConfigText.WrittenIsRead | src/NgPost.cpp:4027-4036 | a line in the form the editors write is read back as the pair written, and looks like a section exactly when its key starts with a bracket |
| ConfigText.ExampleIsCommentedLine | src/NgPost.cpp:4031-4034 | a line is an example of a key if and only if it is a line of the key commented out |
| ConfigEdit.SetTopLevelValue | src/NgPost.cpp:4004-4050 | on any text: the settings afterwards are the old ones with this one set, unless the key is set again behind its first line; sections and other keys are untouched (for a key that looks like a section, when its line comes last); and the value stands on its line, under its example, or at the end of what is kept under the header |
| ConfigEdit.RemoveTopLevelLine | src/NgPost.cpp:4054-4070 | on any text: exactly the lines of the key above the sections are gone, and with them the setting, unless a section still sets it |
| ConfigEdit.LineBelongs | src/NgPost.cpp:3943-3985 | a line belongs to the last block above it if and only if that block knows its key; any other line with a key is a setting |
| ConfigEdit.CommentedBlockEndsSettings | src/NgPost.cpp:4014-4018 | a block that is commented out ends the settings as well |
| ConfigEdit.TwoLinesRepeat | src/NgPost.cpp:6117-6118 | with one key on two lines the last counts, and the key is one whose edit is lost |
| ConfigMerge.MergeExternalConfigEdits | src/NgPost.cpp:4131-4263 | for any file, the settings of the merged text, the belief kept for the next save and what ngPost holds afterwards are the ones the three sides call for; without a file read before, or readable now, nothing changes |
| ConfigMerge.ConfigFile.SaveConfig | src/NgPost.cpp:6448-6518 | the file, the belief and what ngPost holds after a save |
| ConfigMerge.MergeIsThreeWayIff | src/NgPost.cpp:4148-4222 | that is the three-way merge in which memory wins conflicts, setting by setting, outside exactly five cases, empty values included |
| ConfigMerge.MergeExceptions | src/NgPost.cpp:4148-4222 | one concrete case of each |
| ConfigMerge.MemoryWinsConflictsIff | src/NgPost.cpp:4177-4184 | when both sides hold a setting and changed it differently, ngPost's value is saved if and only if the setting was in the file before or is written on two lines |
| ConfigMerge.HeldIff | src/NgPost.cpp:4177-4222 | ngPost takes a value from the file, or drops one, if and only if only the file changed and it can do so while running |
| ConfigMerge.ServerLinesGo | src/NgPost.cpp:4160-4164 | a server key above the blocks is never taken from the file, and goes |
| ConfigMerge.BelievesWhatItHolds | src/NgPost.cpp:4131-4263 | the belief for the next save is what ngPost holds of the settings it knows, and what the file says of the others |
| ConfigMerge.SecondSaveChangesNothing | src/NgPost.cpp:4131-4263 | with a setting in hand that cannot be cleared, as the writer always has, a second save with no change in between changes neither the file, unknown settings and those kept for a restart included, nor what ngPost holds or believes |
| ConfigMerge.SecondSaveChangesNothingIff | src/NgPost.cpp:4131-4263 | with any settings in hand that holds if and only if ngPost had something to write or the file is empty |
| FolderMonitor.Round | src/FoldersMonitorForNewFiles.cpp:155-204 | the backward loop samples every pending entry exactly once, whatever it removes |
| FolderMonitor.RoundPlacesEach | src/FoldersMonitorForNewFiles.cpp:159-203 | an entry that is there is reported if and only if its new sample makes as many equal ones as are asked for, and stays with that sample otherwise |
| FolderMonitor.RoundInventsNone | src/FoldersMonitorForNewFiles.cpp:159-203 | nothing else is in either list, and every entry found is in exactly one of them |
| FolderMonitor.EverySettledPathIsReported | src/FoldersMonitorForNewFiles.cpp:143-204 | a path that keeps its size and time for as many rounds as are asked for is reported |
| FolderMonitor.NoneIsReportedTwice | src/FoldersMonitorForNewFiles.cpp:143-204 | no entry is reported more than once in a scan |
| FolderMonitor.ReportedIsStable | src/FoldersMonitorForNewFiles.cpp:170-181 | a round keeps the count of equal samples right and reports only paths that reached it |
| FolderMonitor.EveryReportIsStable | src/FoldersMonitorForNewFiles.cpp:143-204 | from the first samples on, over any rounds, every path reported was seen unchanged in that many consecutive ones |
| FolderMonitor.StepKeepsInvIff | src/FoldersMonitorForNewFiles.cpp:90-265 | a step keeps ngPost's own files out of reach if and only if it neither renames one to a name being sampled nor drops the only protection of one |
| FolderMonitor.OwnRenamesAreNeverPosted | src/FoldersMonitorForNewFiles.cpp:90-265 | on every interleaving with the scans without such steps, a file ngPost renamed itself is never reported while it is there |
| FolderMonitor.ReservationsAreSpent | src/FoldersMonitorForNewFiles.cpp:207-215 | whatever happens while a scan runs, no reservation of a name that was there when it started outlives it |
| FolderMonitor.DropsAreReported | src/FoldersMonitorForNewFiles.cpp:90-216 | a file that the user drops under a new, unreserved name and then leaves alone has been reported once a scan that saw it is over, whatever else happens |
| FolderMonitor.StepLetsPostIff | src/FoldersMonitorForNewFiles.cpp:90-265 | after a step the monitor alone can go on to report a file of ngPost's own if and only if it is one of those two |
| FolderMonitor.ScanIff | src/FoldersMonitorForNewFiles.cpp:97-216 | a scan looks at exactly what is new, passes a reserved name over once, samples what is there, and reports only after it has looked at everything |
| FolderMonitor.ReservedIff | src/PostingJob.cpp:87-131 | a name is reserved when ngPost puts a file there, and free again when the file leaves or never came |
| FolderMonitor.RenameUnderSamplingIsPosted | src/FoldersMonitorForNewFiles.cpp:155-204 | from an empty folder, five steps lead to the report of a file renamed to a name being sampled |
| FolderMonitor.LostReservationIsPosted | src/PostingJob.cpp:96-120 | and four to that of a file whose reservation another job's failed restore has released |
| FolderMonitor.Reservations.ReleaseSpentReservations | src/FoldersMonitorForNewFiles.cpp:230-251 | exactly the reservations of the folder's direct children that the scan saw are dropped |
| HistoryQueue.ExactlyOnceInOrder | src/history/PostHistoryService.cpp:276-302 | through any failures, retries and reconfigurations, applied events followed by pending ones are the accepted ones, in order, each for the database it was accepted for, and whoever flushes first sees them all |
| HistoryQueue.AcceptsWhatIsOffered | src/history/PostHistoryService.cpp:276-283 | the events accepted are exactly those offered that name a file and a part, in order |
| HistoryQueue.FlushesIff | src/history/PostHistoryService.cpp:276-302 | a timer, a retry and a full batch flush everything if and only if the store applies it |
| HistoryQueue.RetryIsDueIff | src/history/PostHistoryService.cpp:519-552 | a retry is due if and only if a batch failed on a busy database and it has not fired since |
| HistoryQueue.BlockingSucceedsIff | src/history/PostHistoryService.cpp:285-302 | the blocking flush succeeds if and only if some attempt applies and the database was busy at each before |
| HistoryQueue.OperationRunsIff | src/history/PostHistoryService.cpp:176-188 | an operation runs, and a database is taken, if and only if that flush succeeds |
| HistoryQueue.BatchSizeIsTheLatest | src/history/PostHistoryService.cpp:553-564 | a batch is as large as was asked for last |
| HistoryQueue.PostHistoryWorker.FlushArticleEventsOnce | src/history/PostHistoryService.cpp:519-552 | a batch is applied whole, or put back in front whole |
| HistoryQueue.PostHistoryWorker.FlushArticleEventsBlocking | src/history/PostHistoryService.cpp:285-302 | it goes on while the database is busy, and succeeds only with an empty queue |
| HistoryQueue.PostHistoryWorker.EnqueueArticleEvent | src/history/PostHistoryService.cpp:276-283 | an event without a file or part is ignored; a full batch is flushed unless a retry is due |
| HistoryQueue.PostHistoryWorker.Configure | src/history/PostHistoryService.cpp:100-108 | the database changes only once every earlier event is applied |
| HistoryQueue.PostHistoryWorker.FlushThen | src/history/PostHistoryService.cpp:176-188 | an operation that flushes first runs only with an empty queue |
| SegmentSizes.InferFullArticleBytes | src/history/NzbHistoryRegenerator.cpp:49-78 | the loop and the preferences between history, hint and settings |
| SegmentSizes.InferenceConserves | src/history/NzbHistoryRegenerator.cpp:49-110 | for a file really cut with a size no recorded article exceeds, the inferred segments are positive and add up to the file |
| SegmentSizes.InferredIsPlausible | src/history/NzbHistoryRegenerator.cpp:37-78 | and the inferred size is plausible, whatever the hint and the settings |
| SegmentSizes.LargestCandidateIsTaken | src/history/NzbHistoryRegenerator.cpp:49-78 | the result is the largest of the sizes on record, the least that covers the file, and a plausible hint or setting |
| SegmentSizes.SegmentIs | src/history/NzbHistoryRegenerator.cpp:94-110 | every part has the full size, and the last one of a known file what the others leave |
| SegmentSizes.ConservesIff | src/history/NzbHistoryRegenerator.cpp:94-110 | segments add up to a file of several parts if and only if the full size leaves something for the last |
| SegmentSizes.FullArticleDecides | src/history/NzbHistoryRegenerator.cpp:61-72 | one article recorded at its full size decides, unless the hint or the settings offer a larger one |
| OutputCapture.BoundedOutput.Append | src/PostCmdRunner.cpp:40-52 | however the stream is cut into chunks, what is kept is a function of the stream |
| OutputCapture.TailAppend | src/PostCmdRunner.cpp:40-52 | appending a chunk keeps the first 2048 bytes and the last 2048 of the rest |
| OutputCapture.KeptIsStreamWithGap | src/PostCmdRunner.cpp:54-68 | memory is bounded, and head, exactly the omitted count of bytes, and tail are the stream; nothing is omitted up to 4096 bytes |

## Left out

- Sockets, TLS, DNS, VPN tunnels, processes, SQLite and file I/O are events or parameters. A
  read of a file returns as many bytes as were asked for until its end.
- NntpCheckConnection.NntpCheckCon.FinishOrRetry: a second start queued by a stray timer merges with the first, so the socket the source would leak is not modelled; `StartsTwiceIff` says when that happens, and `QuietRunsStartOnce` that no quiet run gets there.
- CheckTheorems.RunIsGood: clean runs only; `StepConservesIff` says what that excludes and `QuietRunsAreClean` which runs are.
- CheckEnd.RunsEnd: lines nobody asked for are excluded, and so are repeated errors and refusals of a connection that is closing already. A bound of 65536 or more is the case of `WaitsForEver`.
- Recovery.UnrecoverableIsProof: assumes that Message-IDs are distinct, announced sizes and part counts true, payloads no longer than their encoded bodies, and every data file covered by the PAR2 set.
- Recovery.FavourableIff: the exact condition is on the check's own bounds; which posts make the upper bounds themselves too large is not characterised.
- Recovery.ProbablyRecoverableIsProof: does not say that the vital packets survive, since STAT cannot tell.
- Posting.AmbiguousIsMarked: a mark can also be made for an article whose body was not written since it was taken, or was refused; the source over-marks there, and the model with it.
- Posting.HandleKeeps: articles handed out are new to the connection, which is what `EveryArticleInOnePlace` gives.
- NzbChecking.NzbCheck.TotalDataBlocks: whether every subject announced a size is a parameter, since a size of zero and none at all are the same to the rest of the model.
- Pipeline.EveryArticleInOnePlace: posters are values and a step is a function of the state, because what matters is the order in which threads run; update in place is not shown. Safety only. When the last connection closes with nothing left while an earlier one still holds an article, the job does not end.
- Scheduler.NextKeeps: packing ahead is on (`_preparePacking`); without it the place ahead is never filled. The bulk deletions that leave the packing job untouched (closing all jobs or all monitoring jobs, the drain of the queue on a VPN failure without a window) are outside the model.
- Pausing.OnlyTheUserEndsAUserPause: the queue's side of a pause is a value, the job's is a class; a pause asked for with no job at all is accepted. The network-accessibility handler of Qt versions before 5.15 built without a timeout is not modelled.
- ConfigMerge.MergeExternalConfigEdits: the text is one ngPost writes, with nothing but the servers and profiles below the first section and no example of a key that looks like one (`Written`); the file may hold anything. The messages it logs are left out.
- ConfigMerge.ConfigFile.SaveConfig: which values ngPost can adopt is a parameter, and the writer is assumed to write what ngPost holds.
- ConfigText.MatchesIffParsed: letters outside ASCII have no case, and spaces outside ASCII are not trimmed.
- FolderMonitor.OwnRenamesAreNeverPosted: the folder is a value that two threads change in turn; reserving a name and renaming to it are one step, and so is a reservation whose rename fails; the Windows write-lock probe is left out.
- HistoryQueue.ExactlyOnceInOrder: the store applies a batch whole or not at all, and a worker that is stopped while its database fails drops what is pending.
- SegmentSizes.InferenceConserves: an exact size on record is used as it is.
- The slice size guessed from the article size and the text and JSON reports are not evidence for a verdict and are not modelled. Counters are unbounded integers except where the source saturates, clips or wraps them.
- The XML and the regular expressions of a subject are read as a list of files with their numbers.
- yEnc encoding, progress, translations, the GUI, command lines, tool paths and signal handling hold no property of this kind.
- Restoring obfuscated names, and the queue of commands after a post, are not modelled.
