# Verification of the functional test infrastructure

This project models the parts of the repository that carry real invariants and proves what
they promise.

- **The ARM machine market** (`TenderProtocol`, `TenderProgress`, `ContractChannel`). A client publishes a tender
  as a listening Unix socket and offers its contract to one connecting stream after another.
  The contractor at the far end of a stream may accept, reject, ignore, be late or die; once
  signed, it serves commands and commits or rolls back the disk of its machine. One tender with
  any number of contractors is a labelled transition system: streams are FIFO channels that
  either end may close, timeouts and broken connections are steps of their own, and a label that
  is not enabled changes nothing. `TenderProtocol` proves what holds of every run, `TenderProgress`
  what each step leads to and that orderly runs reach their ends.
- **The shared directory of sockets** (`SocketDirectory`): openers that publish a socket under a
  lock and scanners that connect to every name, interleaved, with deaths at any step.
- **Serving a contract** (`RunningSnapshot`) and **choosing one** (`ContractDistributor`), in the
  sequential form of the code.
- **The HTML event parser** (`HtmlDocument`, `HtmlParsing`, `HtmlParser`): a grammar of documents
  with its printer, the parser as a machine on values, and the parser over shared, mutable
  element objects.
- **The throttled update server** (`TokenBucket`, `RangeServer`), over exact real arithmetic.
- **The cleanup of artifacts** (`RateLimit`, `GradualCleanup`, `Directories`): who may clean up,
  what is deleted, and how the tree is listed. `StableSort` states what a stable sort promises.
- **Smaller cores**: putting lines together from chunks (`LineSplitting`), the sorted and grouped
  export of measurements (`ComparisonExport`), the commit cache (`CommitCache`), the replayed
  event queue (`EventQueue`), one-time passwords (`Totp`, after section 5.3 of RFC 4226 and
  section 4.2 of RFC 6238).

`dafny verify dfyconfig.toml` checks everything.

## Where the code does less than one might expect

- A byte range that reaches the end of the file is announced in `Content-Range` with the file
  size instead of the last position; `Content-Length` is right for every range that begins in
  the file (`RangeServer.ContentRangeIsHonest`, `RangeServer.ContentLengthIsHonest`).
- A range is not checked against the file: one that starts more than two positions after the end
  it is clipped to fails once the header is sent, and one that starts exactly two after it is
  announced with a negative length and served with all the rest of the file, in one chunk that is
  not throttled (`RangeServer.ReadData`, `RangeServer.MisfitRanges`).
- A server created without a rate fails on the first chunk, because its bucket holds nothing
  (`RangeServer.ReadData`).
- A window of time that starts while a call of the token bucket oversleeps may see more than one
  capacity above the rate; twice the capacity is a bound for every window
  (`TokenBucket.OverdueWindowBreaksTheBound`, `TokenBucket.AnyWindow`).
- The root of a parsed document keeps its own character data in its tail, never in its text,
  because only tags below the root mark an element as opened; a void tag at the top level becomes
  a root that must be closed; a later top-level element replaces an earlier root
  (`HtmlDocument.Root`, `HtmlParsing.TopLevelIsRebuilt`).
- Output of the test camera that arrives together with the end of the process is not looked at
  (`LineSplitting.WatchTestCamera`).
- The event queue accepts a log that agrees with the buffer but is cut short; if a wait times out
  on one shorter than what was returned, every later wait fails until a skip
  (`EventQueue.ShortLoadBreaksQueue`).
- An abbreviated SHA that several commits share resolves to the latest one cached, whatever the
  server says (`CommitCache.TransparentExactlyIfUnambiguous`, `CommitCache.AmbiguousExample`).

## Model

| member | source | states |
|---|---|---|
| TenderProtocol.StepKeepsInv | arms/market.py:306-344 | Every step of the client, of any contractor and of the network keeps the inductive invariant |
| TenderProtocol.TenderIsSafe | arms/market.py:209-215 | In every interleaving: at most one stream is signed, only it is sent commands, a machine commits only if signed and asked, at most one machine commits, reports are truthful, in order and at most one per commit, an orderly contractor rolls back unless it committed, and no message of the wrong type is ever read |
| TenderProtocol.ContractorKeepsStream | arms/snapshots.py:174-196 | The contractor's session, disk and reports fit together after every step, whichever failure, interruption or death occurs |
| TenderProtocol.SuccessIsFinal | arms/market.py:350-364 | Once the client was told of a success, that machine stays committed and no other ever commits, however the run goes on |
| TenderProtocol.RunKeepsCommitted | arms/snapshots.py:187-189 | A committed disk is never rolled back |
| TenderProgress.WorkingCommitIsReported | arms/snapshots.py:177-189 | A commit that works makes the disk committed and is reported as a success; the contractor goes on serving |
| TenderProgress.FailingCommitIsReported | arms/snapshots.py:178-182 | A commit that fails changes no disk, is reported as a failure and ends the service |
| TenderProgress.LeavingRollsBack | arms/snapshots.py:194-196 | On leaving, a disk that was not committed is rolled back, or its rollback fails; a committed one stays |
| TenderProgress.CommandIsFollowed | arms/snapshots.py:174-184 | What the next command leads to: a commit is carried out, any other is ignored, a malformed one ends the service |
| TenderProgress.OfferIsDecided | arms/snapshots.py:235-251 | What an offer leads to, in five ways: ignored, rejected, failing to boot, booted, accepted |
| TenderProgress.GoneClientIsNoticed | arms/market.py:245-296 | A contractor that accepts, waits for a command or reports leaves when its client has gone |
| TenderProgress.TakeAnswerOn | arms/market.py:306-320 | The answer decides: an executing contractor is signed, a rejection closes the stream and ends the tender; either closes it to others |
| TenderProgress.OfferIsPassedOn | arms/market.py:306-341 | An offer that is late or broken, or a stream that fails to open, only closes that stream; the client waits for the next |
| TenderProgress.StreamsQueueUp | arms/market.py:325-337 | Streams are offered the contract in the order they came, while the tender is open and never after |
| TenderProgress.WillingContractorIsSigned | arms/market.py:306-320 | Whatever else is going on, a waiting client that meets a new stream of a willing contractor signs it; the machine then runs on a pending disk |
| TenderProgress.RejectionEndsTender | arms/market.py:306-319 | In the same way a rejection ends the tender, with no machine started |
| TenderProgress.CommitIsTold | arms/market.py:355-361 | With nothing under way on a signed stream, asking for a commit ends with the client told how it went: success exactly if it worked |
| TenderProgress.ClosingEndsService | arms/market.py:363-364 | After the client closes such a stream, the contractor leaves with a committed disk kept and any other rolled back, if that works |
| TenderProgress.TenderIsFulfilled | arms/market.py:209-215 | A run from the publication of the tender to its end: signed, asked to commit, told of the success, the disk committed |
| TenderProgress.TenderIsAbandoned | arms/market.py:209-215 | The same without a commit: nothing is told and the disk is rolled back |
| SocketDirectory.DirectoryIsSafe | arms/market.py:110-166 | In every interleaving: a socket in service is visible and was never unlinked, a visible name that refuses was closed by its owner, the sweep removes exactly the orphans, the critical section is exclusive, no unlink or rename fails |
| SocketDirectory.RemovalSparesLiveSockets | arms/market.py:136-139 | A scanner only removes names whose owner has closed or died |
| SocketDirectory.OpenerKeepsSweep | arms/market.py:164-166 | What is left of the sweep is exactly the set of orphaned temporary names |
| SocketDirectory.OpeningPublishes | arms/market.py:149-166 | Undisturbed, opening removes every orphan and leaves a visible, listening socket and a free lock |
| SocketDirectory.NamesAreScanned | arms/market.py:117-143 | A name with nobody listening behind it is removed by the scan; all others stay |
| SocketDirectory.ScanStartsWithVisible | arms/market.py:117-120 | A scan goes through all the names visible when it starts |
| SocketDirectory.ClosingKeepsNames | arms/market.py:149-166 | An opener that closes or dies leaves its names behind, and its lock free |
| RunningSnapshot.Snapshot.Commit | arms/snapshots.py:187-189 | The rollback flag is cleared exactly by a commit that works |
| RunningSnapshot.Snapshot.Serve | arms/snapshots.py:174-185 | Serving stops at the first turn that does not pass; reports, commits and the flag are those of the turns handled |
| RunningSnapshot.Snapshot.Exit | arms/snapshots.py:194-196 | Rolls back exactly if the flag is still set |
| RunningSnapshot.ServeSingleContract | arms/snapshots.py:235-251 | However it ends, the machine is rolled back once if no commit took place and never otherwise |
| RunningSnapshot.EndingsExactlyWhen | arms/snapshots.py:174-185 | Which ending a run has is told by the last command handled: malformed, a commit whose report cannot be sent, a commit that fails, or none of these; all before it were ignored, or commits that worked and were reported |
| RunningSnapshot.ReportsAreInOrder | arms/snapshots.py:174-185 | Each commit command handled gets at most one report, of the right kind, in order; a fulfilled contract was told of every commit; success is never told of a machine that is rolled back |
| ContractDistributor.Accept | arms/snapshots.py:45-93 | A template is unsuitable exactly when its key, or its name, does not match, whatever the disks say |
| ContractDistributor.NothingSuitedIsImpossible | arms/snapshots.py:78-93 | Where a name matches and nothing in it is suited, the contract is impossible and not unsuitable |
| ContractDistributor.ImpossibleExactlyWhen | arms/snapshots.py:45-93 | At any depth of nesting: impossible exactly because the deciding disk is taken, missing or done, or because a name matched and nothing in it was suited |
| ContractDistributor.FirstSuitedDecides | arms/snapshots.py:82-88 | A list of templates decides as its first template that suits, and is unsuitable when none does |
| ContractDistributor.AcceptedIsServed | arms/snapshots.py:45-55 | An accepted contract has the very key of some snapshot template below, whose disk is free for the stems asked for; the next row tells when exactly |
| ContractDistributor.AcceptedExactlyWhen | arms/snapshots.py:45-93 | At any depth of nesting: accepted, with this boot template and these stems, exactly if the deciding snapshot template, the first suited at every level, has the key, the stems are given and its disk is ready |
| ContractDistributor.FailedExactlyWhen | arms/snapshots.py:45-93 | It fails exactly if the deciding template finds the key or the stems missing, or its disk crashes |
| ContractDistributor.ListDecides | arms/snapshots.py:277-297 | A list accepts, or finds impossible, exactly what its first suited template does |
| ContractDistributor.Decide | arms/snapshots.py:279-296 | One contract is left open if accepted and else closed once: rejected if impossible, ignored otherwise |
| ContractDistributor.PickFirstFeasibleContract | arms/snapshots.py:277-297 | The first contract for which a free disk decides is returned open, with its boot template and stems; for every earlier one there is no such disk, and it is closed once, rejected exactly if hopeless; later ones are untouched |
| HtmlDocument.TextAndTailAreDirectData | cloud_api/_push_notification.py:266-273 | Text followed by tail is an element's own character data in document order |
| HtmlDocument.TextEndsAtFirstChild | cloud_api/_push_notification.py:266-308 | The data up to the first child with contents is the text, and all after it is the tail |
| HtmlDocument.DictHoldsAttributes | cloud_api/_push_notification.py:323-326 | The attributes of an element are exactly those given in the tag; of several with one name, the last |
| HtmlParsing.ContentsAreAbsorbed | cloud_api/_push_notification.py:266-308 | Feeding the events of any contents gives the open element its data and its children, and leaves all below it alone |
| HtmlParsing.TopLevelIsRebuilt | cloud_api/_push_notification.py:280-308 | Feeding a whole document leaves an empty stack and the tree of its last top-level element |
| HtmlParsing.PartialIsParsed | cloud_api/_push_notification.py:252-308 | After a document cut off anywhere, the stack is the chain of its open elements, each with its data and closed children so far |
| HtmlParsing.PrefixIsPartialDocument | cloud_api/_push_notification.py:252-308 | Whatever was read without an error is a document cut off at some place, and the state is a function of it |
| HtmlParsing.AcceptsExactlyDocuments | cloud_api/_push_notification.py:300-308 | A run ends without error and with an empty stack exactly for the events of a balanced document |
| HtmlParsing.RoundTrip | cloud_api/_push_notification.py:246-249 | Parsing the events printed for a tree is accepted and rebuilds its tags, data and order of children, with exactly the attributes given, the last of each name |
| HtmlParsing.StartTagIsTold | cloud_api/_push_notification.py:287-298 | Inside an element a start tag is ignored exactly if it is a formatting one, adds a closed child exactly if it is a void one, and opens a child otherwise, each with its attributes |
| HtmlParsing.OtherTagsAreTold | cloud_api/_push_notification.py:275-292 | A self-closing tag of any name adds a child; a start tag outside of all elements opens a root, void or not |
| HtmlParsing.EndTagIsTold | cloud_api/_push_notification.py:300-308 | An end tag closes the innermost element, even one of another name before it fails; only a matching one ends the text |
| HtmlParsing.DataIsTold | cloud_api/_push_notification.py:266-273 | Data goes to the text of the innermost element while it was just opened and else to its tail, and is dropped outside of all |
| HtmlParsing.EventFailsExactlyWhen | cloud_api/_push_notification.py:275-308 | What event fails in what way: an element without parent, an end tag on an empty stack, an end tag that does not match; nothing else |
| HtmlParser.Parser.HandleData | cloud_api/_push_notification.py:266-273 | The method on shared objects does what the machine on values does |
| HtmlParser.Parser.HandleStartEndTag | cloud_api/_push_notification.py:275-278 | The same; without an open element it fails |
| HtmlParser.Parser.HandleStartTag | cloud_api/_push_notification.py:287-298 | The same; a new element is at once the last child of its parent and the top of the stack |
| HtmlParser.Parser.HandleEndTag | cloud_api/_push_notification.py:300-308 | The same; it fails on an empty stack and on a tag that does not match |
| HtmlParser.Parser.SetAsRoot | cloud_api/_push_notification.py:280-285 | The root of the tree is the bottom of the stack |
| HtmlParser.Parser.Feed | cloud_api/_push_notification.py:252-308 | Any list of events: the objects stand for the state of the machine on values, up to the first failure |
| HtmlParser.ParseHtml | cloud_api/_push_notification.py:246-249 | For any events the objects stand for the state in which the parsing ended, open elements included; only documents are parsed to the end, to the tree of their last root |
| TokenBucket.RunIsPaidFor | installation/_updates.py:216-232 | No run is granted more than the balance and the time since its stamp are worth |
| TokenBucket.GrantedSinceCreation | installation/_updates.py:208-232 | Since creation at most capacity + rate × time is granted |
| TokenBucket.WindowAfterFirstCall | installation/_updates.py:221-232 | The same for every window that starts after the first call and before its own first call is due |
| TokenBucket.AnyWindow | installation/_updates.py:216-232 | Any window grants at most twice the capacity + rate × time |
| TokenBucket.OverdueWindowBreaksTheBound | installation/_updates.py:227-232 | For every rate and capacity, a window that starts any later than that breaks the bound of one capacity |
| TokenBucket.BalanceStaysInRange | installation/_updates.py:221-232 | After every call the balance is in [-capacity, capacity), and the next refill repays any debt |
| TokenBucket.EarnedIsDueAtOnce | installation/_updates.py:221-230 | A request for no more than was left and has been earned since is due at once |
| TokenBucket.DueWhenEarned | installation/_updates.py:221-230 | Any other request that the bucket can hold is due at the very moment it will have been earned |
| TokenBucket.FullAfterPause | installation/_updates.py:221-230 | After any run, a whole capacity is due at once when a pause has earned two |
| TokenBucket.NothingIsLost | installation/_updates.py:221-232 | Over any run that never fills the bucket, what was granted and what is left add up to exactly what was earned |
| TokenBucket.Bucket.WaitForFilling | installation/_updates.py:216-232 | Refuses exactly a request above the capacity, changing nothing; raises on a deficit without a positive rate, after the refill; else is one valid call of the runs above, and does not sleep at all if the refilled bucket holds the request |
| TokenBucket.Bucket.Refill | installation/_updates.py:221-225 | The time stamp moves exactly when the bucket is not full, to the time just read; what the refill earns is the subject of the rows above |
| TokenBucket.Bucket.SleepOffDeficit | installation/_updates.py:227-230 | Sleeps at least for the deficit and not at all without one, and fails exactly on a deficit without a positive rate |
| RangeServer.WholeFileIsServed | installation/_updates.py:93-97 | Without a range the whole file is served and announced |
| RangeServer.RangeIsAnnounced | installation/_updates.py:72-97 | Every range is answered as partial content, with its first position, the size of the file, the smaller of its last position and the size, and the length of what lies in the file; a request without a range as a whole |
| RangeServer.RangeIsServed | installation/_updates.py:72-88 | A range that begins in the file is served as the inclusive slice, clipped to the file |
| RangeServer.ContentLengthIsHonest | installation/_updates.py:76-81 | A body is served with as many bytes as announced exactly if the range begins no later than it ends in the file |
| RangeServer.ContentRangeIsHonest | installation/_updates.py:75-84 | The last position announced is the last one served exactly if the range ends before the end of the file |
| RangeServer.MisfitRanges | installation/_updates.py:72-88 | Concrete ranges that fail after the header is sent, one that is announced with -1 bytes and served with all the rest, and one announced up to a position the file does not have |
| RangeServer.ProgressGoesOn | installation/_updates.py:107-115 | One chunk more of a range that is not backward is the next part of the slice and fits the bucket |
| RangeServer.ReadData | installation/_updates.py:102-115 | Succeeds exactly on an empty range, on one that ends two positions before it starts, and, with a rate, on one that is not backward; the chunks are the slice, none larger than the bucket, except that the second kind sends all the rest at once and gains a token |
| RangeServer.App | installation/_updates.py:62-101 | The header is sent for every range; the body of the same range follows exactly under the condition above, and nothing otherwise |
| RateLimit.LeadersAreSpaced | directories/_rate_limit.py:20-30 | Whatever the file held and whatever is read from it, completed leaders record times a period apart |
| RateLimit.NobodyLeadsEarly | directories/_rate_limit.py:17-43 | Until a period has passed, no process, however wrongly spawned, records a time or damages the file |
| RateLimit.AloneProcessLeadsExactlyAfterPeriod | directories/_rate_limit.py:20-43 | Undisturbed, a process leads exactly if the lock is free and the period over since the last run time, which the next rows tell |
| RateLimit.UnreadableIsAllowed | directories/_rate_limit.py:17-18 | With the file missing, or without a number in it, a run is allowed at any time |
| RateLimit.UnreadableNeverBlocks | directories/_rate_limit.py:20-43 | With such a file and the lock free, a process leads at any time, reports 605 seconds ago as the last run, and overwrites the file |
| RateLimit.NumberDecides | directories/_rate_limit.py:20-34 | With a number in the file, whole or torn, it leads exactly from ten minutes after that on, and else leaves the file as it is |
| RateLimit.TakenLockRefuses | directories/_rate_limit.py:20-30 | A process that finds the lock taken does not lead and touches nothing |
| RateLimit.DeathLeavesTornFile | directories/_rate_limit.py:27 | A process may die half-way through writing, leaving any torn file and a free lock |
| RateLimit.ProcessKeepsInv | directories/_rate_limit.py:20-30 | Every step of any process, dying half-way through a write included, keeps the invariant |
| GradualCleanup.DeleteLeastSignificant | directories/_cleanup.py:112-127 | Exactly the chosen entries are gone: an entry is chosen if and only if it does not refuse and those chosen before it do not free enough |
| GradualCleanup.OldestGoFirst | directories/_cleanup.py:153-159 | An entry that stays without refusing was used no earlier than any deleted one |
| GradualCleanup.TiesGoAsListed | directories/_cleanup.py:153-159 | Among entries used at the same time those listed first are deleted first |
| GradualCleanup.EveryDeletionWasNeeded | directories/_cleanup.py:119-121 | Just before every deletion the occupied space was above the target and the pace not used up |
| GradualCleanup.FreesEnough | directories/_cleanup.py:119-127 | The space set out for is freed, or all that does not refuse is deleted |
| GradualCleanup.NothingNewNothingDeleted | directories/_cleanup.py:133-150 | Without new files nothing is deleted |
| GradualCleanup.GrowthIsTaken | directories/_cleanup.py:133-150 | Whatever arrives, grows, is touched or is deleted by others between two cleanups, the listing grows by no more than what was modified since the first |
| GradualCleanup.TakenIsModified | directories/_cleanup.py:133-150 | What was taken is exactly the total size of the entries modified after the last cleanup |
| GradualCleanup.BudgetIsLargest | directories/_cleanup.py:133-150 | The space set out for is the largest number of bytes within the excess and within one and a half of the size of the entries modified since |
| GradualCleanup.ExcessAfterPeriod | directories/_cleanup.py:112-150 | The excess changes by the growth less one and a half of what was taken, rounded down, or falls to what the refusing entries exceed the target by themselves |
| GradualCleanup.CleanupConverges | directories/_cleanup.py:112-150 | Over any history of cleanups, whatever was found and refused in each, the excess is at most the initial one less half of what was taken each time, or the most that was ever stuck |
| GradualCleanup.TargetIsReached | directories/_cleanup.py:133-150 | With two bytes or more taken in every period, after as many periods as excess bytes only what was stuck is above the target |
| StableSort.SortIsSorted | directories/_cleanup.py:156-159 | sorted() orders |
| StableSort.SortIsPermutation | directories/_cleanup.py:156-159 | sorted() keeps the elements |
| StableSort.SortIsStable | directories/_cleanup.py:156-159 | sorted() keeps the order of elements that compare equal; the tie rules of the cleanup and of the export rest on it |
| Directories.ListedExactlyOnce | directories/_directories.py:77-104 | The recursive listing has every existing directory and regular file exactly once, and nothing else |
| Directories.ScanKeepsAccount | directories/_directories.py:88-104 | What is yielded, stacked and not looked at yet make up the whole after every entry |
| Directories.Traverse | directories/_directories.py:82-104 | The loop over the stack ends on every finite tree and agrees with the recursive listing |
| Directories.ListEntries | directories/_directories.py:77-104 | Each directory and regular file below the root is yielded exactly once |
| LineSplitting.SplitIsJoined | installation/_vms_benchmark.py:57 | Splitting loses nothing, for any separator |
| LineSplitting.PiecesHaveNoSeparator | installation/_vms_benchmark.py:57 | No separator is left in a line or in the buffer |
| LineSplitting.JoinIsSplit | installation/_vms_benchmark.py:231 | Lines written with their ends are read back |
| LineSplitting.SplitGoesOn | installation/_vms_benchmark.py:55-57 | Splitting the buffer with the next chunk is splitting all at once, also if a separator is cut in two |
| LineSplitting.StrippedSplitGoesOn | installation/_vms_benchmark.py:228-231 | The same with carriage returns dropped chunk by chunk |
| LineSplitting.StripDropsReturns | installation/_vms_benchmark.py:228-230 | All carriage returns are dropped, and no other byte is |
| LineSplitting.WatchTestCamera | installation/_vms_benchmark.py:34-63 | The events reported are those of the whole output up to the end of the process |
| LineSplitting.LineIsReported | installation/_vms_benchmark.py:58-62 | A line reports the start of streaming, the closing of all streams, both in this order, or nothing, exactly by the texts that occur in it |
| LineSplitting.WatchRtspPerf | installation/_vms_benchmark.py:220-253 | The statistics and other lines are those of the whole output split once, up to a line that cannot be decoded or converted; the loop is left at the first receipt with such a line, a return code, or more than thirty seconds since a statistics line |
| LineSplitting.LoopEnds | installation/_vms_benchmark.py:246-254 | The loop is still running exactly after receipts of a running process that all came within thirty seconds of statistics, and is left for a return code or for silence exactly with the first that is not such; the return code is looked at first |
| LineSplitting.SilenceCountsFromLast | installation/_vms_benchmark.py:221-245 | Silence counts from the last receipt that completed a line of statistics |
| LineSplitting.SilenceCountsFromStart | installation/_vms_benchmark.py:221-245 | Without such a receipt it counts from the start |
| LineSplitting.ReadLines | installation/_vms_benchmark.py:232-245 | The inner loop sorts the lines by kind, in order, up to the first that cannot be decoded or converted |
| LineSplitting.SelectsKind | installation/_vms_benchmark.py:232-245 | The lines of a kind are exactly the lines read that are of it |
| ComparisonExport.SumGroups | long_tests/comparison_data_export.py:69-78 | On sorted measures grouping gives one group per key with the exact sum, in the order of the keys |
| ComparisonExport.Aggregate | long_tests/comparison_data_export.py:67-78 | Sorting, grouping and summing is an aggregation of the unsorted measures |
| ComparisonExport.CountIsConserved | long_tests/comparison_data_export.py:69-78 | Grouping loses no count and counts none twice |
| ComparisonExport.RunIsNew | long_tests/comparison_data_export.py:55-58 | The first document of a type and version met is its latest, and of equally late ones the first of the input |
| ComparisonExport.TiesOfSorted | long_tests/comparison_data_export.py:55 | The sort keeps documents of one type and version that started together in input order |
| ComparisonExport.ExportConservesCount | long_tests/comparison_data_export.py:55-79 | The rows count what the retained measures of the latest documents count |
| ComparisonExport.ExportedRowsAreDistinct | long_tests/comparison_data_export.py:55-79 | No two rows share type, version, operation and file |
| ComparisonExport.PrepareData | long_tests/comparison_data_export.py:42-80 | The rows are exactly those of the latest documents, ties included, distinct, with no count lost; they are stably sorted by sorting key, so their order is fixed too |
| ComparisonExport.RowsHaveSources | long_tests/comparison_data_export.py:68-79 | Every row tells of one chosen document and one of its groups, with its sorting key and count |
| ComparisonExport.GroupsHaveRows | long_tests/comparison_data_export.py:68-79 | Every group of a chosen document has its row |
| ComparisonExport.RetainedCounts | long_tests/comparison_data_export.py:60-67 | What is counted for an operation and a file are all the measures of it, and no file left out |
| ComparisonExport.ActualFilesByName | long_tests/comparison_data_export.py:46-50 | A file is left out exactly if its path has one of five parts anywhere |
| ComparisonExport.FilesByName | long_tests/comparison_data_export.py:60-66 | Recordings and databases are counted together by their endings, every other file under its own name |
| ComparisonExport.StringsAreOrdered | long_tests/comparison_data_export.py:43-68 | The order of strings is decided by the first character that differs; a beginning comes before the whole |
| CommitCache.Cache.Add | infrastructure/gitlab.py:391-400 | The lower-case SHA and its prefixes of eight or more lead to the commit, all other keys to where they did |
| CommitCache.Cache.Get | infrastructure/gitlab.py:402-407 | A lookup ignores case |
| CommitCache.HitIsLatest | infrastructure/gitlab.py:384-407 | A lookup hits exactly if some added commit has the key, and finds the latest such |
| CommitCache.PrefixesHit | infrastructure/gitlab.py:391-400 | Every long enough prefix of an added SHA hits, in any case of letters |
| CommitCache.OnlyPrefixesHit | infrastructure/gitlab.py:391-407 | Nothing shorter than eight characters hits, and nothing that is no prefix of an added SHA |
| CommitCache.LowerIgnoresCase | infrastructure/gitlab.py:391-407 | Two references become the same key exactly if they differ in the case of letters only |
| CommitCache.CachedIsResolved | infrastructure/gitlab.py:141-156 | For a reference that at most one commit of the server has as its SHA or prefix, the cache makes no difference, whatever was cached |
| CommitCache.AmbiguousIsNotResolved | infrastructure/gitlab.py:141-145 | For any other reference some commit of the server, once cached, is answered against the server |
| CommitCache.LookupCaches | infrastructure/gitlab.py:141-156 | One lookup by its whole SHA brings that commit, and nothing else, into a new cache |
| CommitCache.TransparentExactlyIfUnambiguous | infrastructure/gitlab.py:141-156 | Over all histories of lookups from a new cache on, the cached and the server's answers agree exactly on the unambiguous references |
| CommitCache.AmbiguousExample | infrastructure/gitlab.py:141-156 | Two concrete commits: a prefix the server refuses is answered with the one asked for last |
| CommitCache.GetCommit | infrastructure/gitlab.py:141-156 | A hit answers with the latest cached commit and changes nothing; a miss is answered by the server, whose commit is then cached under its keys, and nothing is cached if there is none |
| CommitCache.AddsStayOfServer | infrastructure/gitlab.py:141-156 | Only commits of the server are cached and answered |
| CommitCache.GetManySha | infrastructure/gitlab.py:128-139 | For any references: the SHAs of all the answers, or exactly the references without one |
| CommitCache.AnswersAreResolved | infrastructure/gitlab.py:128-139 | Each unambiguous one among them is answered as the server does, whatever the others are |
| EventQueue.Queue.ReloadEvents | mediaserver_api/_base_queue.py:34-48 | A load that contradicts the buffer is refused and changes nothing |
| EventQueue.Queue.WaitForNext | mediaserver_api/_base_queue.py:50-68 | The polling loop returns what its specification on values says |
| EventQueue.Queue.SkipExistingEvents | mediaserver_api/_base_queue.py:70-72 | All that is loaded counts as returned |
| EventQueue.CallOnAppendOnly | mediaserver_api/_base_queue.py:34-72 | On an append-only log no call fails other than by waiting in vain, and the count stays within the buffer |
| EventQueue.EachEventOnceInOrder | mediaserver_api/_base_queue.py:50-72 | Over every run the events returned since the last skip are exactly those of the log from where that skip left it up to the count: each once, in order, none passed over |
| EventQueue.NewQueueReturnsTheLog | mediaserver_api/_base_queue.py:50-72 | The same for every run of a new queue; without a skip it is the beginning of the log |
| EventQueue.WaitDelivers | mediaserver_api/_base_queue.py:50-68 | On an append-only log a wait returns the next event exactly if it is buffered or some load before the timeout has it |
| EventQueue.ContradictionIsRaised | mediaserver_api/_base_queue.py:34-48 | A load that neither continues the buffer nor is a beginning of it is refused by a wait and by a skip, and changes nothing |
| EventQueue.SkipTakesAll | mediaserver_api/_base_queue.py:70-72 | Any other load is taken over as a whole by a skip |
| EventQueue.WaitBreaksExactlyIfInvalid | mediaserver_api/_base_queue.py:50-68 | A wait fails at once exactly when more was returned than is buffered, and then loads nothing |
| EventQueue.ShortLoadBreaksQueue | mediaserver_api/_base_queue.py:42-68 | After any wait that times out the count is valid exactly if the last log loaded holds all that was returned; otherwise every later wait fails |
| EventQueue.ShortLoadExample | mediaserver_api/_base_queue.py:42-48 | A concrete log that does it |
| Totp.Code | doubles/totp.py:19-20 | The window lies inside the digest and the code below 2^31 |
| Totp.CodeByBytes | doubles/totp.py:19-20 | The code is made of the four bytes from the place that the low half of the last byte tells, without the top bit of the first of them |
| Totp.RfcExample | doubles/totp.py:19-20 | The example of section 5.4 of RFC 4226 |
| Totp.LastDigits | doubles/totp.py:21 | The last k digits are the number modulo the k-th power of ten |
| Totp.OtpIsCodeModuloMillion | doubles/totp.py:15-21 | Six digits for every digest, whose value is the code modulo a million |

## Left out

- Real sockets, asyncio, JSON encoding, umask, logging and the wire format of messages: streams are FIFO channels, timeouts and lost connections are steps.
- TenderProtocol.TenderIsSafe: a contractor that is killed leaves its disk pending, and a failed rollback is a possible end; disks left by a boot that failed are not followed.
- SocketDirectory.DirectoryIsSafe: takes names to be unique, which a time stamp with the process id stands for; a name is never used twice.
- RunningSnapshot.ServeSingleContract: starts when the machine has booted; that a rollback itself may fail is only modelled in TenderProtocol.
- serve_contracts_loop, the order of its distributors and its random delay.
- RateLimit.LeadersAreSpaced: the wall clock is taken not to go back; the lock file is a mutual exclusion lock that the death of its holder releases; the time stamps of all kinds of files, and one and a half of a size, are exact.
- GradualCleanup.DeleteLeastSignificant: which entries refuse is fixed for one cleanup, which is no restriction since each is tried once; roots that overlap, so that one path is listed twice, are not modelled; a file that vanishes in between counts as deleted, as in the code.
- GradualCleanup.TargetIsReached: what arrives is taken to be modified after the last cleanup; a file that comes with an older modification time, which the code does not count as taken, is not covered.
- Directories.ListEntries: for a tree that does not change while it is listed.
- TokenBucket.Bucket.WaitForFilling: floating point is replaced by exact reals, and one caller at a time uses the bucket.
- RangeServer.App: parsing of the range header, content types and unknown packages; the range is a pair of positions or absent.
- HtmlParser.ParseHtml: starts from the events; the tokenizer of the Python library and its character references are not part of this model.
- LineSplitting.WatchTestCamera: one receive is a chunk of bytes with a flag for the return code; the pauses and the log are left out.
- LineSplitting.WatchRtspPerf: decoding, the regular expression and the conversion of numbers are a function that gives the kind of a line; the clock is read once for the last statistics line of a receipt.
- ComparisonExport.PrepareData: the name of a path and the sorting key of a build are given; that the code also writes the file label into its argument is not captured.
- The preparation of CPU, memory, HTTP and RTSP rows, which only selects the latest documents again.
- CommitCache.GetCommit: the server is a function that does not change during a run, so a branch has no time to move; lower case is that of ASCII letters.
- EventQueue.Queue.WaitForNext: the loads until the timeout are a finite list; an event is compared as a value.
- Totp.OtpIsCodeModuloMillion: the digest is given; the time step and the keyed hash are not part of this model.
- GitLab, Elasticsearch, Google Sheets, cloud and mediaserver HTTP APIs, installers, virtual machines, GUI scenarios and the linter plugins.
