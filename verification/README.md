# Verified model of the watchman code-running service

Watchman runs learners' code in Docker containers. It keeps a pool of launched containers per
language, leases one to each request, runs the code in it, throws the container away and launches
a replacement. What the container printed is one stream of text with in-band markers, which the
service takes apart into a verdict, the user's output and the tests' output. Projects come as a
JSON tree and go into the container as a flat listing of paths.

The project models these three parts in Dafny and proves what they promise, for all inputs and for
all interleavings.

**The pool** (`Pool`, `Protocol`, `Control`, `Ledger`, `Accounting`, `Refinement`, `PoolSafety`,
`PoolTheorems`, `PoolOrder`, `PoolCapacity`, `PoolLiveness`, `PoolProgress`, `PoolStranding`; `Storage` and
`Startup` hold the classes, `Tables` the configuration). The protocol is a step system: any number of request threads, the
mutex, the one condition variable shared by all languages, and the single thread that works off the
queue of Docker jobs. Pushing a container under the mutex and `notify_all` are two steps, spurious
wake-ups are steps, and every Docker call may fail. A step is refined to an event on an abstract
ledger that only knows who has which container; uniqueness and conservation are proved there. The
classes state how startup reaches a state in which the protocol starts, and how the critical
sections of `ExtractingStorage` are the steps of the protocol (`Storage.TestIsExtract` and
`Storage.PushIsAddValue` are these links).

**The decoder** (`Text`, `MarkerTheory`, `Markers`, `Folding`, `Stripping`, `Framing`, `Answer`,
`Responses`, `RoundTrips`, `Playgrounds`). `size_t` wraps modulo 2^64, and `substr` clips or throws as the library
says. The proofs are about any family of markers that cannot overlap; the four markers of the
service are shown to be one. The round trips are proved in both directions: the decoder gives back
the parts of an answer if and only if the parts satisfy a condition that can be checked beforehand.

**The project tree** (`Paths`, `Project`, `Unflattening`, `Listing`, `Traversal`, `Placement`,
`MainFile`). The listing says of every file and every directory of the JSON document what the
document says, in order, and nothing else. The recursive append to the shared list equals a preorder
listing; a reader rebuilds every tree from its listing; parents come before children; paths are distinct exactly if siblings
are; and the main file is found through both recursions.

Where the code and its comments disagree, the model follows the code:

- The header of the storage says FIFO, but `extract` takes the element added last. In every reachable
  state the oldest container is taken exactly if it is the only one
  (`PoolOrder.FifoExactlyWhenAlone`, `PoolOrder.BottomStays`, `PoolOrder.NewerIsTaken`).
- A failed execution hands its success flag, false, on as the status 0, which is the status of
  success (`Responses.SuccessMeans`, `Responses.FailedExecutionLooksLikeSuccess`).
- A failed launch of a replacement loses capacity for good while the language stays known, so a
  later request can wait for ever (`PoolProgress.StuckExactlyWhenDrained`,
  `PoolStranding.OneFailureStrandsARequest`).
- The playground decoder names the chapter's pattern in a comment, but it does not look for the
  inner marker: for no outputs whatever does it give the user's output alone
  (`Playgrounds.PlaygroundNeverSplits`, `Playgrounds.PlaygroundOfChapterFrame`).

`dafny verify dfyconfig.toml` checks everything.

## Model

| member | source | states |
|---|---|---|
| `PoolTheorems.NoLostWakeUp` | src/core/code_launcher/detail/storage.hpp:20-38 | in every reachable state, a thread that sleeps although its list has a container is about to be notified: the job thread is between its unlock and its `notify_all` |
| `PoolTheorems.MutualExclusion` | src/core/code_launcher/detail/storage.hpp:21-35 | in every reachable state at most one thread is inside the critical sections |
| `PoolTheorems.KeysAreStable` | src/core/code_launcher/detail/restarting_code_launcher_provider.cpp:18-22 | over every run the set of languages never changes, so the unlocked `contains` stays valid, `storage.at` never throws, and exactly requests for unknown languages are refused |
| `PoolTheorems.ContainersAreExclusive` | src/core/code_launcher/detail/storage.hpp:11-38 | in every reachable state a container id is at one place only: one position of one list, one lease, or one replacement under way |
| `PoolTheorems.ContainersAreUsedOnce` | src/core/code_launcher/detail/restarting_code_launcher_provider.cpp:22-38 | a container leased at any time of a run is, at the end of the run, nowhere but with that one request: it is never leased again and never returns to a list |
| `PoolCapacity.CapacityIsConserved` | src/core/code_launcher/detail/container_manipulator.cpp:50-63 | in every reachable state pooled, borrowed and lost containers of a language add up to its startup capacity |
| `PoolCapacity.LiveContainersAreBounded` | src/core/code_launcher/detail/restarting_code_launcher_provider.cpp:32-38 | at no time has a language more existing containers than at startup plus those Docker failed to remove |
| `PoolCapacity.LiveContainersNeverExceedCapacity` | src/core/code_launcher/detail/restarting_code_launcher_provider.cpp:32-38 | if removals succeed, the containers of the service that exist never exceed the startup capacity, at any interleaving |
| `PoolCapacity.ForeignIsUntouched` | src/core/code_launcher/detail/container_manipulator.cpp:36-63 | over every run the containers the service did not launch stay exactly as they were |
| `PoolCapacity.ImagesAreKept` | src/core/code_launcher/detail/code_launchers.cpp:73-75 | as long as inspection answers, the number of containers of each image never changes for a language, over list, leases, restarts and losses together |
| `PoolCapacity.TypesAgree` | src/core/code_launcher/detail/container_manipulator.cpp:17-34 | in every reachable state each container listed under a language was launched for it and exists |
| `PoolCapacity.UsedContainersExist` | src/core/code_launcher/detail/container_manipulator.cpp:36-53 | in every reachable state a used container exists until its removal, and afterwards exactly if that failed |
| `PoolCapacity.InspectionDecides` | src/core/code_launcher/detail/code_launchers.cpp:73-75 | in every reachable state a request learns the image its container was launched from, and none if the inspection fails |
| `PoolCapacity.ReplacementHasTheImage` | src/core/code_launcher/detail/container_manipulator.cpp:55-57 | the replacement is launched from the image the request learned and for the language of the lease |
| `PoolLiveness.StepLightens` | src/core/code_launcher/detail/storage.hpp:20-38 | every step but a spurious wake-up lowers one measure of the state, although `notify_all` sends sleepers back to the test |
| `PoolLiveness.RunsAreFinite` | src/core/service.cpp:77-125 | the length of every run is bounded by the number of requests and of spurious wake-ups, failures of Docker included |
| `PoolProgress.NoDeadlock` | src/core/code_launcher/detail/storage.hpp:20-38 | while a request is unfinished and its language has not lost all its containers, a step is enabled that needs neither a failure nor a spurious wake-up |
| `PoolProgress.AtRestMeans` | src/core/service.cpp:77-125 | where a run comes to rest every request is finished, or asleep for a language all of whose containers are lost |
| `PoolProgress.AllAreServed` | src/core/service.cpp:77-125 | if every launch succeeds, a run ends with all requests served or refused and all lists full again |
| `PoolProgress.ListsAreFull` | src/core/code_launcher/detail/container_manipulator.cpp:55-63 | where all requests are through, every list has its startup length again |
| `PoolProgress.LossesRun` | src/core/code_launcher/detail/container_manipulator.cpp:57-60 | losses never shrink, and only failed launches cause them |
| `PoolProgress.RestIsReachable` | src/core/code_launcher/detail/storage.hpp:20-38 | from every state there is a run without failures and spurious wake-ups that comes to rest |
| `PoolProgress.NothingIsRuledOut` | src/core/code_launcher/detail/storage.hpp:24-24 | in every reachable state a sleeper may wake for no reason, and every Docker call that can succeed, with any fresh id, can fail |
| `PoolProgress.NotifyWakesAll` | src/core/code_launcher/detail/storage.hpp:37-37 | after `notify_all` nobody sleeps, whatever the language |
| `PoolProgress.StuckExactlyWhenDrained` | src/core/code_launcher/detail/container_manipulator.cpp:55-63 | a waiting request can still get a container if and only if the failed launches for its language are fewer than its startup capacity |
| `PoolStranding.OneFailureStrandsARequest` | src/core/code_launcher/detail/container_manipulator.cpp:57-60 | a concrete run: one container, two requests, one failed launch, and the second request can never be served |
| `PoolSafety.InvStep` | src/core/code_launcher/detail/storage.hpp:18-38 | every step of every thread keeps the whole invariant: mutex, job queue, keys, ledger, parking, wake-ups |
| `PoolSafety.InvRun` | src/core/code_launcher/detail/storage.hpp:18-38 | every reachable state satisfies it |
| `Control.ControlStep` | src/core/code_launcher/detail/container_manipulator.cpp:50-63 | every step keeps the agreement of phases with the mutex holder and with the queue of jobs |
| `Refinement.StepRefines` | src/core/code_launcher/detail/restarting_code_launcher_provider.cpp:16-38 | every step of the protocol is one event of the ledger, or none |
| `Ledger.UniqueStep` | src/core/code_launcher/detail/storage.hpp:26-35 | every event keeps each container at one place, given that Docker does not reuse ids |
| `Ledger.TracedStep` | src/core/code_launcher/detail/container_manipulator.cpp:36-63 | every event keeps each container ever launched at some place of the ledger |
| `Accounting.TotalIsConserved` | src/core/code_launcher/detail/storage.hpp:26-35 | no event changes listed plus owed containers of a language |
| `Accounting.ImagesAreConserved` | src/core/code_launcher/detail/restarting_code_launcher_provider.cpp:32-38 | no event changes the count of an image, if replacements have the image of what they replace |
| `Accounting.LiveIsBounded` | src/core/code_launcher/detail/restarting_code_launcher_provider.cpp:36-37 | existing containers of a language are at most its total plus the leaked ones, since each release removes before it creates |
| `Storage.ExtractingStorage.Contains` | src/core/code_launcher/detail/storage.hpp:18-18 | whether the language has a list |
| `Storage.ExtractingStorage.ExtractOnce` | src/core/code_launcher/detail/storage.hpp:20-30 | one pass of the critical section: no list, wait, or the last element is taken and all else stays |
| `Storage.ExtractingStorage.AddValue` | src/core/code_launcher/detail/storage.hpp:32-38 | appends to an existing list, or throws and changes nothing |
| `Storage.ExtractingStorage.AddValues` | src/core/code_launcher/detail/storage.hpp:40-44 | appends all values in order, making the list if there is a value and no list |
| `Storage.LastInFirstOut` | src/core/code_launcher/detail/storage.hpp:26-35 | extracting right after adding gives the added element and the old lists |
| `PoolOrder.OldestTakenOnlyAlone` | src/core/code_launcher/detail/storage.hpp:11-30 | from a list without repetition `extract` takes the oldest element if and only if it is the only one |
| `PoolOrder.FifoExactlyWhenAlone` | src/core/code_launcher/detail/storage.hpp:11-30 | in every reachable state a request is handed the container that is longest in its list if and only if there is no other |
| `PoolOrder.BottomStays` | src/core/code_launcher/detail/storage.hpp:26-35 | over every run, while its list does not run empty, the first container of a language is never handed out |
| `PoolOrder.NewerIsTaken` | src/core/code_launcher/detail/storage.hpp:11-30 | a reachable state with two containers from which the newer one is handed out |
| `Startup.CodeLauncherOSManipulator.constructor` | src/core/code_launcher/detail/container_manipulator.cpp:44-48 | startup leaves a ready pool; foreign containers are those found, less exactly the ones with the pattern unless Docker has an outage; each language, and each image of it, has what the three tables ask for less the failed launches |
| `Startup.CodeLauncherOSManipulator.CreateCodeLauncher` | src/core/code_launcher/detail/container_manipulator.cpp:17-34 | a fresh container of the image and language, or none and nothing changed |
| `Startup.CodeLauncherOSManipulator.RemoveCodeLauncher` | src/core/code_launcher/detail/container_manipulator.cpp:36-42 | unless Docker has an outage the container is gone, running or not; no other container is removed or stopped |
| `Startup.CodeLauncherOSManipulator.KillContainers` | src/core/code_launcher/detail/container_manipulator.cpp:69-76 | exactly the listed containers with a matching image are removed, but for outages, and no other one is stopped |
| `Startup.CodeLauncherOSManipulator.SyncRemoveRunningCodeLaunchers` | src/core/code_launcher/detail/container_manipulator.cpp:65-79 | what exists afterwards is what existed, less the containers whose image holds the pattern; exceptions only where Docker had an outage; the others run or not as before |
| `Tables.LeftoversMean` | src/core/code_launcher/detail/container_manipulator.cpp:15-71 | these are the containers with "senjun" anywhere in the image |
| `Startup.CodeLauncherOSManipulator.LaunchMany` | src/core/code_launcher/detail/container_manipulator.cpp:84-91 | launched plus failed equals asked for, all of this language and image, and the pool stays ready with them added |
| `Startup.CodeLauncherOSManipulator.LaunchContainers` | src/core/code_launcher/detail/container_manipulator.cpp:82-97 | each list grows at its end by containers of the image its table names, as many as asked for less the failures, in any order of the table |
| `Startup.CodeLauncherOSManipulator.SyncCreateCodeLaunchers` | src/core/code_launcher/detail/container_manipulator.cpp:81-102 | by language, and by language and image, what is launched plus what failed is the sum over courses, playgrounds and practices |
| `Tables.ThreePasses` | src/core/code_launcher/detail/container_manipulator.cpp:99-101 | three lists grown one after the other hold of each image what the tables naming it ask for, less the failures |
| `Startup.CodeLauncherOSManipulator.AsyncCreateCodeLauncher` | src/core/code_launcher/detail/container_manipulator.cpp:55-63 | a fresh container goes to the end of its list, or, where the launch fails, nothing changes |
| `Startup.RestartingCodeLauncherProvider.GetCodeLauncher` | src/core/code_launcher/detail/restarting_code_launcher_provider.cpp:16-30 | refused exactly for an unknown language, `storage.at` never throws, waits exactly on an empty list; a lease is the last container, with the image Docker reports or none if that call fails |
| `Startup.RestartingCodeLauncherProvider.ServeOnce` | src/core/code_launcher/detail/callbacked_code_launcher.cpp:5-10 | lease and release of one request: unless a call fails, a fresh container of the same image and language has the place of the used one in list and Docker, and nothing else changed |
| `Startup.RestartingCodeLauncherProvider.RestartCodeLauncher` | src/core/code_launcher/detail/restarting_code_launcher_provider.cpp:32-38 | the used container goes, and then, in this order, a fresh one of the same image and language is launched and appended; both certain unless Docker has an outage |
| `Startup.ReadyStarts` | src/core/code_launcher/detail/container_manipulator.cpp:44-48 | what startup leaves is an initial state of the protocol, for any requests |
| `Startup.Docker.Run` | src/core/docker_wrapper.cpp:103-116 | a new id with the image, or the empty id and nothing changed |
| `Startup.Docker.IsRunning` | src/core/docker_wrapper.cpp:53-61 | whether the container is running, and false where the call fails |
| `Startup.Docker.GetImage` | src/core/docker_wrapper.cpp:63-71 | the image of an existing container, or the empty string where the call fails |
| `Startup.Docker.Kill` | src/core/docker_wrapper.cpp:73-86 | unless there is an outage, stops this container exactly if it is running |
| `Startup.Docker.Delete` | src/core/docker_wrapper.cpp:88-101 | unless there is an outage, deletes this container exactly if it exists and is not running |
| `Startup.Docker.GetAllContainers` | src/core/docker_wrapper.cpp:27-51 | all containers once each, in any order, or nothing on failure |
| `Pool.ReadyGrows` | src/core/code_launcher/detail/storage.hpp:40-44 | a ready pool stays ready with a freshly launched container appended |
| `Markers.MarkersAreAFamily` | src/common/detail/answer_common.hpp:31-41 | no marker overlaps, contains, prefixes or suffixes another or itself shifted, and none holds a line break |
| `MarkerTheory.MarkersNeverOverlap` | src/common/detail/answer_common.hpp:31-41 | two occurrences of markers in any text are apart or the same |
| `Text.Find` | src/core/code_launcher/detail/process_chapter.cpp:8-8 | the first occurrence, or the largest `size_t` exactly if there is none |
| `Text.SubstrOfTail` | src/core/code_launcher/detail/process_chapter.cpp:12-14 | cutting letters off a tail with wrapping counts: a tail that is too short is left uncut |
| `Answer.GetExitCode` | src/common/detail/answer_common.cpp:18-32 | the two loops give the verdict: a timeout suffix first, then the first marker of the table that occurs |
| `Answer.VerdictMeans` | src/common/detail/answer_common.cpp:18-32 | each verdict by what the text holds: success wins over failed code, and that over failed tests, if no timeout code ends the text |
| `Answer.Lengths` | src/common/detail/answer_common.cpp:8-16 | the lengths of the markers as the decoder uses them |
| `Answer.RemoveEscapeSequencesTender` | src/common/detail/answer_common.cpp:46-58 | the erasing loop equals the four passes one after the other |
| `Stripping.StripEach` | src/common/detail/answer_common.cpp:46-58 | erasing in place, over any patterns, equals the fold of the single passes |
| `Stripping.StripMeaning` | src/common/detail/answer_common.cpp:49-55 | a pass cuts the line break behind the first escaped occurrence of its marker, and nothing if there is none |
| `Stripping.CutMovesMarkers` | src/common/detail/answer_common.cpp:54-55 | erasing a line break behind a marker neither creates nor destroys an occurrence of any marker |
| `Stripping.ComesFrom` | src/common/detail/answer_common.cpp:46-58 | every occurrence of a marker in the stripped text comes from one in the original, at most one line break a pass further on |
| `Stripping.PassesCommute` | src/common/detail/answer_common.cpp:48-56 | any two passes can be exchanged |
| `Answer.StrippingKeepsVerdict` | src/common/detail/answer_common.cpp:18-58 | for every text the verdict after stripping is the verdict before |
| `Answer.StrippingOrderIsFree` | src/common/detail/answer_common.cpp:5-58 | every order of the four patterns gives the same text |
| `Answer.StrippingLength` | src/common/detail/answer_common.cpp:46-58 | the text shrinks by two letters for each of the four escaped markers that occurs in the original |
| `Responses.ChapterOutputMeaning` | src/core/code_launcher/detail/process_chapter.cpp:7-17 | what the wrapping index arithmetic comes to in plain arithmetic, with the separator missing or the markers out of order |
| `Responses.DecodeIsTotal` | src/core/code_launcher/detail/process_chapter.cpp:7-60 | decoding never throws for any text and any action, and the status is the verdict on the raw text, one of 0, 1, 2, 3, 124, 125, 137; without a verdict nothing of the text is passed on |
| `Responses.DecodeMeaning` | src/core/code_launcher/detail/process_chapter.cpp:7-60 | what the decoder makes of any text whatever, in all paths: the exact slices of the stripped or plain text, with or without the inner marker, or the internal error |
| `Responses.TimeoutDominates` | src/common/detail/answer_common.cpp:18-24 | the status is 124, 125 or 137 exactly if the raw text ends with that code and a line break, in all three paths |
| `Responses.SuccessMeans` | src/core/code_launcher/detail/code_launchers.cpp:48-71 | status 0 exactly if the execution failed, or the answer holds the marker of success and no timeout suffix |
| `Responses.NoAnswerMeans` | src/core/code_launcher/detail/code_launchers.cpp:50-58 | without an answer there is no tests' output; an archive that could not be put gives -1 and nothing, a failed execution 0 and its message |
| `Responses.FailedExecutionLooksLikeSuccess` | src/core/code_launcher/detail/code_launchers.cpp:56-58 | a concrete failed execution is reported as a success without any marker |
| `RoundTrips.ChapterRoundTrip` | src/core/code_launcher/detail/process_chapter.cpp:7-60 | an answer put together from outputs and verdict decodes to exactly these, if and only if the user's output lacks the inner marker, neither output holds another escaped marker, and neither holds the marker of a stronger verdict |
| `RoundTrips.PlainChapterRoundTrip` | src/core/code_launcher/detail/process_chapter.cpp:23-59 | the same for answers that do not end with a line break, with its own exact condition |
| `RoundTrips.PlainUserErrorRoundTrip` | src/core/code_launcher/detail/process_chapter.cpp:19-59 | without a line break at the end, the user's output comes back with status 1 if and only if it does not hold the marker of success |
| `RoundTrips.PlainPlaygroundRoundTrip` | src/core/code_launcher/detail/process_playground.cpp:7-44 | without a line break at the end, a playground's output comes back if and only if it does not hold the marker of success |
| `RoundTrips.UserErrorRoundTrip` | src/core/code_launcher/detail/process_chapter.cpp:19-35 | the user's output comes back with status 1 and no tests' output if and only if it holds no escaped marker and no marker of success |
| `RoundTrips.PlaygroundRoundTrip` | src/core/code_launcher/detail/process_playground.cpp:7-45 | a playground's output comes back with status 0 if and only if it holds no escaped marker and no marker of success |
| `Playgrounds.PlaygroundNeverSplits` | src/core/code_launcher/detail/process_playground.cpp:15-22 | on the pattern its comment names, the playground decoder gives the user's output alone for no user's output and no tests' output |
| `Playgrounds.PlainPlaygroundNeverSplits` | src/core/code_launcher/detail/process_playground.cpp:15-44 | nor does it without line breaks behind the markers |
| `Playgrounds.PlaygroundOfChapterFrame` | src/core/code_launcher/detail/process_playground.cpp:7-45 | on that pattern it gives the user's output, the inner marker and the tests' output together if and only if the user's output holds no escaped marker, the tests' output none but the inner one, and neither the marker of success |
| `RoundTrips.ReportRoundTrip` | src/core/code_launcher/detail/process_chapter.cpp:23-60 | each of the three kinds of a chapter's answer decodes to what it was written from if and only if it is clear |
| `RoundTrips.RunReport` | src/core/code_launcher/detail/code_launchers.cpp:48-71 | running a chapter or a practice brings back the status and outputs the container reported, if and only if the report is clear |
| `RoundTrips.RunPlayground` | src/core/code_launcher/detail/code_launchers.cpp:60-65 | running a playground brings back the user's output, if and only if it holds no escaped marker and no marker of success |
| `RoundTrips.RunFailure` | src/core/code_launcher/detail/code_launchers.cpp:60-65 | running code that fails brings back its output, under its own exact condition, for every action |
| `RoundTrips.MarkerFreeIsClear` | src/common/detail/answer_common.hpp:31-53 | answers whose parts hold no marker are clear, whatever line breaks they hold |
| `RoundTrips.FramingIsInjective` | src/core/code_launcher/detail/process_chapter.cpp:23-60 | no two clear answers of a chapter, tests passed, tests failed or user's code failed, are written alike |
| `Paths.JoinPlain` | src/common/detail/project_utils.cpp:17-24 | `operator/` of paths is plain joining for a name without separator |
| `Project.PathList.Add` | src/common/detail/project_utils.cpp:13-20 | one entry with its flags is appended |
| `Project.PathList.AddFiles` | src/common/detail/project_utils.cpp:16-21 | the files of a directory are appended in order |
| `Project.PathList.RecursiveFillAbsolutePaths` | src/common/detail/project_utils.cpp:11-26 | the recursion on the shared vector appends exactly the preorder listing of the directory |
| `Project.GetPathsToFiles` | src/common/detail/project_utils.cpp:28-32 | the listing of the root under its own name |
| `Unflattening.ParseFlatten` | src/common/detail/project_utils.cpp:11-26 | reading a directory off a listing gives the directory back and leaves whatever follows it |
| `Unflattening.UnflattenFlatten` | src/common/detail/project_utils.cpp:11-32 | every tree whose directories have plain names and whose files are not absolute is rebuilt exactly from its listing, siblings of the same name included |
| `Unflattening.FlattenIsInjective` | src/common/detail/project_utils.cpp:11-32 | no two such trees have the same listing |
| `Unflattening.WellFilledIsReadable` | src/common/detail/project_utils.cpp:11-32 | trees with plain names are such trees |
| `Unflattening.SeparatorsCollide` | src/common/detail/project_utils.cpp:23-25 | with a separator in the name of a directory, two different trees have the same listing |
| `Unflattening.EmptyNamesCollide` | src/common/detail/project_utils.cpp:23-25 | so with an empty name of a directory |
| `Unflattening.AbsoluteFilesCollide` | src/common/detail/project_utils.cpp:16-17 | so with an absolute name of a file |
| `Listing.ParentsComeFirst` | src/common/detail/project_utils.cpp:11-26 | the parent directory of every entry but the first is listed strictly before it |
| `Listing.SeparatorHidesParent` | src/common/detail/project_utils.cpp:16-17 | with a separator in the name of a file, its parent directory is not listed at all |
| `Listing.PathsAreDistinct` | src/common/detail/project_utils.cpp:11-32 | the paths are pairwise distinct if and only if sibling files and sibling directories have distinct names everywhere in the tree |
| `Listing.EntryCount` | src/common/detail/project_utils.cpp:11-26 | there are as many entries as directories and files in the tree |
| `Listing.DirectoriesAreBare` | src/common/detail/project_utils.cpp:13-14 | in the listing of every tree, entries of directories have no content, are not main, and end with a separator |
| `Traversal.CString` | src/core/detail/directory_traverser.cpp:34-35 | the longest prefix without NUL of a JSON string |
| `Traversal.MakeFile` | src/core/detail/directory_traverser.cpp:33-41 | the longest NUL-free prefixes of name and contents, a line feed exactly where nothing of the contents is left, and the flag |
| `Traversal.RecursiveDirectoryTraverse` | src/core/detail/directory_traverser.cpp:19-52 | the loop and recursion give the tree of the document: nodes with contents are files whatever else they have, unnamed directories stay empty, other nodes are dropped |
| `Traversal.FilesAreNotEmpty` | src/core/detail/directory_traverser.cpp:35-38 | no file anywhere in the tree is empty |
| `Placement.LocationsAreAll` | src/core/detail/directory_traverser.cpp:31-51 | every location of a file or a directory in the document is enumerated |
| `Placement.LocationsAreSorted` | src/common/detail/project_utils.cpp:13-25 | the enumeration is strictly in the order of the listing: a directory, its files, its subdirectories |
| `Placement.ListingOfTheDocument` | src/common/detail/project_utils.cpp:11-32 | the listing of a document is the entries of all its locations, in order |
| `Placement.EntrySays` | src/core/detail/directory_traverser.cpp:19-52 | the entry of a location has the NUL-free names on the way, joined, and the contents and flag of the JSON node, or is a bare directory |
| `Placement.ListingSays` | src/core/detail/directory_traverser.cpp:19-52 | the listing says of each location what the JSON members there say, entry by entry |
| `Placement.DocumentCount` | src/core/detail/directory_traverser.cpp:31-51 | there is one entry for the document and one for each file node and each directory node reached, empty directories included |
| `MainFile.GetMainFile` | src/common/detail/project_utils.cpp:34-41 | the loop gives the path of the first marked entry, or the error |
| `MainFile.MainFileOfADocument` | src/common/detail/project_utils.cpp:11-41 | through both recursions: the lookup fails if and only if no retained file is marked as main, and otherwise gives the joined path of the first such file in the order of the listing |
| `MainFile.FirstMainIsUnique` | src/common/detail/project_utils.cpp:34-41 | that first location is unique |
| `MainFile.ParsePractice` | src/core/parser.cpp:192-239 | traversal, listing and lookup together: the root's name, the listing entry by entry as the JSON says, files never empty and directories always, and the main file the first marked one |

## Left out

- ExtractOnce: models one pass of the critical section; blocking, waking up and the mutex are in the step system, since a sequential method cannot wait.
- RecursiveDirectoryTraverse: builds the tree as a value where the source fills a `Directory` in place; each `Directory` there is new and has one owner, so aliasing is not captured.
- ServeOnce: runs one request on its own, from lease to release; requests side by side are in the step system.
- RunsAreFinite: counts spurious wake-ups in its bound, since a run with endlessly many of them need not end.
- UnflattenFlatten: assumes plain names of directories below the root and no absolute file names; the colliding trees show that this is needed.
- ParseFlatten: the same assumption.
- FlattenIsInjective: the same assumption.
- ParentsComeFirst: assumes non-empty names without separators below the root; `Listing.SeparatorHidesParent` shows what happens otherwise.
- PathsAreDistinct: assumes non-empty names without separators below the root.
- Docker.Run: Docker is an abstract map with success and failure of each call; the HTTP client and its answers are not part of this model.
- Containers that somebody else removes or stops while the service runs, and a restart of Docker, are not modelled.
- The web server, the thread pool and the scheduler library: only a finite set of request threads and one serial job thread are kept.
- RapidJSON, the required-field checks of the request parser and the writing of JSON answers: documents are taken as parsed trees, and file nodes are taken to be named, as the traversal asserts.
- The bytes of the tar archives, and the two-file archive of a chapter: only the listing that goes into them is modelled.
- The configuration file and logging: a configuration is a value; `maxContainersAmount` is not used by the pool.
- `removeEscapeSequences`: nothing calls it.
- The builders of command-line arguments and the early answer for a chapter without sources: plain concatenation and one branch.
- What the scripts in the images print: answers are any text in the totality results, and framed text in the round trips.
- Texts longer than 2^63 - 1 letters, which `std::string` cannot hold.
