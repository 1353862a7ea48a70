# Verified model of nktest

nktest starts Postgres and Nakama in a podman pod for Go tests, proxies their
traffic, and collects their logs. This project models the parts of it that
carry state, concurrency or arithmetic, and proves what holds of them over
every input, every interleaving and every sequence of runs. All claims are
proofs about the model.

- `Relay.dfy`, `Pump.dfy` (proxy.go): the websocket relay. Two pumps, a
  one-slot error channel, a context and a handler are a step system whose every
  interleaving is considered; the pump loop itself is a method whose every
  execution, alone or among the others, is shown to be one of those runs.
- `Prefix.dfy` (log.go): the prefixing writer on a heap of Go slices, where
  `append` writes into spare capacity or allocates.
- `Console.dfy`, `Json.dfy` (log.go): the console writer, line by line. The JSON
  library, level names, clock and Postgres line pattern are parameters;
  `Json.dfy` gives a concrete codec that meets what is asked of them.
- `Backoff.dfy` (ctx.go): delays with an exact real factor and truncation, and
  the retry loop as written.
- `Semver.dfy`, `VersionCache.dfy` (ctx.go, runner.go): the greatest common
  version tag, and the cache file in front of it over any sequence of calls.
- `Ports.dfy` (ctx.go, podman.go): qualified image ids and the shared port map.
- `SubDir.dfy` (runner.go): the climb of `IsSubDir`.
- `Lifecycle.dfy` (runner.go, podman.go): a run from the kill of leftovers to the
  teardown, with a failure or the end of the process possible in every call.
- `Text.dfy`, `Wrappers.dfy`: string functions and result types they share.

## Where the code and its comments disagree

- `Backoff` (ctx.go:434-435) is said to stop when the context is closed. The
  `break` at ctx.go:451 leaves only the `select`, so it never does: it calls its
  function again at once, without any wait (`Backoff.NoWaitOnceClosed`).
  `Backoff.DocumentedIff` says on which runs this cannot be noticed.
- Closing the context from outside does not end the relay. A pump blocked in a
  read stays there, a pump that polls leaves without sending an error, and the
  handler of proxy.go:164 waits until some error is sent. It is sure to finish
  only once an error was received, is buffered or is about to be sent
  (`Relay.FinishIsCertain`), and can no longer finish at all when neither pump is
  inside an iteration (`Relay.FinishesUnlessStranded`).
- `prefixedWriter.Write` returns the count of the text it hands down, not of its
  argument: more than its length for any text without a line end to trim, and
  its length only by a coincidence that is stated exactly
  (`Prefix.ReturnedCount`, `Prefix.LineCount`).
- `prefixedWriter.Write` appends behind a prefix slice it keeps, and proxy.go:118
  gives one such writer to all handlers at once. Two calls that both append
  before the first has written corrupt the first text exactly when both bodies fit
  into the room behind the prefix and differ where they overlap
  (`Prefix.PrefixedWriter.WriteBoth`, `Prefix.OverlaidKeeps`).
- ctx.go:377 tests the length of the nakama list a second time where the
  pluginbuilder list is meant; an empty pluginbuilder list ends in the later
  "no available version" error instead (`VersionCache.EmptyListErrors`).
- `IsSubDir` (runner.go:718-741) climbs a path that is not cleaned. One that ends
  in a double dot goes to the child first, so the parent of the root, spelled
  through the root as in `/a/..`, passes as its subdirectory, and runner.go:109
  asks this of a volume directory as it was given (`SubDir.ParentPasses`,
  `SubDir.TopPasses`). `SubDir.DoubleDotDecides` says that this is all that can go
  wrong for an absolute path that names the file its clean form names.
- `BuildModule` starts its container in `r.podId` (runner.go:281) before the pod
  of the run exists: with no pod on a first run, and in the pod of the run before
  on a repeated one, which that run has just killed. While removals succeed, a
  runner with modules that returned nil therefore never does so again
  (`Lifecycle.ReturnsOnce`), although every answer it gets may be well; with
  nothing to build it always does (`Lifecycle.ReturnsAgainIff`,
  `Lifecycle.Runner.RunAgain`). `Lifecycle.Runner.Run` gives the exact condition.
- A `Run` that fails after its pod was made starts no teardown; the pod stays
  until the next run (`Lifecycle.FailedRunLeaves`, `Lifecycle.RunRecovers`).

## Assumptions

- A read or write on a closed socket fails, and a write on an open one comes
  back. Nothing else is assumed of the scheduler: the shutdown results bound the
  number of program steps and name every state in which none is left.
- Calls of `NakamaVersion` on one cache file do not overlap, its writes are
  atomic, a failed write leaves the old file, the file does not exist at first
  and nobody else writes it. Runs of a `Runner` in one directory do not overlap.
- A context that is closed stays closed, and a `select` that finds it closed
  takes that case rather than a timer just armed.
- The goroutine of a build (runner.go:293-296) may remove its builder container at
  any time, or never.
- Podman gives an identifier out once and refuses a container for a pod that
  does not exist.
- Text is a sequence of characters, not bytes; the JSON library reads back what
  it writes, as one line (section 7 of RFC 8259).
- zerolog and the semver package are modelled from their published behaviour.

## Model

| member | source | states |
|---|---|---|
| Relay.RelayIsFaithful | proxy.go:182-210 | in every reachable state and direction the messages written are a prefix of those read, and those a prefix of those the peer sent, one message in hand at most |
| Relay.SenderNeverStuck | proxy.go:159-207 | a pump with an error to send can send it, or the handler can receive and the pump can send after that |
| Relay.ErrorReportedIffErrorExit | proxy.go:164-207 | when both pumps are gone, an error was received or is buffered exactly when one left by an error, and the handler waits with nothing to come exactly when both left through the context |
| Relay.ErrorsComeFromPumps | proxy.go:164-207 | an error received or buffered is that of a pump that left by it, and two are those of the two pumps |
| Relay.SocketsOfPumps | proxy.go:162-163 | the upward pump reads the incoming socket and writes the outgoing one, the downward pump the other way round |
| Relay.ClosedInOrder | proxy.go:148-161 | the context is closed before the incoming socket and that before the outgoing one, after an error was received |
| Relay.AnythingCanBeRelayed | proxy.go:182-210 | whatever the two peers send each other can be delivered in full |
| Relay.ShutdownTerminates | proxy.go:148-210 | once the context is closed any continuation has at most fourteen program steps and forwards at most one more message each way |
| Relay.RestingStates | proxy.go:158-210 | the states in which no program step is left are exactly: all finished, or the handler waiting and each pump in a read or gone through the context |
| Relay.ReceivedErrorEndsBothPumps | proxy.go:148-168 | after a received error, a state with no step left has both pumps and the handler finished and both sockets closed |
| Relay.StrandedForever | proxy.go:164-193 | from a closed context with no pump inside an iteration and no error sent, the handler waits in every continuation |
| Relay.ParentCancelCanStrand | proxy.go:160-193 | such a state is reachable, with both sockets open |
| Relay.FinishesUnlessStranded | proxy.go:158-207 | from a reachable state some continuation ends with the handler finished exactly when the state is not such a one |
| Relay.FinishIsCertain | proxy.go:158-207 | from a reachable state every run that comes to rest ends with handler and pumps finished exactly when an error was received, is buffered or is about to be sent |
| PumpLoop.Ws | proxy.go:182-210 | a pump that runs alone forwards the longest prefix of the messages that context, source and sink allow, logs all it read, sends its error unless it left through the context, and is a run of the relay |
| PumpLoop.WsAmong | proxy.go:182-210 | whatever the others do before each of its shared operations, the nested loop does turn by turn what a machine does that only looks at where the pump is, logs what its history says, and has exited when it returns before the turns end |
| PumpLoop.OwnChooses | proxy.go:187-207 | that machine stands still only when the pump can do nothing, and a read or write that can succeed does so exactly when it is let |
| PumpLoop.MachineRuns | proxy.go:182-210 | what that machine does is an interleaving of the relay, whatever the others do |
| PumpLoop.MachineIsFaithful | proxy.go:158-210 | so what is written is a prefix of what is read, and that of what is sent, wherever it ends |
| PumpLoop.LogLineReadsBack | proxy.go:195-203 | a reader of the log line gives back type and payload of every message: text is type 1, binary in hexadecimal type 2, any other type stands in brackets |
| PumpLoop.LogLineDeterminesMessage | proxy.go:195-203 | so the log line determines the message |
| Prefix.PrefixedWriter.constructor | log.go:103-108 | the new writer holds the prefix in an array of its own |
| Prefix.PrefixedWriter.Write | log.go:111-125 | one downstream write of the prefixed text; prefix contents and the caller's buffer are as before, whether append reused spare capacity or not |
| Prefix.PrefixedWriter.WriteBoth | log.go:111-125 | of two calls that append before either writes, the second hands down its own text, and the first its own with the second's body over the start of its body exactly when both fit behind the prefix |
| Prefix.OverlaidKeeps | log.go:111-125 | that leaves the first text right exactly when the bodies agree as far as both go |
| Prefix.PrefixedIsPerLine | log.go:111-125 | the text handed down is prefix, line and newline for each line of the right-trimmed input |
| Prefix.PrefixRoundTrip | log.go:111-125 | splitting the output and stripping the prefix gives back the right-trimmed input |
| Prefix.LoggedPrefixed | log.go:131-134 | a log writer passes prefixed output on unchanged |
| Prefix.ReturnedCount | log.go:111-125 | the count a call returns, exactly when it is the argument's length and when it is more, and that it is more for any text that does not end in a line end |
| Prefix.LineCount | log.go:111-125 | one line with its newline is counted longer by the whole prefix |
| Console.ConsoleWriter.Write | log.go:171-234 | a call, over the sink or over any number of writers with the same field and no short name nk, does to the sink exactly what the line-by-line handling says, up to the first failed write or panic; over any writer it stops at the first downstream write that does not go through, and returns the length only when it gets through |
| Console.ConsoleWriter.Down | log.go:223-231 | a finished record written to such a stack reaches the sink as one equal write |
| Console.ConsoleWriter.BuildRecord | log.go:177-214 | the in-place map updates yield the normalised record, or the panic of a null line |
| Console.NormalizeFinishes | log.go:177-214 | every record has an id, a timestamp, a caller and a level and loses no field, a failed decode included; only a null line has none |
| Console.OwnRecordDemoted | log.go:182-196 | for a writer named nk, an object line with a caller and no runtime, or one that begins with go1., comes out with caller nk and its level quietened: kept above info, and trace otherwise |
| Console.OtherRecordKept | log.go:182-213 | with any other runtime, with no caller, or for a writer with another name, an object line keeps its caller and level |
| Console.WriteHomomorphism | log.go:171-234 | writing a, a newline and b is writing a and then b, over any writer below |
| Console.WriteSelects | log.go:171-234 | with nothing failing and no null line, the downstream writes are the records of the selected lines |
| Console.PanicsIffNull | log.go:173-198 | with nothing failing below, a call gets through exactly when no line is null, and otherwise panics at the first that is, with the records before it written |
| Console.SelectedAtExact | log.go:173-222 | the selected lines are exactly the non-blank ones whose record reaches the threshold, each once and in order |
| Console.FinishedIsFixed | log.go:178-232 | a finished record is unchanged by another writer with the same field exactly when that writer does not demote it or it is already in demoted form |
| Console.StackingAbsorbs | log.go:171-234 | a writer over a second one with the same field and a short name other than nk does exactly what it does alone over whatever lies below, failures included |
| Console.NakamaRecordsQuietened | log.go:182-196 | above a trace threshold Nakama's own records pass exactly when their level is above info and reaches the threshold |
| JsonCodec.MarshalRoundTrip | log.go:178-223 | a concrete codec reads every flat record back and writes it on one line |
| JsonCodec.EnvironmentIsFaithful | log.go:178-223 | the demands made of the JSON library and the level names can be met |
| JsonCodec.NullLinePanics | log.go:177-198 | the concrete codec decodes null to null, so such a line stops the call with nothing written |
| JsonCodec.PaddedObjectDecodes | log.go:178-178 | a leading blank does not stop a record from being decoded |
| Backoff.NextGrows | ctx.go:484-489 | below the cap a delay never shrinks, and grows exactly when the factor adds a whole nanosecond |
| Backoff.DelayRange | ctx.go:444-454 | delays never decrease and stay between Min and Max |
| Backoff.DelayBounds | ctx.go:484-489 | the k-th delay is between min(Max,(Min-c)f^k+c) and min(Max,Min f^k) for c = 1/(f-1) |
| Backoff.DelayIncreases | ctx.go:484-489 | with Min above c, delays below Max strictly increase |
| Backoff.CapReachedIff | ctx.go:484-489 | Max is reached, in Max-Min steps and for good, exactly when Min is Max or the factor adds a whole nanosecond to Min |
| Backoff.DefaultReachesCap | ctx.go:36-36 | the default configuration is at its one second cap from the seventeenth growth on and not before |
| Backoff.Run | ctx.go:436-457 | the loop returns only after the first success and without an error; after failure k a timer of the k-th delay is armed, and it is waited for exactly when the context is not found closed |
| Backoff.NoWaitOnceClosed | ctx.go:443-454 | the waits are the delays of the failures before the first that finds the context closed, and no later attempt waits at all |
| Backoff.DocumentedIff | ctx.go:434-457 | loop and comment agree exactly on the runs in which no failed attempt before the first success finds the context closed |
| Backoff.ClosedContextDoesNotStop | ctx.go:448-454 | on a closed context and a failing function the loop is still running after any number of attempts, none of which waited |
| Backoff.WaitsBeforeDeadline | ctx.go:441-454 | with positive delays and a factor of at least one, at most Timeout/min(Min,Max) waits end by the deadline |
| Backoff.ElapsedCounts | ctx.go:441-454 | the count of those waits is the number of failed attempts whose timer ran out by then |
| Semver.CompareIntIsNumeric | ctx.go:395-395 | comparing digit strings by length and then as strings compares the numbers, without leading zeros |
| Semver.LessIsNumeric | ctx.go:395-395 | the sort order is numeric by major, minor, patch, and equal numbers mean equal tags |
| Semver.LessIsStrictTotal | ctx.go:395-395 | it is a strict total order on all tags the pattern accepts |
| Semver.TripleIsTag | ctx.go:382-382 | three runs of digits with dots between them are a tag |
| Semver.TagIsTriple | ctx.go:382-382 | every tag is three runs of digits with dots between them |
| Semver.TagOfNumbers | ctx.go:382-395 | the tag of any three numbers is one the semver package accepts, and its numbers are those |
| Semver.TagsInOrder | ctx.go:395-395 | tags of numbers are ordered by major, then minor, then patch |
| Semver.SortAscends | ctx.go:395-395 | sorting yields an ascending arrangement |
| Semver.PluginbuilderTags | ctx.go:382-387 | the map holds exactly the version tags of the list |
| Semver.NakamaTags | ctx.go:389-394 | the slice holds exactly the version tags of the list |
| Semver.Select | ctx.go:381-407 | the result is the greatest common version tag, and there is none exactly when no tag is common |
| Semver.SelectionOfSets | ctx.go:381-407 | order and repetition of tags do not matter |
| Semver.SelectionIsNumericMaximum | ctx.go:396-406 | no common tag without leading zeros is numerically above the selected one |
| VersionCache.Host.NakamaVersion | ctx.go:343-408 | answer and cache file after a call, in every branch and error |
| VersionCache.FreshAnswers | ctx.go:344-361 | a pinned version answers itself; otherwise a readable file within its time to live does, whatever the registry says, and stays as it is |
| VersionCache.ErrorsExact | ctx.go:343-407 | each error arises exactly in its own case, and leaves the file as it was |
| VersionCache.RefreshFailsIffNoCommon | ctx.go:362-407 | with the registry answering and the file writable, a refresh fails exactly when no tag is common, and otherwise gives the greatest |
| VersionCache.NoMatchIff | ctx.go:364-407 | the no available version error arises exactly when both lists were fetched, the nakama one is not empty, and no tag is common |
| VersionCache.EmptyListErrors | ctx.go:365-380 | an empty pluginbuilder list ends in that error, an empty nakama list in one of its own |
| VersionCache.CachedTextRoundTrip | ctx.go:360-402 | the newline written and the trim on reading cancel |
| VersionCache.EntryComesFromRefresh | ctx.go:359-402 | the file is always what the last refreshing call selected and wrote |
| VersionCache.CacheAgreement | ctx.go:344-406 | over any sequence of calls each unpinned success is a selection whose write is no older than the time to live |
| VersionCache.FreshUntilExpiry | ctx.go:359-402 | after a call that selected and wrote a version, every unpinned readable call within the time to live answers it, registry or not, until another call refreshes |
| VersionCache.SameAnswerUntilRefresh | ctx.go:359-361 | two unpinned successes with no refresh between them agree |
| Ports.QualifiedIdempotent | podman.go:320-329 | qualifying twice is qualifying once |
| Ports.QualifiedTag | podman.go:320-329 | tagging commutes with qualifying |
| Ports.KeyInjective | ctx.go:101-105 | keys determine image and service, for services that do not clash |
| Ports.KeysSharedIff | ctx.go:101-105 | two services have images, or none, that share a key exactly when one of them ends in a colon and the other |
| Ports.LookupIsMostSpecificLatest | ctx.go:94-251 | after registrations of services that do not clash with the one looked up, a tagged image gets its own latest port, else the image's, else the service's, else the default |
| Ports.ClashMisleads | ctx.go:94-251 | a registration of one service can give a lookup of another a port registered for something else exactly when the two clash |
| Ports.ColonServiceClashes | ctx.go:101-105 | a concrete service whose registration is found under an image it was not made for |
| Ports.WithPortMap | ctx.go:94-107 | one registration is added to the shared table, or to a new one when the context has none |
| Ports.HostPortMap | ctx.go:236-251 | the lookup loop gives the specified port |
| Ports.WithHostPortMap | ctx.go:111-118 | the four default registrations are added, in order |
| Ports.UnreplacedDecides | ctx.go:94-251 | a registration that is not replaced, for an image without one for the tag and a service nothing clashes with, decides the tagged lookup |
| Ports.DefaultServicesPublished | ctx.go:109-118 | with the default registrations every default image, under any tag, gets the default host ports |
| Ports.RunnerImagesPublished | ctx.go:25-26 | with the default registrations the images the runner uses by default, under any tag, get 5432, 7349, 7350 and 7351 |
| Ports.PodPublishesDefaults | podman.go:123-130 | a pod then maps each default service to the host port of its own number |
| Ports.ParseServiceIff | podman.go:340-353 | a definition, with or without a slash, parses exactly when its number is a sixteen-bit decimal, into that number and protocol |
| Ports.PodPorts | podman.go:115-131 | one mapping for each service of each image, image by image, with the number and protocol of the service and the port registered for the image, or none; or else the first image or service at fault |
| Ports.MappingsAt | podman.go:117-130 | the mappings of an image stand in one piece after those of the images before, and each has its service's number, protocol and latest registered port |
| SubDir.DirShortens | runner.go:734-738 | the directory of a path is the path itself only for the root and the dot, and lowers the rank of any other |
| SubDir.IsSubDir | runner.go:718-741 | an absolute and a relative path are an error; of two absolute ones the second passes exactly when the first exists and the second is its file, or exists and has an ancestor above its directory part that is, with everything nearer existing |
| SubDir.VerdictErrors | runner.go:726-740 | the error names the first path that is missing, or says that every path exists and none is the root |
| SubDir.PassesIffFound | runner.go:726-733 | the verdict is to pass exactly when the root is visited and every path up to there exists |
| SubDir.ClimbOfClean | runner.go:734-738 | the climb from a clean path visits it and its lexical ancestors, nearest first |
| SubDir.ClimbOfAny | runner.go:734-738 | the climb from any path visits the path as it is, then its clean directory part and that one's lexical ancestors |
| SubDir.PassesIff | runner.go:718-741 | any path passes exactly when it is the root's file, or exists and a lexical ancestor of its directory part is, with everything nearer existing |
| SubDir.PassMeansContained | runner.go:718-741 | a path that does not end in a double dot passes exactly when the root contains its clean form |
| SubDir.DoubleDotDecides | runner.go:718-741 | for an absolute path passing means containment of the clean form, in every file system where both name the same file, exactly when it does not end in a double dot below the top |
| SubDir.ParentPasses | runner.go:108-111 | the parent of any root, spelled through the root, passes |
| SubDir.TopPasses | runner.go:718-741 | so does `/a/..` under the root `/a` |
| Lifecycle.Podman.PodKill | podman.go:98-112 | only pods of the name go, with their containers; it runs to its end exactly when the pods could be listed and the process did not end, and takes all of the name when no removal failed |
| Lifecycle.Podman.RemoveContainer | podman.go:190-204 | the container named goes exactly when its removal was reached and succeeded, nothing else goes, and the errors stop nothing |
| Lifecycle.Podman.CreatePod | podman.go:115-159 | the pod is made exactly when its creation was reached and succeeded; its id is returned only when everything did, and then always |
| Lifecycle.Podman.RunContainer | podman.go:162-187 | the container is made exactly when its creation succeeded and its pod exists; its id is returned only when it was started too, and with every answer well always |
| Lifecycle.Runner.BuildModule | runner.go:217-319 | at most one container, a builder in the pod the runner knew before, which may go at any time; with every answer well it succeeds exactly when that pod exists |
| Lifecycle.Runner.BuildModules | runner.go:204-214 | one builder for each module, or fewer when one fails, and no other container; with every answer well it succeeds exactly when there is no module or the pod exists |
| Lifecycle.Runner.WaitService | podman.go:263-297 | an error exactly when the address was refused or not shown, cut exactly when the process ended; the addresses are those this call was shown for the service |
| Lifecycle.Runner.RunPostgres | runner.go:322-356 | success means a container, both addresses recorded from this call and a ping answered, in this order, and no other container; with every answer well it comes exactly when the pod exists |
| Lifecycle.Runner.RunNakama | runner.go:359-423 | at most a container on the recorded database address, and on success every other address as shown during this call; with every answer well it succeeds exactly when the pod exists |
| Lifecycle.Runner.RunServices | runner.go:184-191 | the new containers are those logged, Nakama's only after Postgres answered and on the address recorded then; on success, which comes with every answer well, both are there |
| Lifecycle.Runner.Prepare | runner.go:142-174 | before the pod is made only pods of the run's name go, with their containers; the kill has run once setup and listing succeeded, whatever fails after it, and builders, the only new containers, are made only after version and images; with every answer well it succeeds exactly when there is no module or the pod remembered is still there |
| Lifecycle.Runner.Launch | runner.go:176-191 | at most one new pod, all new containers in it and in the log, and on success both services up in it; with every answer well it succeeds |
| Lifecycle.Runner.Run | runner.go:141-201 | but for builders that have gone, the containers are those outside the killed pods and those the log says were made; a Nakama container only after this run's ping, on the address recorded then; nil only with both containers in the pod and every address shown during the run, and with every answer well exactly when the run can build; once setup and listing succeeded, and without a refusal, the pods of the name are those this run made, whichever later call failed |
| Lifecycle.Runner.StopContainers | runner.go:194-197 | the two containers are stopped, removed and waited for, Nakama's before Postgres's, cut short exactly when the process ends; with every answer well neither is left |
| Lifecycle.Runner.Teardown | runner.go:192-199 | Nakama, Postgres and pod in this order, cut short exactly when the process ends; the kill runs to its end exactly when the pods can be listed; nothing but builders, the runner's containers and pods of its name goes, and no pod of the name is left when no removal fails |
| Lifecycle.Runner.RunAndTearDown | runner.go:141-201 | a nil run and a teardown whose kill ran through without a refusal leave no pod of the name, and of the run's containers at most builders; with every answer well it comes to that exactly when the run can build |
| Lifecycle.RunsStaySafe | runner.go:141-201 | over any number of runs no Nakama container leans on the ping of another run |
| Lifecycle.Runner.RunGrounds | runner.go:176-191 | if every Nakama container there is was made after its run's ping as the log shows, so it is after another run |
| Lifecycle.PrefixStaysSafe | runner.go:141-201 | so it is at every moment of a run, not only at its end |
| Lifecycle.RunRecovers | runner.go:147-183 | whatever was left before, a run that makes its pod does so with no other of that name and leaves exactly one |
| Lifecycle.FailedRunLeaves | runner.go:141-191 | a run that does not return nil leaves the pods of other names alone, and its own new pod if it made one |
| Lifecycle.LeftoversDoNotPileUp | runner.go:147-201 | over any sequence of runs the pods of a name never exceed one or what there was at first, and are at most one after any run that made its pod |
| Lifecycle.RepeatFails | runner.go:147-176 | a run whose runner has modules and remembers a pod of its name kills that pod and fails without making one |
| Lifecycle.ReturnsOnce | runner.go:141-201 | with modules and no failed removal, no run of a runner after one that returned nil returns nil or makes a pod |
| Lifecycle.ReturnsAgainIff | runner.go:141-201 | a later run with every answer well returns nil exactly when there is nothing to build |
| Lifecycle.Runner.RunAgain | runner.go:141-201 | with every answer well the first run of a new runner returns nil, and its second does exactly when there is nothing to build |
| Lifecycle.Podman.CountsTell | podman.go:98-187 | what is meant by a range of answers being well, or free of the end of the process, is that each of them is |

## Left out

- Backoff.DelayBounds: factors are exact reals, so the rounding of `float64` products and the overflow of 64-bit durations are not modelled.
- JsonCodec.MarshalRoundTrip: only flat records of strings and natural numbers; nested values, the decoder's white space inside a record and Go's sorted member order are not modelled, and no result of module Console depends on them.
- SubDir.IsSubDir: whether `filepath.Rel` fails on two relative paths is a parameter; the callers pass an absolute root.
- SubDir.DoubleDotDecides: what passing means is stated for absolute paths; a relative path with leading double dots climbs to the working directory.
- Console.ConsoleWriter.Write: over a writer with another field or the short name nk nothing is promised of the sink; the wiring (podman.go:210-211, nktest.go:85) has none.
- PumpLoop.Ws: the context closes between two iterations and nobody else moves; PumpLoop.WsAmong is the loop among the others.
- VersionCache.CacheAgreement: concurrent calls and torn cache writes are not modelled.
- Lifecycle.Runner.BuildModule: the rewriting of the build configuration is not modelled.
- Lifecycle.Runner.WaitService: the retry is taken to end only in a success or with the process, which is what Backoff.Run shows of it.
- The websocket handshake, dial errors, the reverse proxy and request dumping of proxy.go wrap network libraries.
- Registry and token requests (docker.go) are the answers of a call in VersionCache.
- The order of podman connections and the loop of `PodmanOpen` are short and carry no further state.
- The option setters, default getters, configuration template, accessors, sample module and process entry points are settled by reading one line each.
- Failures of the writer below `prefixedWriter` are handed back unchanged and are not modelled.
