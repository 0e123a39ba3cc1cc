# SOK, verified models

SOK is a multi-process HTTP/HTTPS file server in C++. These Dafny modules model the parts of it
whose correctness is not visible from any one function, and prove what they promise.

* `ConnectionDispatch`, `ConnectionSafety`, `ConnectionOutcome`, `ConnectionReuse`: the event loop, the
  worker tasks and the table of TLS objects of one process, as a transition system with one step per
  critical section or system call. Events arrive in any order and may be stale; any queued task may
  start at any time.
* `ThreadPool`, `ThreadPoolSafety`, `ThreadPoolProgress`: the worker pool, with any number of workers
  and callers of `enqueue`, condition-variable sleeps, spurious wake-ups, and the destructor, which sets
  the stop flag without the mutex.
* `LockFreeQueue`, `LockFreeQueueSafety`, `LockFreeQueueProgress`: the linked queue with an atomic head
  and tail, for any number of producers (swap the tail, then write the link) and one consumer.
* `FileCache`, `FileCacheProperties`: the LRU cache. A class with a list, a map holding list
  iterators and a running byte total is proved against a cache that is one sequence of entries;
  theorems about runs are proved of that sequence.
* `Yaml`, `YamlReader`: the configuration reader. A pointer into the tree is a path, or `Dangling`
  once its target is gone; using a dangling one is an outcome of its own. The parsing loops are
  proved to compute `Yaml.Parse`.
* `YamlNoise`: blank and comment lines. `YamlCanonical`: the documents the reader is meant for and how
  they are written, with maps and block arrays nested to any depth.
* `YamlFits`: which of those are read back, as a count over the document. `YamlRoundTrip`,
  `YamlReading`: they are. `YamlWrites`, `YamlSlots`, `YamlMisplaced`: the others are not.
  `YamlDocument`: the equivalence, and what it comes to for plain kinds of documents. `YamlLosses`:
  what is read instead. `YamlItems`: elements the printer does not write. `YamlErrors`: what is refused.
* `Http`, `Text`: printing a response header, parsing header fields, and what of a response reaches the
  socket, from memory or by `sendfile`.
* `Vector`: the growable array and its amortised cost.
* `Sites`, `Configuration`: registering listeners, choosing a site by port, and the composition of
  the configuration reader, the listeners and the event loop.
* `Prelude`: optional values, results and runs of a transition system.

State machines are partial functions `Next(state, action)`; `Reachable` means "by some finite run".

## What the proofs found

Where the code does not keep a promise in every case, an equivalence says exactly when it does, and a
lemma beside it gives a case where it does not:

* A stale event erases a marker that may belong to a running task (`Core/mstd/EpollManager.hpp:73-77`,
  `StaleEvent`). Mutual exclusion, and with it everything `ConnectionSafety` says about TLS objects and
  ports, holds all the same if `accept` returns no descriptor whose task is in flight and whose marker is
  gone. For mutual exclusion that is exactly what is needed (`AcceptIsSafeIff`,
  `EarlyReuseBreaksExclusion`).
* A connection accepted on a descriptor that its last task has closed but not yet unmapped loses its
  own entry to that task and is then never served, though it stays open
  (`ReusedTooEarlyIsNeverServed`). It can still be served exactly while its descriptor is mapped, and
  unmarked or about to be (`ServedIff`); it may be lost as soon as it is accepted (`TooEarlyIsReached`).
* The pool's destructor can wait for ever for a worker that missed its wake-up: exactly when the flag
  is announced between that worker's test of the predicate and its sleep (`ShutdownGetsStuckIff`,
  `ShutdownCanGetStuck`).
* In the queue, a consumer that sees head and tail differ may read a link its producer has not yet
  written: exactly while such a producer is pending (`LinkMissingIffOwed`). It then puts null into head,
  which it repairs if the link is there by the time it reads the data. A dequeue that has loaded head
  can still follow a null pointer exactly while the link of that node is missing (`DequeueCanCrashIff`,
  `NullIsFollowed`). Until that happens nothing is lost, duplicated or reordered.
* The file cache does not see a write that leaves the modification time (in seconds) unchanged, nor
  the removal of a cached file (`WriteIsSeenIff`, `RemovalIsSeenIff`, `StaleAnswers`). Over a whole run
  it never shows exactly if every write to a cached file raises its time or leaves its content, and no
  cached file is removed, times before the epoch excepted (`TransparentIff`).
* A configuration file is read back exactly if each of its fields finds its own map on top of the
  parser's stack, and no key without a value has an item next (`ReadsBackIff`). The stack is closed by
  columns: an array opens no map for its first two columns, so leaving it closes one map too many; a key
  without a value and an element of a single line leave one too few closed; and one can make up for
  the other. In particular:
  * without arrays, a key without a value must be on the last line (`WithoutArraysIff`); one on the
    first line takes all the fields after it (`EmptyMapTakesItsSiblings`), and one at the end of a map
    keeps that map open (`EmptyMapKeepsItsMapOpen`);
  * without keys without values and single-line elements, what comes next after leaving an array must
    be an item or a field of the root (`RegularIff`): a further field of the map that held the array
    goes to the root (`NestedArrayEndsItsMap`), but an item of an array further out is right, nested or
    not (`ItemAfterInnerArray`);
  * with arrays under the root only, no array with two or more single-line elements may have a field
    after it, which would be written through a dangling pointer (`FlatIff`).
* A response header that meets a full socket buffer is dropped and the body is written after it
  (`HeaderIsDropped`). The response is whole exactly when the one header write took the header, the
  kernel took as many bytes as the body has, and a body sent from a file is still what the file starts
  with (`WireIsWholeIff`). If the file has become shorter, the `sendfile` loop never ends
  (`NeverReturnsIff`).
* A listener that cannot be added to epoll is closed but stays in the registry, and keeps its port
  there for the next listener given the same descriptor (`OwnPortsIff`, `WrongPort`).

The project's own README says that ports are divided among the processes; in the code every process
listens on all of them (`SOK.cpp:128-133`), and the model follows the code.

## Model

| member | source | states |
|---|---|---|
| ConnectionSafety.ReachableKeepsInv | Core/mstd/EpollManager.hpp:34-159 | Every reachable state satisfies one invariant over markers, map, descriptors, tasks, TLS objects and calls; the registry never changes |
| ConnectionSafety.MutualExclusion | Core/mstd/EpollManager.hpp:62-92 | In every interleaving a descriptor has at most one queued or running task, and while it has one it is marked or no longer mapped; also when a descriptor is reused before its last task has unmapped it, as long as the marker is there |
| ConnectionSafety.NoMarkerLeak | Core/mstd/EpollManager.hpp:62-92 | A marker belongs to a task in flight or to the descriptor the loop is processing; none is left at quiescence |
| ConnectionSafety.SecondLookUpSucceeds | Core/mstd/EpollManager.hpp:79-91 | For a descriptor not skipped the second map lookup always succeeds, with the port of the listener of the connection open on it |
| ConnectionSafety.FreedExactlyOnce | Core/protocols/https.hpp:148-156 | Whether the handler or the worker's clean-up frees it, an SSL object is freed at most once, and exactly once by the time its connection's descriptor is closed |
| ConnectionSafety.TlsObjectIsOwn | Core/protocols/https.hpp:110-129 | A handler uses only a live SSL object made for its own connection, never one of an earlier connection with the same number |
| ConnectionSafety.PortAffinity | Core/mstd/EpollManager.hpp:40-59 | Every handler call gets the port registered for the listener that accepted its connection |
| ConnectionOutcome.OutcomeDecides | Core/mstd/EpollManager.hpp:93-154 | In every run from the end of a handler to the end of its task, the connection is open afterwards if and only if the handler returned keep-alive; then its descriptor is mapped to its port and unmarked; otherwise nothing is open for it, and a mapping left is of a later connection |
| ConnectionOutcome.OutcomesIff | Core/protocols/https.hpp:100-156 | Exactly how a handler may end: by either answer, by an exception, by freeing its SSL object, or by refusing a connection that has none stored; and each time the task can come to its end |
| ConnectionOutcome.TaskStepsAreFew | Core/mstd/EpollManager.hpp:93-155 | Every step of a task brings it nearer its end |
| ConnectionOutcome.TaskCanFinish | Core/mstd/EpollManager.hpp:93-155 | From any state a task comes to its end by its own steps alone |
| ConnectionOutcome.LoopStepsAreFew | Core/mstd/EpollManager.hpp:37-90 | Every step of the event loop after an event brings it nearer epoll_wait, whatever accept answers |
| ConnectionOutcome.LoopComesBack | Core/mstd/EpollManager.hpp:37-90 | From any state the event loop comes back to epoll_wait by its own steps alone |
| ConnectionOutcome.StartServesTheConnection | Core/mstd/EpollManager.hpp:94-94 | A started task calls the handler once, for the connection open on its descriptor, with the port of the listener that accepted it |
| ConnectionOutcome.EventIsHandedOver | Core/mstd/EpollManager.hpp:62-92 | An event for a mapped, unmarked descriptor is handed over to a task for the connection open on it, so a kept connection can be served again |
| ConnectionReuse.AcceptIsSafeIff | Core/mstd/EpollManager.hpp:43-55 | After an accept in a reachable state, some continuation has two tasks on one descriptor if and only if the descriptor returned has a task in flight and no marker |
| ConnectionReuse.ServedIff | Core/mstd/EpollManager.hpp:62-113 | With the event loop between events: an accepted connection without a task, the tasks of earlier ones on its descriptor having closed it, can still get a task if and only if its descriptor is mapped, and unmarked or about to be unmarked by a task that has unmapped it already |
| ConnectionReuse.ReusedTooEarlyIsNeverServed | Core/mstd/EpollManager.hpp:107-112 | Once such an earlier task unmaps the descriptor, the event loop being between events, the connection registered on it gets no task and no handler call in any continuation, and stays open |
| ConnectionReuse.TooEarlyIsReached | Core/mstd/EpollManager.hpp:43-112 | A run that accepts such a connection, mapped and already past serving |
| ConnectionReuse.StaleEvent | Core/mstd/EpollManager.hpp:71-78 | An event for an unmapped descriptor erases its marker and changes nothing else, whoever set the marker |
| ConnectionReuse.EarlyReuseBreaksExclusion | Core/mstd/EpollManager.hpp:107-113 | A run on a kernel that reuses descriptors at once, ending with two tasks for one connection |
| ThreadPoolSafety.ReachableKeepsInv | Core/mstd/threadPool.hpp:17-64 | Every reachable state satisfies the pool's invariant; the number of workers is fixed |
| ThreadPoolSafety.FirstInFirstOut | Core/mstd/threadPool.hpp:23-28 | Tasks taken, then tasks queued, are the tasks accepted, in order; a worker about to take one finds one |
| ThreadPoolSafety.EveryAcceptedTaskHasRun | Core/mstd/threadPool.hpp:20-31 | When all workers have returned, every accepted task has run exactly as often as it was accepted, and the queue is empty |
| ThreadPoolSafety.EmptyOnceAWorkerReturned | Core/mstd/threadPool.hpp:25-25 | Once any worker has returned, the queue stays empty and nothing more is accepted in any continuation |
| ThreadPoolSafety.NoLostWakeup | Core/mstd/threadPool.hpp:57-62 | If the queue is non-empty and all workers sleep, some caller of enqueue has still to notify |
| ThreadPoolSafety.ShutdownGetsStuckIff | Core/mstd/threadPool.hpp:35-42 | After notify_all some continuation leaves the destructor waiting for a sleeping worker that nobody will notify, if and only if a worker was between its test and its sleep at that moment |
| ThreadPoolSafety.StuckForever | Core/mstd/threadPool.hpp:38-42 | A destructor waiting for a sleeping worker nobody will notify never finishes without a spurious wake-up |
| ThreadPoolSafety.ShutdownCanGetStuck | Core/mstd/threadPool.hpp:24-37 | A run that ends there |
| ThreadPoolProgress.AcceptedTasksCanRun | Core/mstd/threadPool.hpp:20-31 | From every reachable state of a pool with a worker, stopped or not, some continuation without spurious wake-ups runs every accepted task as often as it was accepted |
| ThreadPoolProgress.CallIsAcceptedIff | Core/mstd/threadPool.hpp:57-60 | A caller that reads the stop flag unset has its task appended to the queue; one that reads it set is turned away and changes nothing but releasing the mutex |
| ThreadPoolProgress.EnqueueCanEnd | Core/mstd/threadPool.hpp:50-63 | From every reachable state of a pool that is not stopped, an enqueue can be begun and come to its end with its task accepted |
| ThreadPoolProgress.ShutdownCanEnd | Core/mstd/threadPool.hpp:25-42 | While the destructor waits and no worker sleeps or is about to, some continuation lets every worker return and the destructor end, every accepted task having run |
| LockFreeQueueSafety.ReachableKeepsInv | Core/mstd/lockFreeQueue.hpp:24-68 | Every reachable state of many producers and one consumer satisfies the queue's invariant |
| LockFreeQueueSafety.DeliveredThenRemaining | Core/mstd/lockFreeQueue.hpp:38-68 | Values dequeued, then values still linked, are the values enqueued in tail-swap order |
| LockFreeQueueSafety.ProducerOrder | Core/mstd/lockFreeQueue.hpp:38-45 | Each producer's values are swapped in in the order of its calls, at most its unfinished one missing |
| LockFreeQueueSafety.MissingLinkIsOwedOnce | Core/mstd/lockFreeQueue.hpp:40-44 | Between consecutive nodes the link is right, or missing and owed by exactly one producer |
| LockFreeQueueSafety.NoDeletedNodeIsTouched | Core/mstd/lockFreeQueue.hpp:38-68 | Every node a thread is about to read, link from or delete is live, and no dequeue begins with a null head |
| LockFreeQueueSafety.LinkMissingIffOwed | Core/mstd/lockFreeQueue.hpp:55-64 | When the consumer is about to read a link, it is missing if and only if some producer has swapped the tail and not yet written it |
| LockFreeQueueSafety.EmptyAnswerIsRight | Core/mstd/lockFreeQueue.hpp:60-62 | dequeue answers empty exactly when every value swapped in has been delivered |
| LockFreeQueueSafety.EmptyIsRight | Core/mstd/lockFreeQueue.hpp:47-49 | empty, called by the consumer, is true exactly when every value swapped in has been delivered |
| LockFreeQueueSafety.AtRestHeadReachesAll | Core/mstd/lockFreeQueue.hpp:38-45 | With nobody inside an operation, links from head meet every live node once, end at tail, and carry every undelivered value in order |
| LockFreeQueueSafety.DeleteAll | Core/mstd/lockFreeQueue.hpp:27-32 | The destructor's loop deletes the nodes in order, reading none after deleting it, and leaves none |
| LockFreeQueueSafety.Destroy | Core/mstd/lockFreeQueue.hpp:27-32 | With the deletions of earlier dequeues, every node ever allocated is deleted exactly once |
| LockFreeQueueSafety.DequeueCanCrashIff | Core/mstd/lockFreeQueue.hpp:53-67 | A dequeue that has loaded head has a continuation in which it follows a null pointer, if and only if the link of that node has not been written |
| LockFreeQueueSafety.NullIsFollowed | Core/mstd/lockFreeQueue.hpp:44-64 | A run that puts null into head and follows it |
| LockFreeQueueProgress.DequeueDelivers | Core/mstd/lockFreeQueue.hpp:53-68 | If the first link has been written, a dequeue run alone delivers the next value in tail-swap order and comes to its end |
| LockFreeQueueProgress.EmptyDequeueEnds | Core/mstd/lockFreeQueue.hpp:53-62 | On an empty queue a dequeue run alone comes to its end and changes nothing |
| LockFreeQueueProgress.EnqueueEnds | Core/mstd/lockFreeQueue.hpp:38-45 | From every reachable state an enqueue run alone swaps its value in last, links it and comes to its end |
| FileCache.FileCache.Get | Core/mstd/fileCache.hpp:30-71 | get changes the represented cache and answers exactly as the value-level Lookup, and keeps list, map, iterators and total in agreement and within the limit |
| FileCache.FileCache.SetMaxSize | Core/mstd/fileCache.hpp:73-79 | The new limit holds on return; what is dropped is the least recently used end |
| FileCache.FileCache.EvictUntilFits | Core/mstd/fileCache.hpp:66-68 | The eviction loop ends and keeps exactly Trim of the entries |
| FileCache.FileCache.Evict | Core/mstd/fileCache.hpp:134-145 | Exactly the last entry leaves list, map and total together; nothing happens when there is none |
| FileCache.FileCache.EraseStale | Core/mstd/fileCache.hpp:35-40 | A modified file leaves all three structures, whatever its position |
| FileCache.FileCache.MoveToFront | Core/mstd/fileCache.hpp:43-45 | A hit moves the entry to the front under a new iterator, nothing else moving |
| FileCache.FileCache.Insert | Core/mstd/fileCache.hpp:60-68 | A loaded file goes to the front and the cache is brought back within its limit, the new file itself going if it must |
| FileCache.FileCache.LoadFileInto | Core/mstd/fileCache.hpp:116-131 | Missing and empty files are not loaded; others with content, time and type |
| FileCacheProperties.TrimIsLongest | Core/mstd/fileCache.hpp:66-68 | Eviction keeps the longest prefix that fits |
| FileCacheProperties.HitStep | Core/mstd/fileCache.hpp:43-45 | A hit keeps the cache the longest fitting prefix of the recency list |
| FileCacheProperties.MissStep | Core/mstd/fileCache.hpp:53-68 | So does a miss, with its evictions |
| FileCacheProperties.StackProperty | Core/mstd/fileCache.hpp:30-71 | Over any sequence of gets on unchanging files, the cache is exactly the longest fitting prefix of the all-time recency list |
| FileCacheProperties.Inclusion | Core/mstd/fileCache.hpp:30-71 | On the same requests a smaller cache's contents are a prefix of a larger one's |
| FileCacheProperties.HitsGrowWithCapacity | Core/mstd/fileCache.hpp:46-46 | On the same requests a larger cache never has fewer hits |
| FileCacheProperties.Accounting | Core/mstd/fileCache.hpp:30-79 | Over any mix of gets, limit changes and file changes: no duplicates, bytes within the limit, hits plus misses equal gets |
| FileCacheProperties.Transparency | Core/mstd/fileCache.hpp:32-70 | If writes to cached files raise their time and cached files are not removed, every get answers with the content and the MIME type the file has, or with nothing for a missing or empty file |
| FileCacheProperties.WriteIsSeenIff | Core/mstd/fileCache.hpp:111-113 | Exactly which writes the next get of that file sees |
| FileCacheProperties.RemovalIsSeenIff | Core/mstd/fileCache.hpp:94-100 | Exactly which removals the next get of that file notices |
| FileCacheProperties.TransparentIff | Core/mstd/fileCache.hpp:30-71 | Over any run from an empty cache, every get at every moment answers with the content and MIME type the file has then, if and only if each write to a cached file raises its time above the cached one or leaves its content and each removal is of a file not cached or with a time before the epoch |
| FileCacheProperties.AnswersWereTrue | Core/mstd/fileCache.hpp:30-71 | Over any run, whatever a get answers is the content and MIME type the file had at some moment of the run, and it answers nothing only when there is nothing |
| FileCacheProperties.StaleAnswers | Core/mstd/fileCache.hpp:111-113 | A write in the same second and a removal, both answered with the old content |
| YamlReader.CountIndent | Core/mstd/yaml.hpp:206-216 | The loop counts the leading spaces |
| YamlReader.LookAhead | Core/mstd/yaml.hpp:157-168 | The lookahead loop tells whether the next line that is not blank or comment is an item |
| YamlReader.LeaveLevels | Core/mstd/yaml.hpp:112-121 | The nested loops compute Dedent |
| YamlReader.YamlReader.ParseFile | Core/mstd/yaml.hpp:93-203 | The parsing loop computes Parse: the same tree or the same error; an unopened file leaves the data empty |
| YamlNoise.NoiseIsIrrelevant | Core/mstd/yaml.hpp:107-110 | Files that differ only in blank and comment lines have the same outcome, errors included |
| YamlNoise.InsertingNoise | Core/mstd/yaml.hpp:156-168 | Inserting or deleting such lines anywhere changes nothing, lookahead included |
| YamlNoise.NoiseIff | Core/mstd/yaml.hpp:107-110 | A line is skipped if and only if it is all blanks, or its first other character is '#' |
| YamlNoise.TrailingBlanksAreIgnored | Core/mstd/yaml.hpp:107-110 | Blanks at the end of any line change nothing |
| YamlCanonical.ScalarRoundTrip | Core/mstd/yaml.hpp:177-199 | A printed bool, integer, decimal fraction, unambiguous string or inline list is read back with its type and value |
| YamlReading.NodeTakes | Core/mstd/yaml.hpp:150-201 | Reading a printed field of any depth, where the count is right, stores exactly its value in the map on top of the stack and leaves on the stack what the count says |
| YamlReading.EntriesTake | Core/mstd/yaml.hpp:107-202 | Reading the printed fields of a map fills the map on top of the stack with exactly these |
| YamlReading.ElementsTake | Core/mstd/yaml.hpp:123-148 | Reading the printed elements of a block array, at any depth, appends exactly these, in order |
| YamlRoundTrip.DedentGives | Core/mstd/yaml.hpp:112-121 | Going back to an indentation removes one stack entry for each two columns left, but never the root, and the arrays that started deeper |
| YamlRoundTrip.ReadyAgain | Core/mstd/yaml.hpp:112-121 | If the count is right, coming back to a map finds it on top of the stack again, nothing below it changed |
| YamlWrites.ParseWrites | Core/mstd/yaml.hpp:123-201 | Reading any lines changes no slot of the tree but those written through the stack on the way |
| YamlWrites.WithinBudget | Core/mstd/yaml.hpp:123-201 | and at most one slot for a field line, two for an item line |
| YamlWrites.WrittenThroughStack | Core/mstd/yaml.hpp:112-201 | Any slot written lies in a map that was on the stack at the start, or in a slot that was written before |
| YamlMisplaced.Misplaced | Core/mstd/yaml.hpp:112-121 | When the slots still to be written number at least what the line and the later lines can write, a field line that does not find its own map on top of the stack is not made up for by the later lines: the tree read is not the one printed |
| YamlDocument.ReadsBackIff | Core/mstd/yaml.hpp:93-203 | Reading a printed document rebuilds exactly its tree if and only if the count of what the parser leaves on its stack is right at each field, and no key without a value has an item next |
| YamlDocument.WithoutArraysIff | Core/mstd/yaml.hpp:112-176 | A document without arrays is read back if and only if no key without a value is anywhere but on its last line |
| YamlDocument.RegularIff | Core/mstd/yaml.hpp:112-147 | A document without keys without values and single-line elements, with arrays nested to any depth, is read back if and only if the line after leaving an array, if any, is an item or a field of the root |
| YamlLosses.StackDiscipline | Core/mstd/yaml.hpp:112-147 | With arrays under the root and further fields in every element: the stack depth is the function of indentation at each line, the root at the bottom, nothing dangling, no entry in an array about to grow |
| YamlLosses.FlatIff | Core/mstd/yaml.hpp:112-147 | With arrays under the root and no keys without values: read back if and only if no array with two or more single-line elements has a field after it; otherwise a dangling pointer is used |
| YamlLosses.EmptyMapTakesItsSiblings | Core/mstd/yaml.hpp:173-176 | A key without a value, followed by fields at the same indentation, receives them all |
| YamlLosses.EmptyMapKeepsItsMapOpen | Core/mstd/yaml.hpp:112-121 | If the last line of a map is a key without a value, the next field of the root becomes a field of that map |
| YamlLosses.NestedArrayEndsItsMap | Core/mstd/yaml.hpp:112-121 | A further field of a map, of any size, that has just ended a block array goes to the root |
| YamlLosses.ItemAfterInnerArray | Core/mstd/yaml.hpp:112-147 | An array inside an element is left correctly for the next element, though the array around it is itself nested in a map |
| YamlLosses.RepeatedKey | Core/mstd/yaml.hpp:179-198 | One more field of the root with a key it has already: a scalar is ignored, an inline array replaces the value |
| YamlItems.BareItemIsRead | Core/mstd/yaml.hpp:123-147 | A bare '-' opens an empty element, which gets exactly the fields below it |
| YamlItems.BareItemIsLeft | Core/mstd/yaml.hpp:112-147 | and is left for the next field of the root |
| YamlItems.MapItemIsRead | Core/mstd/yaml.hpp:139-142 | A key without a value on the '-' line opens a map in the element, which gets exactly the fields below it |
| YamlItems.ReplacedArrayDangles | Core/mstd/yaml.hpp:112-132 | An array whose key is assigned again while the array is open is written to through a dangling pointer by the next item |
| YamlErrors.NoColonIsRefused | Core/mstd/yaml.hpp:151-152 | After any document that is read, a line without a colon ends in the error that quotes it, whatever follows |
| YamlErrors.LooseItemIsRefused | Core/mstd/yaml.hpp:127-129 | So does an item at the left margin, with the error of a missing parent |
| YamlErrors.BareItemIsRefused | Core/mstd/yaml.hpp:134-135 | and an element that is not a field, with the error that quotes it |
| YamlErrors.LargeNumberIsRefused | Core/mstd/yaml.hpp:192-193 | and an integer above 2147483647, with out_of_range |
| YamlErrors.DotsAreRefused | Core/mstd/yaml.hpp:194-195 | and a text of digits and dots that begins with no number, with invalid_argument |
| Http.ParseHeaders | Core/protocols/http.hpp:87-103 | The loop computes ParseFrom: the fields up to the blank line, and what is left unread |
| Http.SendResponse | Core/protocols/http.hpp:18-84 | For any answers of the kernel: the bytes on the wire, from memory or by sendfile; broken_pipe set exactly on a failed header or EPIPE in a body from memory; and whether the call has returned |
| Http.FieldsRoundTrip | Core/protocols/http.hpp:87-103 | Parsing any printed well-formed fields gives exactly those fields, later ones winning, and leaves what follows the blank line |
| Http.PaddedFieldIsRead | Core/protocols/http.hpp:90-101 | A field is read whatever spaces and tabs stand around its name and its value |
| Http.OtherLineIsSkipped | Core/protocols/http.hpp:90-92 | A line without a colon is no field, and ends the header only if it is a lone CR |
| Http.ResponseRoundTrip | Core/protocols/http.hpp:37-43 | A reader that cuts the status line at its first two spaces and parses the fields has read the version, the status code as a number, the reason and every printed field, and is left with exactly the body, whose length the content length is |
| Http.BodyFollowsFirstBlankLine | Core/protocols/http.hpp:37-43 | The bytes after the first CR LF CR LF are exactly the body (sections 3 and 3.3.2 of RFC 7230) |
| Http.WireIsWholeIff | Core/protocols/http.hpp:45-83 | What is sent is the response whose length was printed if and only if the one header write took every byte, the kernel reports enough bytes before any failure, and a file still starts with that body |
| Http.WholeWireHasItsBody | Core/protocols/http.hpp:37-83 | Then the bytes after the first CR LF CR LF on the wire are exactly the body |
| Http.HeaderIsDropped | Core/protocols/http.hpp:18-24 | A header that would block is lost and the body is sent without it, with no broken pipe |
| Http.EndsWithIff | Core/protocols/http.hpp:72-82 | The loop over a body in memory ends with an error, and with a broken pipe if it is EPIPE, if and only if a call fails before the calls before it have taken the whole body |
| Http.NeverReturnsIff | Core/protocols/http.hpp:58-68 | While no call fails, the sendfile loop goes on for ever if and only if the file now has fewer bytes than the length printed |
| Vector.AmortisedGrowth | Core/mstd/vector.hpp:40-45 | Over any run of pushes, element moves stay within twice the capacity and three times the size |
| Vector.Vector.constructor | Core/mstd/vector.hpp:30-30 | A new vector is empty and has moved nothing |
| Vector.Vector.FromList | Core/mstd/vector.hpp:32-36 | The list constructor holds the list, at the cost of as many pushes |
| Vector.Vector.Resize | Core/mstd/vector.hpp:20-27 | Every element is moved once, in order, into an allocation of the new capacity |
| Vector.Vector.PushBack | Core/mstd/vector.hpp:40-45 | Exactly the value is appended, at the cost given by Pushed |
| Vector.Vector.At | Core/mstd/vector.hpp:58-63 | The element, or a refusal past the size |
| Sites.FdPortRegistry.AddFdPort | Core/utils/SocketUtils.hpp:64-70 | A known descriptor keeps its port; a new one is added |
| Sites.ProcessWorker | SOK.cpp:56-70 | The registration loop computes RegisterAll and the descriptors of the listeners that could be watched |
| Sites.FirstPortWins | Core/utils/SocketUtils.hpp:64-78 | The registry answers with the port of the first listener on a descriptor, even one closed since, and with -1 for a descriptor no listener has got |
| Sites.OwnPortsIff | SOK.cpp:57-70 | All watched listeners have their own ports registered if and only if none got the descriptor of an earlier, unwatched listener for another port |
| Sites.WrongPort | SOK.cpp:57-70 | Two listeners on one descriptor, the first not watched: the second is answered the port of the first |
| Sites.SiteInfo | Core/utils/SiteConfig.hpp:26-39 | The constructor's loop computes SiteFor on the configured servers, with the errors of a missing or mistyped list, port, name or root |
| Sites.SiteIsOfFirstServer | Core/utils/SiteConfig.hpp:30-37 | A site is that of the first entry with the port; later entries do not matter, even malformed ones |
| Sites.SiteFoundIff | Core/utils/SiteConfig.hpp:29-38 | A site is found with a given name and root if and only if the first entry with the port has these strings under name and root, less one pair of quotes; there is none exactly when all entries have other ports |
| Sites.SiteErrorIff | Core/utils/SiteConfig.hpp:29-38 | The search fails if and only if it meets an entry without an integer port before it meets the port, or that entry has no string name or root; the error says which, and whether it is missing or of another type |
| Sites.HandlerServesItsListenersSite | Core/utils/ProtocolDispatcher.hpp:33-40 | In every interleaving, a handler serves the name and root of the first server entry with the port of the listener that accepted its connection, when no listener was handed down another port |
| Configuration.ServersAreRead | Core/mstd/yaml.hpp:57-69 | The array of servers of a printed configuration file is what getArray returns after parsing it |
| Configuration.ValuesAreRead | Core/mstd/yaml.hpp:24-69 | After parsing a printed document, getValue and getArray give exactly its integers, strings less one pair of quotes, block arrays and inline arrays, and report every other type |
| Configuration.MissingKeysAreReported | Core/mstd/yaml.hpp:25-28 | and a key that was not printed as missing |
| Configuration.HandlerServesTheFilesSite | Core/utils/SiteConfig.hpp:26-39 | From file to handler: in every interleaving the site looked up has the name and root printed in the first server entry in the file with the port of the listener the connection came by |

## Left out

- Sockets, epoll, OpenSSL, `stat` and the C++ standard library are not modelled; their answers are parameters or free choices of the environment.
- Weak memory orders and data races on containers: every step is atomic and sequentially consistent. The `ssl_map.erase` calls of `https.hpp` made without the mutex are atomic steps.
- Descriptor reuse: the theorems of `ConnectionSafety` assume that `accept` returns no descriptor that has a task in flight and no marker; of `ConnectionReuse`, only `AcceptIsSafeIff` does.
- `SSL_new` failing, and `epoll_ctl` failing for a client: the first is taken to succeed, the second has no effect on the modelled state.
- LockFreeQueueSafety.DeliveredThenRemaining: is about one consumer, as the queue does not support concurrent `dequeue`.
- Queue values and pool tasks are integers; the pool's futures and exceptions of tasks are not modelled.
- ThreadPoolSafety.EveryAcceptedTaskHasRun: says nothing about the destructor finishing, which the code does not guarantee (`ShutdownGetsStuckIff`); `ShutdownCanEnd` says when it still can. No fairness of the scheduler is assumed, so nothing says that it must.
- FileCache.FileCache.Get: one call sees one file system; changes between its `stat`, open and read are not modelled. Types come from a parameter in place of the extension table.
- Sizes, capacities and counters are unbounded natural numbers where the code uses `size_t`; the capacity product is exact where the code rounds a `double`.
- Vector: `emplace_back` grows exactly as `push_back` and is not repeated.
- Configuration files are sequences of lines, as `getline` delivers them; an append to a block array is taken to move its elements, as the language allows.
- `stod` values are kept as the text that was converted; its `out_of_range` for a number too large for a `double` is not modelled.
- YamlDocument.ReadsBackIff: is about documents printed with two-space indentation, with maps and non-empty block arrays nested to any depth, where the first field of an element is a string on its '-' line. Elements that begin with a bare '-' or with a key without a value are read by `Yaml.Parse` but not printed; `YamlItems` has them under a key of the root, on the first lines.
- Http.SendResponse: takes the file's content as fixed while it is being sent, and a path that is not empty as one that `open` is tried on; reading requests, which may arrive in pieces, is not modelled.
- The protocol dispatcher's peek, the logger, the process manager, the command loop, the configuration singleton, `mstd::string`, `Iterator` and `Function`, `getObject` and `removeFd`: plumbing or thin wrappers.
- Configuration.HandlerServesTheFilesSite: is about one process, whose configuration does not change; a restart begins new processes.
- A listener that `setup_server` cannot create ends the process and is not modelled; ports are not truncated to 16 bits.
