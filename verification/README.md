# An event-driven HTTP server, verified

The C++ library modelled here serves HTTP on one thread. An `IOReactor` waits for readiness events
with epoll, puts them into a priority queue and runs the callback registered for each descriptor.
The listener's callback accepts a connection and registers a `Clientconnection`, whose handler reads
a request (parsed by llhttp, which calls back with fragments), calls the user, who installs a
response with `write`, and then drains that response over an edge-triggered socket, a piece at a
time. A connection deletes itself when it is done, which closes its descriptor and leaves its
registry entries behind; the kernel may hand the number out again at once. The project proves that
these pieces fit together.

## How it is built

There are three layers, and each is proved against the next.

1. **Classes and methods in the form of the program**: `ThreadSafeMap`, `IOReactor`, `HttpRequest`,
   `HttpResponse`, `Clientconnection`, `HttpServer`, with their loops, and `ServerLoop`, which puts
   them together: `reactorRun` with the callbacks that `listen` and `write` register. They make
   system calls on a `KernelObject` that answers as the system is allowed to, with any actions of
   the peers before each call.
2. **Specifications on values**: what a batch, a registry and one step of `handleEvent` are
   (`ReactorSpec`, `ConnectionSpec`), what `serialize` writes (`ResponseText`), what the parser's
   callbacks do (`RequestAssembly`), what a map operation does (`MapSpec`).
3. **State machines**: the whole server with its peers (`ServerMachine`), and two small machines in
   which several threads work on one map (`MapConcurrency`) and on one pair of registries
   (`RegistryConcurrency`). The theorems are about every run of these.

`ServerLoop.Run` joins the layers: whatever the kernel answers and the peers do, the objects end in
the state of a run of the machine, and so do the kernel, the registries, the queue, the list of all
that epoll_wait has returned and the list of all callbacks that were called. If a request fails to
parse, that is the last step of the run, and the objects are in the state right after it; from then
on the program itself has no meaning (see below). `ServerLoop.ObjectsDeliver` and
`ServerLoop.NobodyForgotten` spell out what follows for the fields of the objects.

What the reactor does is stated on two histories: `KernelObject.harvests`, which epoll_wait writes,
and `IOReactor.calls`, which is written where a callback is called, with the registries before and
after. `ReactorSpec.Served` says that the calls serve the harvests one after the other, each event
once, none after one whose priority number was greater at the time of the harvest, each with the
callback registered when it ran; `ReactorSpec.InPriority` says what that means for the three kinds of
priority. `Reactor.IOReactor.ReactorRun` proves it for arbitrary callbacks,
`ServerLoop.Run` for those of the server, and `ServerOrder.BatchesInOrder` for every run of the
machine.

Nor is it left to a method to say that a system call has failed. `Kernel.answers` lists what every
system call has returned, and each step of the machines adds the answers that it stands for
(`TrailAnswers`, `RunAnswered`). So `HandleEvent` can only delete a connection for a failed send if the
kernel has said so, and `ReactorRun` and `ServerLoop.Run` only return -1 right after epoll_wait has
failed.

The environment is `KernelModel`: open sockets with the bytes that have arrived, the room in the send
buffer and everything ever put on the wire; an interest list with a ready flag for each entry,
following epoll(7): the listener is level triggered, connections are edge triggered, ADD and MOD
report what is there already, closing forgets the entry, a harvest holds at most one event for each
descriptor; and a backlog, from which accept makes a socket with any number not in use.

## What was found

* **A parse error makes the program use a deleted object.** The read loop calls `error(this)`, which
  deletes the connection, and goes on. `SafeExactlyIfParsed` proves that this is the only way: a run
  uses a deleted connection if and only if a request fails to parse, and `ParseErrorHappens` gives
  such a run. The other theorems about runs are for runs without a parse error.
* **Stale dispatch is impossible for any order of the queue**, not only for the order of priorities:
  there is one event for each descriptor in a batch, and a connection is deleted only by its own
  handler. What the order of priorities adds is that a batch accepts before it closes, so no
  descriptor with an event in a batch is closed and given to a new connection while the batch is
  drained (`NoReuseWithinBatch`). A queue in order of arrival would not have that
  (`FifoReusesWithinBatch` gives the run). So the theorems hold for every tie-break.
* **A second message on a connection is appended to the first**, because nothing is cleared when a
  message begins. `SecondMessage` says exactly when the result is right all the same.
* **`serialize` can be parsed back if and only if the response is well formed**
  (`RoundTripExactly`): the version is a digit, a dot and a digit, the status code three digits, each
  name a token, the message and each value made of tabs, spaces, visible characters and bytes from
  128 on, and no value begins or ends with a tab or a space, since RFC 9112 does not count whitespace
  there as part of it. `serialize` checks none of this.
* **A peer that closes its side right after its request may get no answer**: the end of the stream is
  read in the same loop as the request, and deletes the connection before anything is sent
  (`EndOfStreamSendsNothing`; `RequestGoesUnanswered` gives a run in which a whole GET request has
  been heard, the response installed and the connection registered for writing it).
  `UnansweredExactly` says which connections end with a response ready and nothing sent;
  `SafeOnceReturned`, that this cannot happen any more at the end of the stream once the handler that
  has installed the response has returned.
* **A wake-up can be lost**: if recv fails with anything but EAGAIN, nothing happens, error is not
  called, and bytes that are there already will not be announced again (`WakeupLost` gives the run).
  `ReadWakeupLostExactly` proves that this is the only way.
* **removeTrack works for one descriptor only**: `removeEpollInterest` passes the operation and the
  descriptor to epoll_ctl in each other's place (include/socket_utilities.h:155), so the call can
  succeed only if the descriptor happens to be 2, the number of EPOLL_CTL_DEL.
* `write` does not reset `sent_bytes`. That is harmless, for nothing has been sent whenever it is
  called (`WriteFindsNothingSent`).
* Two track operations on one descriptor at once, from two threads, can leave the registries
  different for good (`OverlapBreaks`, for a descriptor that can be removed); with at most one in flight for each
  descriptor they agree (`CoherentAtRest`).

## Conventions

A byte is a character; results hold for all characters. A descriptor is a number below 2147483647, and
-1 is kept for failures. A closure is a value of `Callback`: which connection it captures and whether it
carries the callbacks of `listen` or of `write`. `Clientconnection` objects have an identity, which
stands for their address; a fresh one is never one used before. Ghost fields (`fed`, `heard`, `refused`, `sends`,
`stalled`, `outcome`, `calls`, `harvests`), `Kernel.answers` and the history fields of the machines
record what happened, and nothing depends on them. `KernelObject.patience` bounds how often epoll_wait still succeeds in
the stretch of a run that a method call covers; it is arbitrary, so that every finite stretch is
covered, and makes `reactorRun`, which need not end, a terminating method. Long methods of the
program are cut into several here, one for each step of a loop body.

Modules by file of the program: `ThreadSafeMaps`, `MapSpec`, `MapConcurrency` for
include/thread_safe_map.h; `ReactorSpec`, `Reactor`, `RegistryConcurrency` for include/reactor.h;
`RequestAssembly`, `ResponseText`, `ConnectionSpec`, `Connection` for include/connection_types.h;
`ListeningServer` for include/listening_server.h; `ServerLoop` for all of them together; the callbacks of src/server.cpp are in `Connection`.

Check everything with `dafny verify dfyconfig.toml`.

## Model

| member | source | states |
|---|---|---|
| ServerLoop.Run | include/reactor.h:106-141 | the reactor's loop with the server's own callbacks: objects, kernel, registries, queue, harvests and calls end in the state of a run of the machine, for all answers of the kernel, a parse error being at most its last step; it returns only right after epoll_wait has failed, which is the last action of the run and the last answer of the kernel, and then every harvest has been served: within each, no HELPER_SOCK event before another kind, no LISTEN_SOCK event after another kind, by the priorities registered at the harvest |
| ServerLoop.Listen | include/listening_server.h:26-55 | listen from an empty reactor: if registering fails the reactor is not run and nothing is registered; otherwise the machine starts in its initial state and the objects follow it, to a failed epoll_wait or to a parse error |
| ServerLoop.RunTop | include/reactor.h:111-115 | one dispatch with its pop, over any top of the queue: the objects end in a reached state with that event gone from the queue, or in the state that a parse error leaves of a reached one |
| ServerLoop.RunCallback | include/reactor.h:91-105 | whichever callback the lookup finds, running it takes the machine to the end of that callback or just past a parse error, and the objects with it; those of all other connections are untouched |
| ServerLoop.CallHandler | include/listening_server.h:43-45 | the closure of a connection: its handler runs on the object it captured, keeps the view of every other object, and removes the connection from the living ones exactly if it deleted itself, after a parse error too |
| ServerLoop.CallAccept | include/listening_server.h:28-48 | the listener's closure: with EPOLLIN and no EPOLLERR it calls accept, and exactly if that yields a descriptor one object is added and epoll_ctl asked to add it; the object shares nothing with the ones already there, and the machine has accepted the same connection |
| ServerLoop.Harvest | include/reactor.h:118-133 | the events that epoll_wait returned are in the queue with the priorities registered then, and the machine has made the same harvest; on failure the queue stays empty, and the machine has made the failed call |
| ServerLoop.ObjectsDeliver | include/connection_types.h:260-283 | between dispatches, a living object has put exactly the first sentBytes bytes of its buffer on the wire and fed the parser exactly what was read; one deleted by success had a complete serialization of its last response on the wire, its buffer empty and sentBytes 0 |
| ServerLoop.SampleDelivered | src/server.cpp:35-65 | between dispatches, nothing but the sample answer has gone out: HTTP/1.1 200 OK, the three headers in some order, an empty line and the 25 bytes of body; a part of that for a living connection, a proper part for one that an error has ended; and all of it on the wire of one that the success callback has deleted, from which a parser by RFC 9112 gets version 1.1, code 200, message OK, those headers and that body |
| ServerLoop.NobodyForgotten | include/reactor.h:117-120 | whenever epoll_wait is called, a connection with room and bytes to send, or with unread bytes, is on the ready list: the reactor never sleeps on work it could do |
| ServerLoop.ListenerCounts | include/reactor.h:117-138 | the branch of a reactor without callbacks is never taken once the listener is registered |
| ServerProof.NextInv | include/reactor.h:106-141 | every step of server, kernel and peers keeps the whole invariant |
| ServerProof.RunInv | include/reactor.h:106-141 | the invariant holds after every run without a parse error |
| ServerTheorems.NoStaleDispatch | include/reactor.h:109-133 | every event still waiting in a batch will run the very callback that was registered when it was harvested, for a connection that owned the descriptor then and owns it now |
| ServerTheorems.CallbackFound | include/reactor.h:97-103 | the lookup in runCallback always succeeds |
| ServerTheorems.RegisteredFor | include/listening_server.h:41-45 | in every reachable state the listener has its accept callback and LISTEN_SOCK; a watched connection is edge triggered and has, for input, its own reading handler and NEW_SOCK, for output its own writing handler and HELPER_SOCK |
| ServerTheorems.ListenerAccepts | include/listening_server.h:29-46 | in every run, a listener's event with EPOLLIN and no EPOLLERR has accept called before it is popped, and epoll_ctl called for the connection that this yields |
| ServerOrder.BatchesInOrder | include/reactor.h:109-133 | in every run, whenever the queue is empty, all harvests have been served one after the other: each event once, no HELPER_SOCK event before another kind and no LISTEN_SOCK event after another kind, by the priorities registered at the harvest, whatever callbacks registered meanwhile |
| ServerOrder.NextKeepsLog | include/reactor.h:109-133 | at every moment the last batch is split into events served, sorted, and events waiting, none of a smaller number |
| ServerTheorems.NoReuseWithinBatch | include/reactor.h:26-32 | with listeners first, an accept never gets a number that has an event in the current batch, for nothing was closed before it |
| ServerWitness.FifoReusesWithinBatch | include/reactor.h:26-32 | from every initial state, in order of arrival it can: a run closes a descriptor of the batch and accepts the same number while draining |
| ServerTheorems.SafeExactlyIfParsed | include/connection_types.h:248-258 | a run uses a deleted connection at some point if and only if some request fails to parse |
| ServerWitness.ParseErrorHappens | include/connection_types.h:248-254 | from every initial state a run comes to a parse error, after which a deleted connection is used |
| ServerTheorems.DeletedByItself | src/server.cpp:54-65 | a connection is deleted only while its own handler runs, and for the first time then |
| ServerTheorems.DeletedOnce | src/server.cpp:54-65 | once deleted it never comes back and its outcome never changes |
| ServerTheorems.RegistriesOnlyGrow | include/reactor.h:50-90 | at all times the two registries have equal keys that cover the kernel's interest list; the listener stays, and entries of closed descriptors stay too |
| ServerTheorems.NoLostWriteWakeup | include/connection_types.h:223-283 | a connection registered for writing always has unsent bytes, and then: no room, or an edge pending, or an event queued, or its handler about to send |
| ServerTheorems.NoLostReadWakeup | include/connection_types.h:243-259 | a connection with something to read has an edge pending, an event queued, or its handler reading, unless the handler that ran last for it ended with a recv failing other than by EAGAIN |
| ServerTheorems.ReadWakeupLostExactly | include/connection_types.h:245-259 | a handler leaves bytes unread with no wake-up to come if and only if it ends with a recv that fails other than by EAGAIN while bytes are there and no edge has come |
| ConnectionSpec.LostExactly | include/connection_types.h:245-259 | the same for one call of handleEvent, whatever else goes on |
| ServerWitness.WakeupLost | include/connection_types.h:255-259 | from every initial state a run comes to an idle reactor with unread bytes on a watched connection that nobody will be told of |
| ServerTheorems.WireIsPrefix | include/connection_types.h:260-272 | in every reachable state the wire holds exactly the first sent_bytes bytes of the buffer, and the buffer of a writing connection is a serialization of the response last given to write |
| ServerTheorems.Delivered | include/connection_types.h:260-283 | at success the wire held one complete serialization, from which a parser by RFC 9112 gets the response back if it is well formed, and the buffer was reset; at error the wire held a proper prefix of one, or nothing |
| ServerTheorems.SendsBounded | include/connection_types.h:262-272 | the successful sends of a connection, over all its events, are at most the size of its response in bytes, whether it lives, has succeeded or has failed |
| ServerTheorems.WriteFindsNothingSent | include/connection_types.h:162-167 | whenever the parser's callbacks run, write among them, nothing of the buffer that serialize replaces has been sent |
| ServerTheorems.EndOfStreamSendsNothing | include/connection_types.h:256-259 | a connection that ends with its peer's stream has sent nothing, response ready or not |
| ServerTheorems.UnansweredExactly | include/connection_types.h:240-282 | a connection with a response installed ends with nothing on the wire if and only if it ended with the peer's stream, or by an error event or failing send before any send had succeeded |
| ServerTheorems.SafeOnceReturned | include/connection_types.h:223-283 | once the handler that registered a connection for writing has returned, the connection stays registered for writing and can no longer end with the peer's stream: only with its response all sent, by an error event, or by a failing send |
| ServerWitness.RequestGoesUnanswered | include/connection_types.h:256-259 | from every initial state a run hears a whole GET request, installs the response, registers for writing and deletes the connection unanswered |
| ServerTheorems.ReadExactly | include/connection_types.h:245-254 | the slices given to the parser over a connection's life, each of 1 to 1024 bytes, are the peer's stream from its beginning, in order and without gaps |
| ServerTheorems.RequestIsMessage | include/connection_types.h:96-167 | the request of a connection, living or deleted, is what its parser's callbacks say: one message, however cut, comes out as sent; two come out as the second added to the first |
| ServerTheorems.AnsweredExactly | include/connection_types.h:162-167 | a connection has a response if and only if its parser has come to the end of a message, and then its buffer is a serialization of that response until it is all sent |
| ServerRuns.HandleEventIsRun | include/connection_types.h:235-284 | in every reached state with a running handler the precondition of handleEvent holds, and all that handleEvent is proved to do is a run |
| ServerRuns.RunAnswered | include/reactor.h:106-141 | what the kernel answers during a run of the server is the sequence of answers that its actions name, with none missing or added |
| ConnectionSpec.HandlerStepKeeps | include/connection_types.h:235-284 | every step between two system calls of handleEvent, and every action of the peers in between, keeps the connection's invariant: prefix on the wire, phase, wake-up, exact reading |
| ConnectionSpec.EnvKeeps | include/connection_types.h:235-284 | nothing the peers do at any moment breaks the invariant: what they make possible, epoll announces |
| ConnectionSpec.WriteKeeps | include/connection_types.h:215-229 | write keeps the invariant whether or not epoll_ctl fails: the connection is then wholly in the writing or wholly in the reading phase |
| ConnectionSpec.SendPartKeeps | include/connection_types.h:262-272 | a partial send of any size leaves the wire a prefix of the buffer and work to be done |
| ConnectionSpec.SendLastKeeps | include/connection_types.h:265-271 | the last send leaves the complete serialization on the wire of the connection that success deletes |
| ConnectionSpec.RecvKeeps | include/connection_types.h:245-259 | every outcome of recv keeps the order of what was fed and the wake-up of what is left |
| Connection.Clientconnection.HandleEvent | include/connection_types.h:235-284 | terminates; takes the steps of the specification to the end, or to a parse error. An error event makes no system call and deletes the connection. A reader stops at EAGAIN with its socket drained, or at another failure of recv (stalled), and stays; at the end of the stream it is deleted. A writer stops at EAGAIN with no room and stays; at another failure, or when all it offered was taken, it is deleted. Each of these is the kernel's last answer, and a new one; without any of the three bits nothing happens |
| ConnectionSpec.TrailAnswers | include/connection_types.h:235-284 | what the kernel answers during a handler is the sequence of answers that its steps name, with none missing or added: each recv asks for 1024 bytes, each send offers all that is left; there is one if and only if the event asks for reading or writing and not for an error |
| Connection.Clientconnection.RecvLoop | include/connection_types.h:244-254 | the recv loop ends with the answer of a recv that returned no bytes: EAGAIN, the end, or a failure, each as the step for it, or at a parse error; all before it is a path of specified steps |
| Connection.Clientconnection.ReadOnce | include/connection_types.h:245-253 | one recv and what the parser makes of it, with the stream that is left as the measure |
| Connection.Clientconnection.EndRead | include/connection_types.h:255-259 | exactly the end of the stream deletes the connection; EAGAIN and other failures do not |
| Connection.Clientconnection.SendLoop | include/connection_types.h:262-272 | the send loop ends with everything sent and success called, or with the answer of a send that took nothing, EAGAIN or a failure; the unsent bytes decrease |
| Connection.Clientconnection.SendSlice | include/connection_types.h:262-263 | each send starts where the last stopped, takes at least one byte, and counts it |
| Connection.Clientconnection.CompleteSend | include/connection_types.h:265-270 | when success is called the buffer is empty and sentBytes 0, and the connection is then deleted, once |
| Connection.Clientconnection.EndSend | include/connection_types.h:274-282 | EAGAIN leaves the connection to its next edge, exactly anything else deletes it |
| Connection.Clientconnection.LlhttpExecute | include/connection_types.h:248-249 | it is given the bytes of one recv, no more and no less; the request becomes what the parser's callbacks make of it, any number in any order; each is a step of the specification, and none takes anything from the stream; whether it returns an error is recorded |
| Connection.Clientconnection.Feed | include/connection_types.h:248-253 | if llhttp_execute returns an error, error is called, which deletes the connection; if not, reading goes on |
| Connection.Clientconnection.RunParserCallback | include/connection_types.h:96-167 | each callback has the effect on the request that is specified for it; on_message_complete has the user's response serialized in the buffer besides, with one call of epoll_ctl, and no other callback makes a call or touches response or buffer |
| Connection.Clientconnection.Write | include/connection_types.h:215-229 | installs and serializes the response, with one call of epoll_ctl; if that succeeds the registries hold the writing callbacks with HELPER_SOCK and the socket is watched for output only, if not they are as before |
| Connection.Clientconnection.Serialize | include/connection_types.h:169-213 | the buffer is the text of the response for some order of its headers, with nothing of the old content; without a response it is unchanged |
| Connection.Clientconnection.SerializeHeaders | include/connection_types.h:200-206 | whatever order the iteration takes, each header is written once |
| Connection.Clientconnection.Destroy | include/connection_types.h:88-94 | deleting closes the descriptor, with which the kernel forgets it, and leaves the registries alone |
| Connection.Clientconnection.OnHeaderValueComplete | include/connection_types.h:142-150 | the header read so far is entered under its name and nothing of it is left for the next |
| Connection.OnRequest | src/server.cpp:35-60 | the sample server answers every request with version 1.1, code 200, message OK, three headers and a body of 25 bytes, written to the connection that asked |
| Connection.ServerResponseWellFormed | src/server.cpp:41-52 | that response is well formed and gives its own length, so the round trip applies to it |
| ListeningServer.HttpServer.OnAccept | include/listening_server.h:28-48 | the accept callback, from any reached state: for EPOLLERR or without EPOLLIN it asks nothing of the kernel; otherwise it calls accept, and makes a connection object exactly if that yields a descriptor that fcntl has made ready, for which epoll_ctl is called next; if that succeeds the connection is watched for input and registered with NEW_SOCK, if not the registries are as before |
| ListeningServer.HttpServer.Adopt | include/listening_server.h:39-45 | a new object with a new identity for the accepted descriptor, registered for reading |
| ListeningServer.HttpServer.Register | include/listening_server.h:28-49 | if asyncAccept succeeds the server is in the machine's initial state, if not nothing is registered |
| Reactor.IOReactor.ReactorRun | include/reactor.h:106-141 | for arbitrary callbacks that remove no other descriptor: all that epoll_wait returned has been served, harvest by harvest, each event once, no HELPER_SOCK event before another kind and no LISTEN_SOCK event after another kind by the priorities registered at the harvest, each by the callback registered when it ran; registries change in callbacks only; the queue is empty at return; it returns -1 right after a failed epoll_wait, and 0 exactly if no callback is registered |
| Reactor.IOReactor.Drain | include/reactor.h:111-115 | the calls made are those of a drain order of the queue, HELPER_SOCK last and LISTEN_SOCK first, each of the callback registered when it was called, although the callbacks change the registries meanwhile |
| Reactor.IOReactor.RunTop | include/reactor.h:111-115 | the event run is the one popped; if it is HELPER_SOCK so are all that wait, and if any that waits is LISTEN_SOCK so is it; the callback is the one registered when it ran |
| Reactor.IOReactor.PushAll | include/reactor.h:126-133 | each harvested event is queued once, with the priority registered at that moment or NEW_SOCK |
| Reactor.IOReactor.Harvest | include/reactor.h:118-133 | what epoll_wait returned, between 1 and max_events events, is queued with the priorities registered then; nothing if it fails |
| Reactor.IOReactor.AsyncAccept | include/reactor.h:50-59 | both registries and the kernel know the listener, or none does |
| Reactor.IOReactor.AddTrack | include/reactor.h:61-70 | both registries get or overwrite the entry if and only if the kernel accepted it; coherence is kept |
| Reactor.IOReactor.ModifyTrack | include/reactor.h:71-80 | callback, priority and mask are replaced together or not at all; coherence is kept |
| Reactor.IOReactor.RemoveTrack | include/reactor.h:81-90 | succeeds for descriptor 2 only, and then both entries and the kernel's are gone; for 2, if it is watched, it fails only if epoll_ctl fails for a reason of its own; otherwise nothing changes; coherence is kept |
| Reactor.IOReactor.RunCallback | include/reactor.h:91-105 | a registered callback is run once with the event, otherwise -1 is returned and nothing changes; the callback may replace its own entry |
| ReactorSpec.DrainOrders | include/reactor.h:26-34 | the orders in which popping tops can let a batch out are exactly its permutations with non-decreasing priority number |
| ReactorSpec.DrainServes | include/reactor.h:109-133 | a drain by tops is an ordered permutation of the harvest it drains |
| ReactorSpec.BatchInPriority | include/reactor.h:13-34 | in a batch that has been served, by the priorities registered at its harvest, nothing of another kind runs after an event of HELPER_SOCK or before one of LISTEN_SOCK |
| ReactorSpec.BatchAt | include/reactor.h:109-133 | each harvest is served right after all earlier ones, in as many calls as it has events |
| ReactorSpec.WaitBounded | include/reactor.h:109-133 | every harvested event, whatever its priority, runs after the earlier harvests and fewer others of its own than there are |
| RegistryConcurrency.DifferOnlyInFlight | include/reactor.h:50-90 | several threads, at most one track operation in flight for each descriptor: a callback without a priority belongs to an add or modify between its two updates, a priority without a callback to such a remove, and a watched descriptor without a callback to one that epoll_ctl has just accepted |
| RegistryConcurrency.CoherentAtRest | include/reactor.h:50-90 | when no operation is in flight the registries agree and cover the interest list, whatever failed and whatever was closed |
| RegistryConcurrency.OverlapBreaks | include/reactor.h:61-90 | without that condition an add and a remove of one descriptor leave a priority without a callback |
| MapConcurrency.Linearizable | include/thread_safe_map.h:17-44 | every interleaving of the lock, search, act and unlock steps of any number of threads has a sequential order with the same results and final map that respects real time; in it remove and get answer true exactly if an insert of their key comes before with no remove of it in between, get finds the last value inserted, and getSize counts the keys present |
| MapConcurrency.AnswersExactly | include/thread_safe_map.h:22-44 | in any sequential order of the four operations each is answered by the inserts and removes before it |
| MapConcurrency.MutualExclusion | include/thread_safe_map.h:14-44 | of two threads under the lock both are in get or getSize, and the iterator a search found is still valid when it is used |
| MapConcurrency.ReadersShare | include/thread_safe_map.h:32-44 | whenever no writer holds the lock, two threads can be in get or getSize at once |
| MapConcurrency.Progress | include/thread_safe_map.h:14-44 | while a call is under way some thread can take a step: no deadlock |
| MapConcurrency.ActIsAtomic | include/thread_safe_map.h:22-40 | search and update in two steps under the lock have the effect of one atomic operation |
| ThreadSafeMaps.ThreadSafeMap.Insert | include/thread_safe_map.h:17-20 | the key has the new value, whether or not it was there; nothing else changes |
| ThreadSafeMaps.ThreadSafeMap.Remove | include/thread_safe_map.h:22-30 | the key is gone, and the answer is true exactly if it was there |
| ThreadSafeMaps.ThreadSafeMap.Get | include/thread_safe_map.h:32-40 | true exactly if the key is there, and then its value; otherwise the caller's variable keeps what it held |
| ThreadSafeMaps.ThreadSafeMap.GetSize | include/thread_safe_map.h:41-44 | the number of keys if it is below 2147483648, negative from there up to 4294967295 |
| MapSpec.AsIntExactly | include/thread_safe_map.h:41-44 | the conversion is exact if and only if there are fewer than 2147483648 entries; from there up to 4294967295 it is negative |
| Reactor.SizeIsExact | include/reactor.h:118 | no registry can have that many keys, so the reactor's test for an empty registry is right |
| ResponseText.RoundTripExactly | include/connection_types.h:188-212 | for every order of the headers, a parser by sections 2.1, 2.3, 4 and 5 of RFC 9112 recovers the response if and only if it is well formed by the grammar of those sections |
| ResponseText.WellFormedExactly | include/connection_types.h:188-212 | what a response must be for that, character by character: version digit, dot, digit; three digits of code; names of visible characters but the delimiters; message and values without controls but tabs, values not beginning or ending with a tab or a space |
| ResponseText.RoundTrip | include/connection_types.h:188-212 | version, code, message, header map and any body come back from the text |
| ResponseText.PrintInjective | include/connection_types.h:188-212 | two well-formed responses that can be printed alike are equal |
| ResponseText.PrintShape | include/connection_types.h:188-212 | every serialization begins with the status line, has each header as name, colon, space, value on a line of its own, and ends with an empty line and the body |
| ResponseText.ParseSound | include/connection_types.h:188-212 | whatever the reference parser returns is well formed, which makes the condition necessary |
| ResponseText.PrintLength | include/connection_types.h:188-212 | every serialization has 11 bytes more than version, code, message, body and headers, with 4 more for each header, in whatever order |
| RequestAssembly.FragmentationInvariance | include/connection_types.h:102-160 | two callback traces that differ only in how spans are cut do the same to any request |
| RequestAssembly.CoalesceKeepsMeaning | include/connection_types.h:102-160 | joining neighbouring spans of one kind changes nothing |
| RequestAssembly.CoalesceSplit | include/connection_types.h:102-160 | cutting a span anywhere in a trace is invisible after joining, so that invariance covers every way of cutting |
| RequestAssembly.FirstMessage | include/connection_types.h:96-167 | the first message is assembled exactly as sent, however its spans are cut: last value for a repeated name, key and value empty |
| RequestAssembly.FieldAssembled | include/connection_types.h:126-150 | a header line enters one header and leaves key and value empty |
| RequestAssembly.MessageAssembled | include/connection_types.h:96-167 | what a whole message does to the request already there |
| RequestAssembly.SecondMessage | include/connection_types.h:96-100 | the second message on a connection comes out as sent if and only if the first left no method, URL, version and body, and no header that the second lacks |
| RequestAssembly.SecondMessageExample | include/connection_types.h:96-100 | two plain GET requests come out as one for "//" with method "GETGET" |
| RequestAssembly.WholeTraces | include/connection_types.h:96-167 | every message has a callback trace, so the results about traces are about every message |
| KernelModel.EnvEvolves | include/connection_types.h:223-227 | what the peers do reaches the server only as readiness: whatever becomes possible on a watched descriptor puts it on the ready list |
| KernelCalls.KernelObject.EpollMod | include/socket_utilities.h:144-153 | re-arming fails or replaces the mask and reports what is there already |
| KernelCalls.KernelObject.AcceptConnection | include/socket_utilities.h:161-198 | a descriptor not in use for a waiting peer, or -1, in which case one may have been left open |
| KernelCalls.KernelObject.EpollWait | include/reactor.h:120-124 | fails, or reports between 1 and max_events ready descriptors once each |

## Left out

- Reactor.IOReactor.ReactorRun: what a callback does is only bounded there (it keeps the registries coherent, takes out no descriptor but its own, leaves the queue alone and does not call reactorRun again); the server's real callbacks are in ServerLoop.Run.
- Connection.Clientconnection.HandleEvent: stops at a parse error, after which the program goes on with a deleted object and has no defined behaviour.
- Connection.Clientconnection.SendLoop: models the handler with the callbacks of write only; with those of listen the branch for EPOLLOUT is never entered, which the precondition of HandleEvent shows (the machine has that step too).
- ThreadSafeMaps.ThreadSafeMap.Insert: one step, where operator[] first creates a default value and then assigns it; both happen under the exclusive lock.
- KernelCalls.KernelObject.AcceptConnection: leaves out the path for an unknown address family, which closes the new descriptor and returns it all the same.
- Connection.OnRequest: Content-Length is the literal 25, which ServerResponseWellFormed compares with the body; std::to_string is not modelled.
- RegistryConcurrency.DifferOnlyInFlight: lets a removal succeed for any descriptor, as it is meant to; the program's can for descriptor 2 only.
- ResponseText.RoundTripExactly: the body is all that follows the header block; framing by Content-Length (section 6 of RFC 9112) and the case of field names are not modelled.
- The parser llhttp: any sequence of callbacks may come for any bytes, and it may fail at the end of any call.
- Address lookup, and creating, binding and connecting sockets: the listening socket is given.
- EPOLLHUP and EPOLLRDHUP: they appear only as wake-ups, since the handlers do not look at them.
- More than one listening socket: the server has one.
- The array-backed heap of std::priority_queue: any event of minimal priority number may come out.
- Memory: leaks of responses, parsers and address lists, and the freeing of request and parser with the connection.
- The fields key and value of HttpResponse, and close of Clientconnection: nothing uses them.
- Liveness of the network: that a peer ever makes room or sends is not assumed.
- Printing, argument handling, main.cpp, src/temp.cpp, src/api.cpp and src/client.cpp.
