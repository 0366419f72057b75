# A verified model of the microservice framework

The repository is a Go framework in which a gate routes RPCs between clients and services and services push
messages to clients. This project models its stateful pieces and the messages that join them, and proves what they
keep over every input, every run and every interleaving.

| file | what it models |
|---|---|
| `Base.dfy` | missing values and Go's fixed-width integers |
| `CallbackQueue.dfy` | the callback manager's linked list: heap nodes refine a sequence; what a tick removes |
| `CallbackRace.dfy` | the id counter, and all interleavings of adding, fetching and timing out callbacks |
| `Codec.dfy` | the big-endian integer and terminated-string codecs |
| `Framing.dfy` | message framing, the decode loop, and the receive buffer of a connection |
| `Dispatch.dfy` | which frames a connection dispatches: verification, rejection, stop |
| `LoadBalancer.dfy` | the load balancer and its round robin |
| `RemoteTable.dfy` | the gate's tables of remotes, balancers and pinned ordered requests |
| `Gate.dfy` | request routing and response return in a gate, with its bookkeeping |
| `EndToEnd.dfy` | callers, gates and services joined by an unreliable network |
| `SyncCall.dfy` | the blocking service-to-service call and the manager it shares with response handlers |
| `TaskPool.dfy` | the task pool's counter and the order in which it runs tasks |
| `OrderedRequests.dfy` | the whole way of ordered requests: client connection, gate pool, pin, service |
| `SafePush.dfy` | the push service, with gate and receiver, over an unreliable network |
| `Logins.dfy` | the gates' login and logoff, which decide where a push goes |
| `AddressText.dfy` | service keys, service ids and login values as text |

Objects the program changes in place are classes whose methods are proved against functions on values; the laws are
lemmas about those functions. Protocols are transition systems: a run is any sequence of enabled steps, and each lock
region or channel hand-over is one step. In `EndToEnd.dfy` and `SafePush.dfy` a message once sent can be received any
number of times, in any order, or never. Clocks, database and redis results, send results and the choices of the
scheduler are parameters or events.

## Where code and documentation differ

The model follows the code.

- The documentation says callbacks are sorted by their time-out (README.md:53). `queueAdd` never compares with the
  head, so only what is behind the head is sorted (`InsertSortedIff`, `HeadStarves`).
- The documentation gives a message a 4-byte length (README.md:26); the code uses 2 bytes.
- The documentation says ordered requests are handled in the order sent, to a certain extent (README.md:199-206). The
  gate puts the requests themselves through its pool of workers, where they can overtake each other
  (`TwoInARowSwap`); `ReadSwapsIff` says when.
- The documentation says a safe push always arrives (README.md:197). A record whose type is neither "server" nor
  "client" is stored and can never be sent (`CanArriveIff`).

## What turned out false, and when it does hold

- Whole-list order after an insertion: exactly when the new entry does not end later than the head (`InsertSortedIff`).
- Distinct ids: exactly for fewer than 2^32 calls (`IdsDistinctIff`), and so the GRids of a gate exactly while fewer
  than 2^32 requests took one (`GridsDistinctIff`); the next is 0 (`GridsRunOut`).
- Every `AddCallBack` ending in exactly one way, handed out or timed out or still waiting: exactly when none came while
  its id was waiting (`CallbackRaceSafety`, for every run).
- A callback timed out by its own node only, and so not early (`TimeOutIsOwnAndDue`): after any run, an add is open to
  being timed out by another node exactly if a node of its id is in the list or on the way there
  (`TakenByAnotherIff`); `ReusedIdTimesOutEarly` is such a run. A node that is only on its way out does no harm.
- Round-robin fairness: exactly below 65536 elements (`FairIff`).
- Agreement of the tables after a step: exactly when a disappearance names the service the address belongs to
  (`StepAgreesIff`). Under a wrong name the address is refused ever after as what it is, and returns only by way of
  another service (`StaleAddressNeverReturns`, `StaleAddressReturnsThroughAnother`).
- A choice of remote in tables that agree is right exactly when the cache does not hold a live address of another
  service for it (`ChooseRightIff`); an address that passes to another service brings that about
  (`ReusedAddressMisroutes`).
- Ordered requests going to a live remote of their service: after any run in which disappearances name the right
  service, exactly when the cache does not mislead (`OrderedRepinsIff`). That they go to one address holds from any
  tables at all (`OrderedIsSticky`).
- Ordered requests being handled in order: it holds while no pin is lost with a request under way and the gate reads
  one in only when its pool has no other of that client to that service (`OrderKept`); for the reading this is exact
  (`ReadSwapsIff`). With more of them in the pool it still holds while no two workers have one at a time
  (`OrderKeptInTurn`). A pin lost too early brings them out of order (`LostPinSwaps`).
- A deleted callback node staying out of the list: exactly when the delete did not overtake its own add
  (`DeletedComesBackIff`); without that and without reused ids nothing is left behind (`NoLeftovers`).
- A callback gets the reply made for its own call in every run in which no connection id passes to another process
  while a call is pending under it, unless that process is past the call's rid (`EndToEndCorrelation`). After any such
  run the next step keeps to this exactly when no callback can come to run with the reply to another call
  (`CarefulIff`); `ReusedConnectionMisdelivers` is a run that does not keep to it.
- An answer carrying its own call's error text: always where its decode call held one frame (`ErrorTextOrigin`); in
  general exactly when the session holds no other call's text and no other call's handler is still to run in it
  (`ForeignTextIff`).
- A callback that was taken can still be delivered exactly when the send of its own attempt did not fail and the
  manager is not stuck on another failed one while handler or caller still need it (`TakenIsDeliveredIff`).
- A blocked tick can be freed exactly when the send of its call did not fail (`BlockedTickFreedIff`).
- The EXIT state of a connection is not final (`ExitCanReopen`).
- Reading back an `int`, a terminated string, a service key, a service id, a login value: each with its exact
  condition (`IntRoundTripIff`, `StringRoundTripIff`, `KeyRoundTripIff`, `RemoteIDUniqueIff`, `LoginRoundTripIff`).

## Model

| member | source | states |
|---|---|---|
| `EndToEnd.CallbackAtMostOnce` | clientsdk/gate_proxy.go:145-200 | in every run, with messages lost, delayed, reordered and duplicated, a call that wants a response is waiting or its callback ran, exactly one of these and once; no other callback runs |
| `EndToEnd.EndToEndCorrelation` | ms_gate/src/rpc_handler.go:81-178 | in every run in which no connection id passes to another process while a call is pending under it (unless that process has used the call's rid and does not wait under it), every callback that gets an answer gets the reply made for exactly its call |
| `EndToEnd.CarefulIff` | ms_gate/src/rpc_handler.go:91-178 | after any such run, a step keeps to that condition if and only if no run of steps that open no connection and take in no request comes to a callback that runs with the reply to another call |
| `EndToEnd.CarelessGoesAstray` | ms_gate/src/rpc_handler.go:156-165 | a step against the condition leaves an entry whose connection id is with a process that did not make the call and that waits under its rid or has still to use it |
| `EndToEnd.AstrayComesToMixUp` | ms_gate/src/rpc_handler.go:148-178 | from any reachable state with such an entry a callback of that process can come to run with the reply to the other's call |
| `EndToEnd.ErrorTextOrigin` | ms_framework/msf_default_rpc_handler.go:54-121 | the error text of an answer was set by a call of the same decode call, and is the call's own if that held one frame or if a gate made the answer |
| `EndToEnd.ForeignTextIff` | ms_framework/msf_default_rpc_handler.go:73-121 | at every point of every run, the answer still to come to a request can carry the error text of another call if and only if the session holds one already or another call's handler is still to run in it |
| `EndToEnd.ReusedConnectionMisdelivers` | ms_gate/src/rpc_handler.go:148-178 | a run in which a connection id passes on while a call is pending under it and the wrong callback gets the response |
| `EndToEnd.RoutedBecomesCall` | ms_gate/src/rpc_handler.go:91-118 | every request that is routed with a target, whatever its rid, becomes exactly one message to a service for the same call, under a GRid that is 0 if and only if its rid is; a one-way request leaves the gate as it was, any other leaves its rid and connection under the GRid |
| `EndToEnd.CallIsServed` | ms_gate/src/rpc_handler.go:81-131 | after any run, any further call, one-way or not, can be routed, read by a service and handled |
| `EndToEnd.CallIsAnswered` | ms_gate/src/rpc_handler.go:81-178 | after any run, a further call that wants a response, made on an open connection, can come to its callback running with the reply of its own handler and no error |
| `EndToEnd.RequestIsServed` | ms_gate/src/rpc_handler.go:91-118 | the same for every request already on its way |
| `EndToEnd.RequestIsAnswered` | ms_gate/src/rpc_handler.go:91-178 | the same for every request on its way whose call still waits |
| `EndToEnd.CallIsMade` | clientsdk/gate_proxy.go:145-172 | a call sends exactly one request; its rid is 0 and nothing waits if and only if it wants no response |
| `EndToEnd.RefusalComesBack` | ms_gate/src/rpc_handler.go:120-131 | a request without a target can be answered to its caller with an error of its own, if it wants a response, and is otherwise dropped without a trace |
| `EndToEnd.TimeOutEndsWait` | clientsdk/gate_proxy.go:160-172 | a time-out ends the wait of its call, with no answer, and of no other |
| `EndToEnd.ExpiredIsNotReturned` | ms_gate/src/rpc_handler.go:148-165 | a response under a GRid the gate has given up is not sent on; giving one up touches no other GRid and no other gate |
| `EndToEnd.ShutIsNotReached` | ms_gate/src/rpc_handler.go:160-178 | nor is one whose connection was shut, though its GRid is given up; shutting touches no other connection |
| `EndToEnd.ReplyIsOfHandler` | ms_framework/msf_default_rpc_handler.go:73-121 | a reply is one message for its own call, with a text of its own if the handler did not run, and otherwise with whatever text the session holds |
| `EndToEnd.CallKeepsInv` | clientsdk/gate_proxy.go:145-172 | making a call keeps the invariant: rids of a process distinct, the callback map tied to the calls, every callback accounted for |
| `EndToEnd.PassKeepsGates` | ms_gate/src/rpc_handler.go:91-106 | a new GRid was never passed before and stands for one call, whose rid the gate remembers |
| `EndToEnd.RouteKeepsInv` | ms_gate/src/rpc_handler.go:81-131 | routing keeps the invariant on every path: refused, without response, passed on |
| `EndToEnd.ReadKeepsInv` | ms_framework/msf_tcp_server.go:214-214 | a decode call, which makes one session for all its frames, keeps the invariant |
| `EndToEnd.ServiceKeepsInv` | ms_framework/msf_default_rpc_handler.go:54-121 | running a handler and replying keep the invariant |
| `EndToEnd.ReturnKeepsInv` | ms_gate/src/rpc_handler.go:148-178 | returning a response keeps the invariant, whether its entry and its connection are there or not |
| `EndToEnd.BackKeepsInv` | clientsdk/gate_proxy.go:188-200 | receiving a response keeps the invariant; a second or late one runs nothing |
| `EndToEnd.RunKeepsInv` | clientsdk/gate_proxy.go:145-200 | every reachable state satisfies the invariant |
| `EndToEnd.StepKeepsHome` | ms_gate/src/rpc_handler.go:148-178 | every step that keeps to the condition keeps: entries whose connection id is in use and responses under way lead to the process that called, or run nothing where they lead; answers received came to their caller |
| `CallbackRace.CallbackRaceSafety` | ms_framework/msf_callback_mgr_new.go:108-168 | in every interleaving, with any ids: each add of an id is waiting, handed out, timed out or overwritten, exactly one of these; none is overwritten if and only if no add came while its id was waiting; a waiting id has its node in the list or its add still in flight |
| `CallbackRace.NeverUsedIsClear` | ms_framework/msf_callback_mgr_new.go:145-152 | in every run an id that was never used has no node in the list or on the way there |
| `CallbackRace.TimeOutIsOwnAndDue` | ms_framework/msf_callback_mgr_new.go:108-138 | in every run that adds an id only when no node of it is in the list or on the way there, a tick takes an id out of the map only by popping the very node it was added with, and that has ended |
| `CallbackRace.TakenByAnotherIff` | ms_framework/msf_callback_mgr_new.go:108-152 | after any run whatever, a callback just added can come to be timed out by another node than its own, in a run that does not add its id again, if and only if a node of its id was in the list or on the way there |
| `CallbackRace.AfterTickOnlyHeadIsDue` | ms_framework/msf_callback_mgr_new.go:108-138 | when a tick ends, a due callback that still waits is the head of the list or its add is in flight |
| `CallbackRace.DeletedComesBackIff` | ms_framework/msf_callback_mgr_new.go:82-106 | in every run a delete leaves its node out of the list and every other in; some further run brings it back if and only if the delete overtook its own add |
| `CallbackRace.NoLeftovers` | ms_framework/msf_callback_mgr_new.go:145-168 | in every run that adds clear ids only and in which no delete overtakes its add, whenever nothing is in flight the list holds exactly the nodes of the callbacks that wait, each once |
| `CallbackRace.UninterruptedTick` | ms_framework/msf_callback_mgr_new.go:108-138 | the tick taken step by step, uninterrupted, is the atomic tick |
| `CallbackRace.AddKeepsInv` | ms_framework/msf_callback_mgr_new.go:145-152 | entering any id in the map keeps the invariant, also one that is there |
| `CallbackRace.AddToListKeepsInv` | ms_framework/msf_callback_mgr_new.go:47-80 | taking the node into the list keeps the invariant, also when its callback is gone already |
| `CallbackRace.GetKeepsInv` | ms_framework/msf_callback_mgr_new.go:154-168 | fetching an id, present or not, keeps the invariant |
| `CallbackRace.DelKeepsInv` | ms_framework/msf_callback_mgr_new.go:82-106 | the separate delete step keeps the invariant, before or after the node was added or ticked away |
| `CallbackRace.PopKeepsInv` | ms_framework/msf_callback_mgr_new.go:116-134 | one turn of the tick loop keeps the invariant |
| `CallbackRace.ReusedIdTimesOutEarly` | ms_framework/msf_callback_mgr_new.go:108-152 | a run in which an id is added while a node of its last use is listed, and that node times out the new callback at clock 10 although it ends at 100 |
| `Gid.NthIsModulo` | ms_framework/msf_utils.go:148-156 | the n-th id is n modulo 2^32 |
| `Gid.IdsDistinctIff` | ms_framework/msf_utils.go:144-156 | the first n ids are distinct and non-zero if and only if n < 2^32 |
| `CallbackQueue.PriorityQueue.QueueAdd` | ms_framework/msf_callback_mgr_new.go:47-80 | on the heap: the list stays well linked (prev and next inverse, both ends right, no cycle), the node stands at the scanned position, and the sequence of entries is the specified insertion |
| `CallbackQueue.PriorityQueue.FindPlace` | ms_framework/msf_callback_mgr_new.go:56-77 | the cursor walk stops at the node behind which the specification inserts |
| `CallbackQueue.PriorityQueue.QueueDel` | ms_framework/msf_callback_mgr_new.go:82-106 | a listed node is removed from the sequence and left detached; deleting a detached node leaves the sequence unchanged and lowers the size by one more |
| `CallbackQueue.PriorityQueue.PriorityQueueTick` | ms_framework/msf_callback_mgr_new.go:108-143 | the loop over linked nodes and map does what the tick on sequences does and leaves removed nodes detached; the ids it fires are those of the map whose last entry went and carries a time-out callback, in the order of these entries from the back |
| `CallbackSpec.TickCutsSuffix` | ms_framework/msf_callback_mgr_new.go:108-138 | a tick cuts the list at its longest ended suffix, and exactly the ids there leave the map |
| `CallbackSpec.TickFiresOnce` | ms_framework/msf_callback_mgr_new.go:118-131 | an id a tick fires was in the map, is not any more, and fires once |
| `CallbackSpec.TickFiresAllTaken` | ms_framework/msf_callback_mgr_new.go:118-131 | where all entries carry a time-out callback, a tick fires exactly the ids it takes out of the map |
| `CallbackSpec.TickFiresRight` | ms_framework/msf_callback_mgr_new.go:116-131 | for every list and map: an id fires if and only if it is in the map and its last entry is among those removed and carries a time-out callback; the ids fire in the order of these entries from the back |
| `CallbackSpec.InsertKeepsOrder` | ms_framework/msf_callback_mgr_new.go:56-77 | an insertion keeps everything behind the head in order |
| `CallbackSpec.RunKeepsOrder` | ms_framework/msf_callback_mgr_new.go:47-143 | in every list reached by adds, deletes and ticks, everything behind the head is in order |
| `CallbackSpec.InsertSortedIff` | ms_framework/msf_callback_mgr_new.go:56-77 | an ordered list stays ordered if and only if it is empty or the new entry does not end later than the head |
| `CallbackSpec.ExpiredSurvivorIsHead` | ms_framework/msf_callback_mgr_new.go:108-138 | after a tick of a reachable list only the head can have ended, and it has if and only if it had ended before and some entry behind it had not |
| `CallbackSpec.LateTickEmpties` | ms_framework/msf_callback_mgr_new.go:108-138 | a tick at or after every end time empties the list and takes exactly its ids from the map |
| `CallbackSpec.HeadStarves` | ms_framework/msf_callback_mgr_new.go:47-80 | two callbacks added in order of their end times: the first has ended and a tick leaves it |
| `Framing.TcpClient.ReceiveAll` | ms_framework/msf_tcp_server.go:160-224 | from an empty buffer, for every cut of the encodings of payloads up to the size limit and an unfinished tail into enough non-empty reads, exactly those payloads are dispatched in order and exactly the tail is kept |
| `Framing.FragmentationRoundTrip` | ms_framework/msf_simple_rpc.go:108-139 | the only reading of such a stream is those payloads and that tail |
| `Framing.TcpClient.HandleRead` | ms_framework/msf_tcp_server.go:160-224 | for every cut of a stream into reads, the payloads dispatched and the bytes kept are those of reading the whole stream at once |
| `Framing.TcpClient.OnRead` | ms_framework/msf_tcp_server.go:205-222 | one turn on any bytes: overflow never happens, the subtraction never wraps, whole frames are consumed, and what is kept is an unfinished frame |
| `Framing.TcpClient.Shift` | ms_framework/msf_tcp_server.go:222-222 | the unconsumed bytes move to the front of the buffer |
| `Framing.MessageDecode` | ms_framework/msf_simple_rpc.go:108-139 | on arbitrary bytes the consumed part is exactly the whole frames at the front, and those within the size limit are handed out in order; longer ones are skipped in step |
| `Framing.MessageEncode` | ms_framework/msf_simple_rpc.go:219-230 | a payload within the limit becomes its frame, a longer one nothing |
| `Framing.ParseUnique` | ms_framework/msf_simple_rpc.go:108-139 | bytes have at most one reading as whole frames and an unfinished tail |
| `Framing.ParseAppend` | ms_framework/msf_tcp_server.go:205-222 | reading what is there and later the rest with what follows is reading it all |
| `Framing.UnfinishedIsShort` | ms_framework/msf_simple_rpc.go:114-124 | at most 65536 bytes are kept between reads, whatever came |
| `Framing.TakeFrame` | ms_framework/msf_simple_rpc.go:44-55 | bytes that are not unfinished begin with a whole frame of the length they announce |
| `RoutingTables.TablesAgree` | ms_framework/msf_remote_mgr.go:63-119 | in every run where an address belongs to one service, no step panics and an address is a remote of a service exactly when it is in that service's balancer, and in no other |
| `RoutingTables.ChooseRightIff` | ms_framework/msf_remote_mgr.go:234-290 | in tables that agree, a choice is a live remote of the service if there is one and nothing otherwise, if and only if the cache does not give an ordered request a live address of another service; an ordered choice is remembered and no other client or service is affected |
| `RoutingTables.StepAgreesIff` | ms_framework/msf_remote_mgr.go:63-119 | a step keeps the tables in agreement if and only if a disappearance names the service the address is of |
| `RoutingTables.ProperRunAgrees` | ms_framework/msf_remote_mgr.go:63-119 | in every run of such steps no step panics and the tables agree throughout, also where addresses pass between services |
| `RoutingTables.OrderedIsSticky` | ms_framework/msf_remote_mgr.go:234-310 | from any tables, an ordered request goes where the first one went, whatever happens between (addresses may pass between services), until that remote disappears or the client closes |
| `RoutingTables.OrderedRepinsIff` | ms_framework/msf_remote_mgr.go:234-303 | after every run in which disappearances name the right service, where the service has a live remote, an ordered request is given and pinned to a live remote of it if and only if the cache does not hold a live address of another service; so always when the pinned remote has disappeared |
| `RoutingTables.DisappearAgreesIff` | ms_framework/msf_remote_mgr.go:63-77 | the tables still agree after an address disappears if and only if the service named is the one it belongs to |
| `RoutingTables.WrongNameLeavesStale` | ms_framework/msf_remote_mgr.go:63-77 | a disappearance under the wrong name leaves the address in its own service's balancer |
| `RoutingTables.StaleAddressNeverReturns` | ms_framework/msf_remote_mgr.go:79-119 | then in no run in which it is connected only as one of its own service does it become a remote again |
| `RoutingTables.StaleAddressReturnsThroughAnother` | ms_framework/msf_remote_mgr.go:63-119 | connected as one of another service and gone as one of its own, it can connect again |
| `RoutingTables.ConnectAgrees` | ms_framework/msf_remote_mgr.go:79-119 | connecting keeps the tables in agreement, and the add to the balancer cannot fail for a new address |
| `RoutingTables.ReusedAddressMisroutes` | ms_framework/msf_remote_mgr.go:256-290 | a run in which the tables agree, an address passes to another service, and an ordered request reaches the wrong one |
| `RoutingTables.ChoicesAreFair` | ms_framework/msf_remote_mgr.go:234-260 | from any tables that agree, over any run that leaves the live remotes of a service as they are (up to 65535, whatever happens to other services, clients and the cache), any two of them are given to requests equally often, or one of them once more |
| `RoutingTables.PickedAsTaken` | ms_framework/msf_load_balancer.go:118-136 | in such a run a remote is given as often as its place in the sorted listing is taken by that many calls of the balancer |
| `RoutingTables.AskedBalances` | ms_framework/msf_remote_mgr.go:244-252 | a request the cache does not answer gets the answer of the next call of the balancer, which moves on |
| `RemoteManager.RemoteMgr.ConnectRemote` | ms_framework/msf_remote_mgr.go:79-119 | the tables on the heap, with one balancer object for each service, change as specified |
| `RemoteManager.RemoteMgr.OnRemoteDisappear` | ms_framework/msf_remote_mgr.go:63-77 | panics exactly where specified, otherwise removes the remote and its element and nothing else |
| `RemoteManager.RemoteMgr.ChoiceRemote` | ms_framework/msf_remote_mgr.go:234-254 | a choice gives what the tables, cache and balancer say and changes them so: unless the cache answers, the balancer of the service has moved on by one call; otherwise it is untouched |
| `RemoteManager.RemoteMgr.FromOrderCache` | ms_framework/msf_remote_mgr.go:256-290 | a cached live remote is returned; a stale entry is forgotten |
| `RemoteManager.RemoteMgr.UpdateRemoteOrderCache` | ms_framework/msf_remote_mgr.go:292-303 | pins one client and service, no other |
| `RemoteManager.RemoteMgr.DelRemoteOrderCache` | ms_framework/msf_remote_mgr.go:305-310 | the pins of that client are gone and those of all others as before |
| `LoadBalancing.ServeIsFair` | ms_framework/msf_load_balancer.go:63-84 | over any number of calls with an unchanged set of up to 65535 elements and any start index, the weights of two elements grow by amounts that differ by at most one |
| `LoadBalancing.ServeCharges` | ms_framework/msf_load_balancer.go:63-138 | after any number of calls each element has been charged as often as its position was taken, with 32-bit wrap-around |
| `LoadBalancing.ChargedIsSum` | ms_framework/msf_load_balancer.go:63-84 | a weight charged c times is the sum modulo 2^32 |
| `RoundRobin.FairIff` | ms_framework/msf_load_balancer.go:108-138 | picks differ by at most one over all windows and start indices if and only if there are fewer than 65536 elements |
| `RoundRobin.Rounds` | ms_framework/msf_load_balancer.go:124-136 | any window is full rounds and one arc from the first position on |
| `RoundRobin.NeverTaken` | ms_framework/msf_load_balancer.go:124-136 | from 65536 elements on the last is never taken, whatever the index |
| `RoundRobin.Position` | ms_framework/msf_load_balancer.go:124-136 | the position taken is in bounds for every non-empty set, also where the length is truncated to 16 bits |
| `RoundRobin.Low16IsModulo` | ms_framework/msf_load_balancer.go:124-136 | the truncated length is the length modulo 2^16 |
| `StringOrder.ListsUnique` | ms_framework/msf_load_balancer.go:116-122 | a set has one sorted listing, so the order in which the map is iterated does not matter |
| `StringOrder.LeIff` | ms_framework/msf_load_balancer.go:122-122 | the listing is in the order of the characters at the first place where two strings differ, and of length where there is none |
| `LoadBalancing.LoadBalancer.SortedElements` | ms_framework/msf_load_balancer.go:116-122 | the loop over the map in any order yields that listing |
| `LoadBalancing.LoadBalancer.LoadBalanceRoundRobin` | ms_framework/msf_load_balancer.go:108-138 | returns the specified choice and moves only the index |
| `LoadBalancing.LoadBalancer.LoadBalance` | ms_framework/msf_load_balancer.go:63-84 | returns the choice and charges it; an empty balancer gives "" and changes nothing |
| `LoadBalancing.LoadBalancer.AddElement` | ms_framework/msf_load_balancer.go:29-46 | adds exactly a new element, with weight 0, and touches neither the index nor another weight |
| `LoadBalancing.LoadBalancer.DelElement` | ms_framework/msf_load_balancer.go:48-61 | deletes exactly a present element, and touches neither the index nor another weight |
| `GateRouting.GateConservation` | ms_gate/src/rpc_handler.go:38-178 | in every run in which fewer than 2^32 requests took a GRid, each request that wants a response is refused at once, pending, forwarded, dropped or expired, in exactly one class; the counts add up and every GRid is issued once and is not 0 |
| `GateRouting.RunCounts` | ms_gate/src/rpc_handler.go:91-106 | in every run, however long, the counter is the id after as many requests as took a GRid; refused requests take none |
| `GateRouting.RequestKeepsInv` | ms_gate/src/rpc_handler.go:81-131 | routing keeps the books balanced, unless the request takes a GRid and the counter is at its last value |
| `GateRouting.ReturnKeepsInv` | ms_gate/src/rpc_handler.go:148-178 | returning a response (known or not, connection there or not) and expiring keep the books balanced |
| `GateRouting.GridsDistinctIff` | ms_gate/src/rpc_handler.go:91-106 | the GRids of a run are distinct and not 0 if and only if fewer than 2^32 requests took one |
| `GateRouting.GridsRunOut` | ms_gate/src/rpc_handler.go:91-106 | the 2^32-th is 0 |
| `GateProcess.GateServer.ProcessRoute` | ms_gate/src/rpc_handler.go:38-132 | with a remote and the permission exactly one rpc is sent to that remote for every rid: under 0 with the gate unchanged if the rid is 0, and otherwise under the next GRid, which now remembers rid and connection; without, an error goes to the sender exactly if the rid is not 0, and nothing else changes |
| `GateProcess.GateServer.ProcessRsp` | ms_gate/src/rpc_handler.go:148-178 | a known GRid is consumed and its response goes back under its rid on its connection if that is a client or a remote; an unknown one changes nothing, and nothing is ever sent to a connection that is neither |
| `GateProcess.GateServer.OnTimeOut` | ms_framework/msf_callback_mgr_new.go:118-124 | an expired GRid leaves the map without a response |
| `GateProcess.GateServer.AccessReport` | ms_gate/src/rpc_handler.go:358-361 | from a report on, the requests of clients that pass the permission check are, for the service reported, exactly those for the rpcs it reported open, and for every other service those that passed before |
| `GateProcess.LastReportDecides` | ms_gate/src/rpc_handler.go:51-66 | after any reports an rpc is open to clients if and only if the last report of its service says so; before any report of a service none of its rpcs is |
| `SyncCall.ReturnsLast` | ms_framework/msf_simple_rpc.go:300-362 | in every interleaving of callers, response handlers and manager, a call that returned made at most one attempt more than its resends, under distinct rids of its own; all but the last timed out; after a time-out of the last its error is not empty and names the call, and there is no reply; an empty result means no gate, a failed send or an empty reply; a reply is one that was made for the last rid; responses to earlier rids find nothing |
| `SyncCall.ReturnsOnce` | ms_framework/msf_simple_rpc.go:300-362 | nothing that happens later changes its result or adds an attempt |
| `SyncCall.RpcCall` | ms_framework/msf_simple_rpc.go:300-362 | the recursive function: attempts under distinct rids, at most one more than the resends, all but the last timed out; a time-out of the last gives an error that names the call and no reply, and an empty result means no gate, a failed send, rid 0 or an empty reply; an attempt under rid 0 is the last and gives nothing |
| `SyncCall.AgreesWithRpcCall` | ms_framework/msf_simple_rpc.go:331-345 | what the function promises on how the attempts of a run turned out leaves only the result and the attempts of that run |
| `SyncCall.ReplyIsReturned` | ms_framework/msf_simple_rpc.go:314-362 | from any state with a free manager a further call can return any response that is made to it |
| `SyncCall.ResendIsReturned` | ms_framework/msf_simple_rpc.go:331-345 | a call that may resend and timed out once can make a second attempt under another rid and return the response to that |
| `SyncCall.TimeOutIsReturned` | ms_framework/msf_simple_rpc.go:316-342 | and, without resends, an error that tells of the time-out |
| `SyncCall.NoGateIsReturned` | ms_framework/msf_simple_rpc.go:306-312 | a call that finds no gate returns nothing and leaves no callback behind |
| `SyncCall.NodeLeaves` | ms_framework/msf_callback_mgr_new.go:82-134 | a node the manager deletes or ticks away is out of the list, and no other attempt is touched |
| `SyncCall.StepKeepsJobs` | ms_framework/msf_default_rpc_handler.go:156-166 | every step keeps that what a handler hands over was made for its rid and that a job moves on only after a time-out |
| `SyncCall.OneValuePerRid` | ms_framework/msf_default_rpc_handler.go:156-166 | in every interleaving a call has returned if and only if its callback was delivered, and a waiting call's callback is on its way or its node is in the list |
| `SyncCall.TakenIsDeliveredIff` | ms_framework/msf_callback_mgr_new.go:108-168 | in every reachable state a callback that a handler or the tick has taken can still be delivered if and only if its own send did not fail, and the manager is not stuck on a failed one while the handler has its delete or the caller its node still to hand over |
| `SyncCall.TakenIsDelivered` | ms_framework/msf_default_rpc_handler.go:156-166 | and then at most six steps of the blocked parties themselves deliver it |
| `SyncCall.FailedSendBlocksManager` | ms_framework/msf_simple_rpc.go:325-327 | once the tick has taken the callback of a failed send, no run from there frees the manager |
| `SyncCall.BlockedTickFreedIff` | ms_framework/msf_simple_rpc.go:325-331 | some run frees a blocked tick if and only if the send of its call did not fail |
| `SyncCall.FailedSendReachable` | ms_framework/msf_simple_rpc.go:316-327 | such a blocked state is reachable |
| `SyncCall.StepKeepsInv` | ms_framework/msf_callback_mgr_new.go:108-168 | every step of caller, response handler and manager keeps who holds which callback |
| `TaskPool.PoolAccounting` | ms_framework/msf_task_pool_new.go:18-89 | in every interleaving the 32-bit counter is the number of tasks accepted and not done with, modulo wraps; it is exact below 2^31, and zero then means nothing is queued or running |
| `TaskPool.OrderedTasksKeepOrder` | ms_framework/msf_simple_rpc.go:177-186 | ordered tasks of a connection start in arrival order, and one ordered task runs at a time |
| `TaskPool.TakenInTurn` | ms_framework/msf_task_pool_new.go:18-70 | in every interleaving the workers take the other tasks in the order they were sent, none lost or twice, and each worker has finished what it took but for the one it runs |
| `TaskPool.PoolDrains` | ms_framework/msf_task_pool_new.go:18-89 | after any run the pool can be drained without further tasks: nothing is left anywhere, and the counter is back at 0 up to its wraps |
| `TaskPool.TaskIsRun` | ms_framework/msf_task_pool_new.go:18-70 | after any run a further task can be handed in and come to be finished by a worker |
| `TaskPool.OrderedTaskIsRun` | ms_framework/msf_task_pool_new.go:33-89 | and an ordered one, of any connection whose reader is free, by the separate goroutine |
| `TaskPool.StepKeepsCount` | ms_framework/msf_task_pool_new.go:62-70 | every step keeps the counter tied to the tasks |
| `TaskPool.StepKeepsOrder` | ms_framework/msf_task_pool_new.go:33-40 | every step keeps the order of ordered tasks |
| `OrderedRequests.OrderKept` | ms_framework/msf_simple_rpc.go:177-186 | in every run over client connection, gate pool, pins, service connection and separate goroutine in which the gate reads an ordered request in only when its pool has none of that client to that service, and no pin is lost while one is under way, their handlers start in the order the client sent them |
| `OrderedRequests.OrderKeptInTurn` | ms_framework/msf_task_pool_new.go:18-40 | the same in every run in which no two workers have requests of one client to one service at a time, however many wait in the pool |
| `OrderedRequests.ReadSwapsIff` | ms_framework/msf_simple_rpc.go:177-186 | after any such run, once the gate reads in a further one, some run without further reading and without a lost pin starts them out of order if and only if the pool still had one |
| `OrderedRequests.TwoInARowSwap` | ms_framework/msf_task_pool_new.go:18-40 | for every client and service a run in which two requests sent in a row start in the wrong order |
| `OrderedRequests.LostPinSwaps` | ms_framework/msf_remote_mgr.go:262-303 | for every client and service and any two addresses a run in which a pin is lost while a request is under way and the next one overtakes it |
| `OrderedRequests.GoesThrough` | ms_framework/msf_simple_rpc.go:177-186 | after any run a request that meets no other goes through to the address its client is pinned to, and to any address if it has no pin |
| `OrderedRequests.StepKeepsInv` | ms_framework/msf_task_pool_new.go:18-70 | every such step keeps the numbers of the requests rising from those started over those under way and in the pool to those just sent |
| `OrderedRequests.ChoiceIsPick` | ms_framework/msf_remote_mgr.go:234-303 | an ordered choice on the routing tables goes to the pinned address if there is one, and pins what it chooses |
| `OrderedRequests.OthersKeepPins` | ms_framework/msf_remote_mgr.go:63-119 | every other step on the tables keeps all pins but those to an address that disappears or of a client that closes |
| `SafePush.ArrivedWasDelivered` | push_service/src/rpc_handler.go:53-153 | in every run a record marked ARRIVED was handled by its receiver, with its own body, on a connection the directory gave for its client; every reply is for such a record |
| `SafePush.ArrivedStays` | push_service/src/rpc_handler.go:91-108 | no later step drops a record, changes it or takes ARRIVED back |
| `SafePush.CanArriveIff` | push_service/src/rpc_handler.go:155-166 | from any point of any run a record can still arrive if and only if its type is "server" or "client" |
| `SafePush.RestoreReaches` | push_service/src/rpc_handler.go:124-153 | a restore attempts the UNARRIVE records of its client in the order listed: at its turn a record's message is sent if and only if the directory has a target by then, and nothing is sent from a lookup that panics on |
| `SafePush.RestoreSparesOthers` | push_service/src/rpc_handler.go:129-130 | and nothing is sent for any other record |
| `SafePush.RestoreSends` | push_service/src/rpc_handler.go:144-152 | in whatever order the query lists them, each listed record that has a target at its turn gives one message and nothing else is sent |
| `SafePush.LoggedInIsFound` | push_service/src/rpc_handler.go:157-188 | a value under "s_" and the id is where a push of type "server" goes, one under "c_" where a push of type "client" goes: to that gate, on that connection, if and only if the gate told its listen address and its connection is open |
| `Logins.LastLoginDecides` | ms_gate/src/rpc_handler.go:197-261 | after any logins and logoffs at any gates, a push of type "server" finds a party where it last logged in at a "ServiceGate", one of type "client" where it last logged in at a "ClientGate", if that gate can be reached; and not once it has logged off there |
| `Logins.OthersLoginsChangeNothing` | ms_gate/src/rpc_handler.go:197-261 | logins and logoffs of others, or of the same id at the other kind of gate or at one of another name, change nothing about where it is found |
| `Logins.LoginDecides` | ms_gate/src/rpc_handler.go:197-219 | the same for one login or logoff, failed ones included |
| `Logins.KeysDiffer` | push_service/src/rpc_handler.go:157-166 | different types or ids have different keys |
| `Logins.LoginGate.Login` | ms_gate/src/rpc_handler.go:197-219 | stores address and connection under the key of its kind of gate; fails exactly if redis does; a gate of another name reports success and stores nothing |
| `Logins.LoginGate.Logoff` | ms_gate/src/rpc_handler.go:240-261 | removes that key, with the same results |
| `SafePush.StepKeepsInv` | push_service/src/rpc_handler.go:53-193 | every step keeps that what carries a record's id carries its body to a place of its client, and that replies follow deliveries |
| `SafePush.NewMsg` | ms_gate/src/rpc_handler.go:299-312 | every message a step adds satisfies the invariant: pushes, what the gate forwards, and replies |
| `SafePush.DeliveryRepeats` | clientsdk/gate_proxy.go:216-253 | a message can be handled twice |
| `SafePush.UnsafeIsHandled` | push_service/src/rpc_handler.go:53-75 | an unsafe push leaves no record, can be handled on the connection the directory gave if the gate finds it open and goes no further otherwise, and is not replied to |
| `SafePush.SafeIsHandled` | push_service/src/rpc_handler.go:53-108 | a safe push to a party that is found can be stored, handled once with its body and marked ARRIVED |
| `SafePush.ObjectIDKeeps` | push_service/src/rpc_handler.go:92-93 | copying a pid into an object id keeps it if and only if it has 12 bytes |
| `SafePush.PushService.RspListenAddr` | push_service/src/rpc_handler.go:26-30 | from then on exactly the clients whose login value names that listen address are looked for on that connection, all others where they were |
| `SafePush.PushService.PushToGate` | push_service/src/rpc_handler.go:155-193 | under "s_" and the id for "server", under "c_" and the id for "client": sends one message to the gate and connection stored there if the gate can be reached, nothing on any of the failing paths, and panics exactly on a value without '/' |
| `SafePush.PushService.S2PPush` | push_service/src/rpc_handler.go:53-75 | a safe push is stored UNARRIVE before it is sent, a failed insert sends nothing, an unsafe push has no record and no pid |
| `SafePush.PushService.PushReply` | push_service/src/rpc_handler.go:91-108 | marks the record of that id if there is one, and changes nothing else |
| `SafePush.PushService.PushRestore` | push_service/src/rpc_handler.go:124-153 | the loop gets as far as the first record whose lookup panics and sends exactly what a restore sends; a failed query sends nothing |
| `Dispatch.VerifiedFirst` | ms_framework/msf_simple_rpc.go:173-208 | on a client gate a frame other than verify is dispatched if and only if a verify frame with the right key came before it and the server was not stopped since |
| `Dispatch.OkIff` | ms_gate/src/rpc_handler.go:327-342 | the connection state is OK exactly in that case |
| `Dispatch.RejectionHolds` | ms_framework/msf_simple_rpc.go:189-208 | after a rejected frame nothing but verify is dispatched until another right key |
| `Dispatch.WrongKeysChangeNothing` | ms_gate/src/rpc_handler.go:327-342 | verify frames with a wrong key, however many and wherever, leave the state what the other items make it |
| `Dispatch.ExitIff` | ms_framework/msf_simple_rpc.go:189-208 | a connection not in EXIT comes to EXIT if and only if the server was stopped or another frame came before verification, and no right key followed; so a wrong key never ends the read loop |
| `Dispatch.ExitCanReopen` | ms_framework/msf_simple_rpc.go:189-208 | a right key after a rejected frame in one decode call opens the connection again |
| `Dispatch.TcpClient.constructor` | ms_framework/msf_tcp_server.go:86-97 | a connection starts unverified on a client gate and open elsewhere |
| `Dispatch.TcpClient.PreCheck` | ms_framework/msf_simple_rpc.go:189-208 | passes verify in any state, anything on a session of a remote, and others only in OK; a refusal sets EXIT; panics exactly on another frame of a client that has left the server's table |
| `Dispatch.TcpClient.RpcDecode` | ms_framework/msf_simple_rpc.go:141-187 | dispatches exactly the frames that pass, and moves the state as specified |
| `Dispatch.TcpClient.MessageDecode` | ms_framework/msf_simple_rpc.go:108-139 | over all frames of one decode call |
| `Dispatch.TcpClient.HandleRead` | ms_framework/msf_tcp_server.go:160-224 | over decode calls up to the first one that leaves the state EXIT and no further: dispatched is what passes in the sequence of all frames met |
| `AddressText.KeyRoundTripIff` | ms_framework/msf_etcd_driver.go:156-206 | a printed service key splits back into namespace, service, ip and port if and only if the names and the ip have no '/' and the ip no ':' |
| `AddressText.KeysInjective` | ms_framework/msf_etcd_driver.go:204-206 | two different instances with such names have different keys, whatever their 64-bit ports |
| `AddressText.IntRoundTrip` | ms_framework/msf_etcd_driver.go:162-162 | parsing a printed 64-bit int gives it back |
| `AddressText.RemoteIDUniqueIff` | ms_framework/msf_remote_mgr.go:230-232 | the id of a service is the id of no other if and only if neither of its names has a ':' |
| `AddressText.LoginRoundTripIff` | push_service/src/rpc_handler.go:174-176 | a login value splits back into gate address and connection id if and only if neither has a '/' |
| `Codec.ReadersAgree` | ms_framework/msf_utils.go:26-60 | the readers give the base-256 value of their bytes |
| `Codec.WriteUint16` | ms_framework/msf_utils.go:96-99 | writes the two base-256 digits and nothing else |
| `Codec.WriteUint32` | ms_framework/msf_utils.go:109-114 | writes the four base-256 digits and nothing else |
| `Codec.WriteUint64` | ms_framework/msf_utils.go:120-129 | writes the eight base-256 digits and nothing else |
| `Codec.ValueOfDigits` | ms_framework/msf_utils.go:14-129 | reading what was written gives the value, for every width |
| `Codec.DigitsOfValue` | ms_framework/msf_utils.go:14-129 | writing what was read gives the bytes |
| `Codec.SignedRoundTrip` | ms_framework/msf_utils.go:14-118 | the same for signed integers of every width |
| `Codec.IntRoundTripIff` | ms_framework/msf_utils.go:101-103 | an int comes back if and only if it is between 0 and 2^32 - 1 |
| `Codec.WriteString` | ms_framework/msf_utils.go:131-134 | writes the string and its terminator exactly when both fit, and what fits before the panic otherwise |
| `Codec.ReadString` | ms_framework/msf_utils.go:68-82 | the bytes before the first zero byte; an error exactly if there is none |
| `Codec.StringRoundTripIff` | ms_framework/msf_utils.go:68-134 | what is read is what was written if and only if it has no zero byte |

## Left out

- msgpack encoding, reflection over handler fields and handler registration: an encoded rpc is an opaque payload.
- Sockets, read deadlines and heartbeats, and the etcd, redis and mongo drivers: their results are parameters or events.
- Data races in the sense of the Go memory model: each lock region is one step.
- A choice of remote split into its lock regions: two concurrent first ordered requests can both miss the cache, so stickiness and pins are stated for atomic choices.
- Time-out callbacks that themselves add a callback on the manager's goroutine.
- Retries of `OnRemoteDiscover`, the lease monitor and the periodic full discovery.
- `LoadBalanceRand` and the choice of a strategy: only membership could be said.
- The copies of the read loop in `Remote` and `GateProxy`; a remote is represented by the id of its service.
- Byte order of strings: strings are compared by characters, the source compares their UTF-8 bytes.
- Flow counter, logging, profiling, configuration, main functions, demo services and the commented-out files.
- Framing.TcpClient.HandleRead: assumes the connection stays open; closing is in `Dispatch`.
- EndToEnd.EndToEndCorrelation: the id counters of callers and gates are assumed below their last value whenever an id is taken; what happens beyond is in `GridsRunOut` and `ReusedIdTimesOutEarly`.
- SafePush.ArrivedWasDelivered: record ids are assumed unique and replies to come only from the receiver's handler, as the database and the client library provide.
- OrderedRequests.OrderKept: that a pin is lost only when nothing is under way is shown to suffice, with `LostPinSwaps` as the run without it, not to be exact after every run; unordered requests, which only keep workers busy, and several gates or connections of one client are not modelled.
- Dispatch.TcpClient.RpcDecode: for connections in the server's table, which a connection leaves only after its read loop has ended.
