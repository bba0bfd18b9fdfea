# Pipes and method lookup, modelled in Dafny

This project models two parts of an early Rust compiler and runtime.

**The one-shot pipe runtime** (`src/libcore/pipes.rs`). A packet is a header
(a four-valued `state` and an optional `blocked_task`) plus one payload slot.
Each operation does one atomic exchange of the state and then branches on the
state it displaced. The operations are `send`, `recv`, `sender_terminate`,
`receiver_terminate`, `mark_blocked` and `unblock`.

- Module `PipeProtocol` (`pipe_protocol.dfy`) gives each operation as a pure
  transition function on the packet's cells. The counter `frees` records each
  release by drop glue.
- The same module runs both parties of one channel in any legal order of
  their steps. It proves an invariant, and from it that the allocation is
  released exactly once, and only after both parties are done.
- Module `Pipes` (`pipes.dfy`) is the heap model: classes `Header`, `Packet`,
  `SendPacket` and `RecvPacket` whose fields the methods overwrite.
- Each `Packet` method is proved to perform exactly the transition its pure
  counterpart describes.
- `recv` is split at its one suspension point. `RecvBegin` records the task
  and makes the first exchange. `Packet.RecvWake` is the re-check after the
  task wakes.
- `wait_many` is split into its three passes: `PollPass`, `WaitPass` (driven
  by a sequence of wake events) and `Finalize`. `Poll` is the reference
  function for the poll pass and `FirstMatch` for the wait pass. `select`
  unwraps its endpoints, runs `wait_many`, and calls `recv` on the ready
  packet.
- `Select` runs `select` as one uninterrupted call. The predicate
  `SelectDecided` states what it returns, in terms of the states and payloads
  the packets had when it was called.
- `select` is also split at its suspension point inside `wait_many`.
  `SelectBegin` unwraps the endpoints and runs the poll pass. `SelectWake` is
  the wait pass, the final pass and `recv` after the task wakes. The
  predicate `WakeDecided` states what it returns, in terms of the states and
  payloads at the wake and the header the wake events name.
- Module `PipeScenarios` (`pipe_scenarios.dfy`) drives channels through
  concrete orders of steps on the heap model:
  - the four completion orders;
  - orders in which the receiver parks first;
  - a wake before anything happened;
  - the two `select` runs of `src/test/run-pass/pipe-select.rs`, once with the
    channel signalled before `select` is called, and once with the task parked
    on both headers and then signalled;
  - over any number of Empty channels, the run in which `select` parks, a
    send on the channel at `k` signals the parked task, and `select` returns
    `k` and the value.

A receiver woken while the packet is still Blocked does not park again. It
loops back to the exchange, sees Blocked and fails with "blocking on already
blocked packet" (`SpuriousWakeFails`, `SpuriousWake`).

`sender_terminate` on a Blocked packet issues no signal. The model follows the
code. `SenderDropWhileParkedSignalsNothing` and
`ParkedAfterSenderDropIsStranded` prove the consequence: a receiver parked
before the sender drops has no signal pending, and nothing left in the channel
can send one.

**Method lookup** (`src/rustc/middle/typeck/check/method.rs`, module
`MethodLookup` in `method_lookup.dfy`). The class `lookup` becomes the class
`Lookup`. Its mutable fields keep their roles: `selfTy`, `derefs`,
`candidates`, `candidateImpls`, the diagnostics emitted, and the type written
for the call.

- Every type-system query goes through the oracle datatype `Env`: the shape
  of a type, `deref`, parameter bounds, method tables, impl scopes,
  subtyping, assignability, fresh type variables and function types.
- `Env.Wf` assumes that `deref` lowers a rank, and that `next_ty_vars(n)`
  makes `n` variables. The source loop has no such guard: it does not end on
  a cyclic chain of dereferences.
- Each method of `Lookup` is proved against a pure reference function:
  - `ParamCandidates` for the bounds;
  - `TraitAdded` for a boxed trait;
  - `ClassCandidates` and `FirstPrivate` for a class;
  - `ImplsPass` and `ScopesSearch` for the scopes;
  - `Level`, `SearchTurn` and `Search` for the search loop;
  - `Conclude` for the end of `method`.
- Lemmas prove what the search promises about those functions: the stage
  order, the stopping rules, deduplication by impl, bound numbering, error
  reporting, and the type-parameter rule.

## Model

| member | source | states |
|---|---|---|
| PipeProtocol.SendStep | src/libcore/pipes.rs:78-106 | an occupied slot is refused with the cells unchanged; otherwise the value is stored and the state becomes Full; the blocked task is signalled exactly when the old state was Blocked with a task; the packet is released exactly when the send is discarded |
| PipeProtocol.TakeStep | src/libcore/pipes.rs:132-136 | the packet ends Terminated with an empty slot; the value is returned exactly when there was one, and the packet is then released |
| PipeProtocol.RecvExchangeStep | src/libcore/pipes.rs:115-142 | parks exactly on Empty, returns none exactly on Terminated, fails on Blocked; a returned value is the payload of a Full packet; the blocked task is kept |
| PipeProtocol.RecvBeginStep | src/libcore/pipes.rs:112-117 | the receiving task is recorded; the receiver parks exactly when the packet was Empty |
| PipeProtocol.RecvWakeStep | src/libcore/pipes.rs:122-129 | after a wake the receiver parks again only on Empty; still Blocked means the failure; on Full it gets the value exactly when there is one |
| PipeProtocol.SenderTerminateStep | src/libcore/pipes.rs:146-161 | the state becomes Terminated, payload and task kept; the sender frees exactly on Terminated and fails exactly on Full |
| PipeProtocol.ReceiverTerminateStep | src/libcore/pipes.rs:163-178 | the state becomes Terminated, payload and task kept; the peer frees exactly on Empty; the receiver fails exactly on Blocked |
| PipeProtocol.UnblockState | src/libcore/pipes.rs:187-193 | `unblock` never leaves a header Blocked; it keeps Full and Terminated and turns Empty and Blocked into Empty |
| PipeProtocol.InvStart | src/libcore/pipes.rs:22-31 | a channel fresh from `entangle` (Empty, no task, no payload, nothing freed) satisfies the protocol invariant |
| PipeProtocol.InvStep | src/libcore/pipes.rs:75-178 | from any state satisfying the invariant, every step a party may take succeeds (none of the runtime's `fail`s is reached) and keeps the invariant |
| PipeProtocol.ExecKeepsInv | src/libcore/pipes.rs:75-178 | every legal sequence of the two parties' steps runs without a fault and ends in a state satisfying the invariant |
| PipeProtocol.ExactlyOneFree | src/libcore/pipes.rs:82-176 | in every legal order of the two parties' steps the packet is released at most once, and exactly when both parties are done (the `forget` branches leave the free to the peer, the drop-glue branches free) |
| PipeProtocol.RecvResultMatchesSender | src/libcore/pipes.rs:109-144 | in every legal run, a value `recv` returned is the value that was sent, and `recv` returns none only when the sender dropped its endpoint |
| PipeProtocol.SpuriousWakeFails | src/libcore/pipes.rs:115-131 | a receiver woken while nobody has sent or dropped re-exchanges, meets Blocked and fails with "blocking on already blocked packet" |
| PipeProtocol.SendWakesParkedReceiver | src/libcore/pipes.rs:89-101 | a send onto a parked receiver's packet signals exactly that task; the woken receiver takes the sent value, the state becomes Terminated and the packet is released |
| PipeProtocol.SenderDropWhileParkedSignalsNothing | src/libcore/pipes.rs:146-161 | dropping the sender while the receiver is parked succeeds, signals nothing, and leaves the receiver parked |
| PipeProtocol.ParkedAfterSenderDropIsStranded | src/libcore/pipes.rs:149-152 | once the sender has dropped while the receiver is parked, no signal is pending and the only step left in the channel is the receiver's own wake |
| Pipes.Header.constructor | src/libcore/pipes.rs:24-27 | a new header is Empty with no blocked task |
| Pipes.Header.Exchange | src/libcore/pipes.rs:59-73 | the swap returns the displaced state and stores the new one, leaving the blocked task alone |
| Pipes.Header.MarkBlocked | src/libcore/pipes.rs:182-185 | records the task, leaves the header Blocked and returns the old state |
| Pipes.Header.Unblock | src/libcore/pipes.rs:187-193 | the new state is `UnblockState` of the old one; the blocked task is unchanged |
| Pipes.Packet.constructor | src/libcore/pipes.rs:22-31 | `packet()`: a fresh header, state Empty, no task, no payload, nothing freed |
| Pipes.Packet.Send | src/libcore/pipes.rs:78-106 | the new cells and the outcome are exactly `SendStep`'s: refuse an occupied slot; store the value and exchange to Full; then fast path on Empty, signal the blocked task on Blocked (fail with no task), "duplicate send" on Full, release on Terminated |
| Pipes.Packet.TakePayload | src/libcore/pipes.rs:132-136 | moves the payload out, leaves the slot none and the state Terminated, and returns the value (releasing the packet), or fails at the unwrap of none |
| Pipes.Packet.RecvExchange | src/libcore/pipes.rs:115-142 | one exchange to Blocked: park on Empty, "blocking on already blocked packet" on Blocked, take the payload on Full, release and return none on Terminated |
| Pipes.Packet.RecvBegin | src/libcore/pipes.rs:112-117 | records the receiving task, then performs `RecvExchangeStep` |
| Pipes.Packet.RecvWake | src/libcore/pipes.rs:122-129 | after a wake: takes the payload if the state is Full, otherwise loops back to the exchange |
| Pipes.Packet.SenderTerminate | src/libcore/pipes.rs:146-161 | exchange to Terminated; the peer frees on Empty or Blocked, "you dun goofed" on Full, the sender frees on Terminated |
| Pipes.Packet.ReceiverTerminate | src/libcore/pipes.rs:163-178 | exchange to Terminated; the peer frees on Empty, "terminating a blocked packet" on Blocked, the receiver frees on Full or Terminated |
| Pipes.SendPacket.constructor | src/libcore/pipes.rs:273-276 | the endpoint holds the packet |
| Pipes.SendPacket.Unwrap | src/libcore/pipes.rs:287-291 | swaps the pointer out, leaving the endpoint empty |
| Pipes.SendPacket.Drop | src/libcore/pipes.rs:277-286 | an endpoint still holding its packet runs `sender_terminate` on it; an emptied one does nothing |
| Pipes.RecvPacket.constructor | src/libcore/pipes.rs:296-299 | the endpoint holds the packet |
| Pipes.RecvPacket.Unwrap | src/libcore/pipes.rs:310-314 | swaps the pointer out, leaving the endpoint empty |
| Pipes.RecvPacket.Drop | src/libcore/pipes.rs:300-309 | an endpoint still holding its packet runs `receiver_terminate` on it; an emptied one does nothing |
| Pipes.Entangle | src/libcore/pipes.rs:317-320 | both endpoints wrap the same fresh packet, in its initial state |
| Pipes.Send | src/libcore/pipes.rs:75-80 | consumes the endpoint (its later drop is a no-op) and performs `SendStep` on its packet; an already emptied endpoint is the unwrap failure |
| Pipes.RecvBegin | src/libcore/pipes.rs:109-117 | consumes the endpoint, returns its packet, and performs `RecvBeginStep`; an already emptied endpoint is the unwrap failure |
| Pipes.Poll | src/libcore/pipes.rs:204-216 | the reference for the poll pass: an index it returns is one of the headers; `PollFindsFirst` and `PollStopsAt` state where it stops |
| Pipes.PollFindsFirst | src/libcore/pipes.rs:204-216 | the poll pass stops at the lowest-indexed Full or Terminated header, or fails at a Blocked one, with every header before it Empty; it finds nothing only when all are Empty |
| Pipes.PollStopsAt | src/libcore/pipes.rs:204-216 | conversely, where every header before `i` is Empty, the state at `i` decides where the poll pass stops |
| Pipes.PollPass | src/libcore/pipes.rs:204-216 | the result is `Poll` of the old states; headers before the stopping point are Blocked by the task; the stopping header has its old state back; later headers are untouched |
| Pipes.PollHeader | src/libcore/pipes.rs:205-214 | marks one header blocked by the task and puts back a Full or Terminated state; other headers are unchanged |
| Pipes.Position | src/libcore/pipes.rs:221 | `vec::position`: the first index holding the event, or none when no header is the event |
| Pipes.WaitPass | src/libcore/pipes.rs:218-232 | the ready index is the position of the first event that is one of the headers; events before it matched nothing and were ignored; none means no event matched |
| Pipes.Finalize | src/libcore/pipes.rs:236 | every header's state becomes `UnblockState` of its old state; blocked tasks are unchanged |
| Pipes.FinishWait | src/libcore/pipes.rs:236-243 | after unblocking every header, the ready index is returned exactly when that header is Full or Terminated, otherwise the assertion fails |
| Pipes.WaitMany | src/libcore/pipes.rs:198-244 | the poll pass decides: a ready header found first is returned; a Blocked one first is "blocking on blocked packet"; a returned header is Full or Terminated and no header is left Blocked |
| Pipes.UnwrapAll | src/libcore/pipes.rs:251-253 | every endpoint is emptied, and the packets come back in endpoint order |
| Pipes.Consume | src/libcore/pipes.rs:258-266 | `recv` on the ready packet (which does not park) with its result; fresh endpoints around every other packet, in order, n-1 of them |
| Pipes.SelectReady | src/libcore/pipes.rs:258-268 | a Full ready packet yields its payload (none is the unwrap failure), a Terminated one yields none; the others come back in order |
| Pipes.SelectPackets | src/libcore/pipes.rs:254-268 | the outcome is `SelectDecided` of the packets' states and payloads at the call; the remaining endpoints are fresh and wrap the other packets in their original order; their headers end as `UnblockState` of their old states |
| Pipes.SelectDecided | src/libcore/pipes.rs:248-269 | what the uninterrupted `select` returns: the poll pass decides, and with no send landing during the call nothing is selected when it found nothing; a selected index has only Empty headers before it |
| Pipes.FirstMatch | src/libcore/pipes.rs:218-232 | the header named by the first event that names any header; every event before it named none; none only when no event names a header |
| Pipes.SelectBegin | src/libcore/pipes.rs:198-216 | with the unwrapping of lines 251-253: every endpoint is emptied, the packets come back in order, the poll result is `Poll` of the states at the call, and headers before the stopping point are Blocked by the task |
| Pipes.WakeDecided | src/libcore/pipes.rs:218-268 | what `select` returns after a wake: a header is selected exactly when the wake events name one and that header is Full with a payload or Terminated |
| Pipes.SelectWake | src/libcore/pipes.rs:218-268 | the outcome is `WakeDecided` of the states and payloads at the wake and `FirstMatch` of the events; the n-1 remaining endpoints are fresh and wrap the other packets in order, and their headers are unblocked |
| Pipes.Select | src/libcore/pipes.rs:248-269 | consumes every endpoint; the index, value and failure are as `SelectDecided` says for the states and payloads at the call; the n-1 remaining endpoints wrap the other packets in their original order, and their headers are unblocked |
| PipeScenarios.SendThenRecv | src/libcore/pipes.rs:82-137 | send on the fast path, then `recv` gets the value; the packet is released once |
| PipeScenarios.RecvParksThenSend | src/libcore/pipes.rs:89-129 | `recv` parks; send signals that task; after the wake `recv` gets the value; released once |
| PipeScenarios.SendThenReceiverDrop | src/libcore/pipes.rs:163-178 | send, then the unused receiver is dropped and frees the packet together with the unread payload; released once |
| PipeScenarios.ReceiverDropThenSend | src/libcore/pipes.rs:102-105 | receiver dropped first; the later send is discarded and the sender frees; released once |
| PipeScenarios.SenderDropThenRecv | src/libcore/pipes.rs:138-141 | sender dropped unused, then `recv` returns none and frees; released once |
| PipeScenarios.RecvParksThenSenderDrop | src/libcore/pipes.rs:146-152 | `recv` parks, the sender drops with no signal; a receiver that wakes anyway returns none and frees; released once |
| PipeScenarios.SpuriousWake | src/libcore/pipes.rs:115-131 | a wake before anything happened fails with "blocking on already blocked packet"; nothing is freed |
| PipeScenarios.BothDropped | src/libcore/pipes.rs:146-178 | both endpoints dropped unused, in either order: the first leaves the free to the peer, the second frees |
| PipeScenarios.DropAfterSend | src/libcore/pipes.rs:277-286 | the endpoint consumed by `send` does nothing when dropped; the packet stays Full |
| PipeScenarios.SelectSignalled | src/test/run-pass/pipe-select.rs:42-55 | `select` over two channels of which only the one at `which` was signalled returns that index and its value, with one endpoint remaining whose header is Empty again |
| PipeScenarios.SelectOverTwo | src/libcore/pipes.rs:248-269 | the same run, stated on the two endpoints |
| PipeScenarios.SelectParksThenSend | src/libcore/pipes.rs:198-268 | over any number of channels, all Empty: the poll pass finds nothing; a send on the channel at `k` signals the parked task; after a wake whose first event naming a header names the one at `k`, `select` returns `k` and the sent value, with the other n-1 endpoints in their original order and their headers Empty again |
| PipeScenarios.ParkOnAll | src/libcore/pipes.rs:204-216 | the poll pass over Empty headers finds nothing and leaves every header Blocked by the task |
| PipeScenarios.SendToParked | src/libcore/pipes.rs:89-101 | a send onto a packet whose receiver is parked signals that task and leaves the packet Full with the value |
| PipeScenarios.SendAndWake | src/libcore/pipes.rs:89-268 | with every header Blocked by the task: the send at `k` signals it, and the wake selects `k` with the value |
| PipeScenarios.WakeOnSignalled | src/libcore/pipes.rs:218-268 | with the packet at `k` Full and the others Blocked, a wake naming `k` selects it, returns its value and leaves the others Empty and in order |
| PipeScenarios.SelectThenSignal | src/test/run-pass/pipe-select.rs:42-55 | `select` over two fresh channels parks; only the one at `which` is signalled; after one spurious event `select` returns `which` and the value, with one endpoint remaining whose header is Empty again |
| MethodLookup.FindIdent | src/rustc/middle/typeck/check/method.rs:183 | `vec::position` by name: the first method with the name, or none when no method has it |
| MethodLookup.FromM | src/rustc/middle/typeck/check/method.rs:351-367 | the candidate `add_candidates_from_m` pushes: at the current receiver and `derefs`, with the boxed method type; its properties are stated by the lemmas on the passes that use it |
| MethodLookup.ParamCandidates | src/rustc/middle/typeck/check/method.rs:164-210 | the reference for the bounds pass; `ParamBoundsAccounted`, `ParamCandidatesShape` and `ParamFirstBoundNum` state its properties |
| MethodLookup.ParamBoundsAccounted | src/rustc/middle/typeck/check/method.rs:168-208 | copy, send and const bounds give nothing and do not count; each trait bound either gives one candidate or advances `trait_bnd_idx` |
| MethodLookup.ParamCandidatesShape | src/rustc/middle/typeck/check/method.rs:189-206 | every bound candidate is a `method_param` of parameter `n` at the current receiver and `derefs`, with `self` replaced by the parameter type |
| MethodLookup.ParamFirstBoundNum | src/rustc/middle/typeck/check/method.rs:164-210 | the bounds give a candidate exactly when some bound's trait has the method; the first candidate comes from the first such bound, with the method's position as `method_num` and the number of trait bounds before it as `bound_num` |
| MethodLookup.TraitAdded | src/rustc/middle/typeck/check/method.rs:212-245 | every trait candidate is at the current receiver and `derefs` |
| MethodLookup.TraitCandidatesAreMatches | src/rustc/middle/typeck/check/method.rs:217-244 | the trait candidates are exactly the methods with the name, in order, each recorded as `method_trait(did, i)` under its own index and carrying its own type-parameter count, errors or not |
| MethodLookup.TraitErrors | src/rustc/middle/typeck/check/method.rs:218-234 | the errors of one trait method called through a boxed trait; `TraitErrorsReported` states when each is reported |
| MethodLookup.TraitErrorsReported | src/rustc/middle/typeck/check/method.rs:218-234 | the self-type error is reported exactly when a method with the name mentions self, the generic-method error exactly when one has type parameters |
| MethodLookup.FirstPrivate | src/rustc/middle/typeck/check/method.rs:253-261 | the first class method with the name that is private while private methods are excluded; none when private methods are allowed or no such method exists |
| MethodLookup.ClassCandidates | src/rustc/middle/typeck/check/method.rs:247-270 | the reference for the class pass; `ClassCandidatesShape` and `ClassCandidateCount` state its properties |
| MethodLookup.ClassCandidatesShape | src/rustc/middle/typeck/check/method.rs:263-268 | every class candidate is `method_static` of the declaration found by name, with the class substitutions, at the current receiver and `derefs` |
| MethodLookup.ClassCandidateCount | src/rustc/middle/typeck/check/method.rs:253-269 | one class candidate per method with the name |
| MethodLookup.FindImplMethod | src/rustc/middle/typeck/check/method.rs:306 | the first of the impl's methods with the name, or none when it has none |
| MethodLookup.ImplsPass | src/rustc/middle/typeck/check/method.rs:304-343 | one impl recorded per candidate; every candidate is `method_static` at the current receiver and `derefs` |
| MethodLookup.ImplsPassDedup | src/rustc/middle/typeck/check/method.rs:327-338 | no impl gives two candidates, and none already in `candidate_impls` gives one |
| MethodLookup.ImplsPassSound | src/rustc/middle/typeck/check/method.rs:306-326 | every impl that gave a candidate is in the scope, has the method, and matches by subtyping (or by assignability in the second stage) |
| MethodLookup.ImplsPassComplete | src/rustc/middle/typeck/check/method.rs:304-341 | every impl in the scope that has the method, matches and is not yet in `candidate_impls` gives a candidate |
| MethodLookup.ScopesSearch | src/rustc/middle/typeck/check/method.rs:303-348 | one impl per candidate, all at the current receiver and `derefs` |
| MethodLookup.ScopesSearchFirst | src/rustc/middle/typeck/check/method.rs:345-347 | the scope search adds exactly what the first scope that adds anything adds (innermost first), and nothing when no scope does |
| MethodLookup.StageOne | src/rustc/middle/typeck/check/method.rs:63-74 | the first stage never changes the receiver, `derefs` or `candidate_impls` |
| MethodLookup.ScopeStage | src/rustc/middle/typeck/check/method.rs:297-349 | a scope stage keeps the existing candidates as a prefix, adds only candidates at the current receiver and `derefs`, and changes nothing else the search reads |
| MethodLookup.Level | src/rustc/middle/typeck/check/method.rs:61-93 | the stages at one receiver type leave the receiver and `derefs` as they were |
| MethodLookup.SearchTurn | src/rustc/middle/typeck/check/method.rs:61-103 | a level stops with a candidate, or where `deref` fails; otherwise the next level starts at the dereferenced type with `derefs` one higher and no candidates |
| MethodLookup.Search | src/rustc/middle/typeck/check/method.rs:61-103 | the reference for the search loop; `SearchEndsAtDeref` and `SearchCandidatesAtLastLevel` state its properties |
| MethodLookup.SearchEndsAtDeref | src/rustc/middle/typeck/check/method.rs:95-101 | a search that ends without the fatal error ends at the type reached by `k` successful dereferences, with `derefs` increased by exactly `k`; with no candidate it ends only where `deref` fails |
| MethodLookup.SearchCandidatesAtLastLevel | src/rustc/middle/typeck/check/method.rs:61-103 | every candidate found records the final receiver type and dereference count |
| MethodLookup.LevelCandidates | src/rustc/middle/typeck/check/method.rs:61-93 | starting from no candidates, a level adds only candidates at its own receiver and `derefs` |
| MethodLookup.ChooseMethodTps | src/rustc/middle/typeck/check/method.rs:394-413 | no supplied types means fresh variables; types supplied to a method with none, or in the wrong number, mean the matching error plus fresh variables; otherwise the supplied types are used |
| MethodLookup.CandidateNotes | src/rustc/middle/typeck/check/method.rs:112-124 | one note per candidate, numbered from 1, naming its origin |
| MethodLookup.AmbiguityDiags | src/rustc/middle/typeck/check/method.rs:107-125 | with more than one candidate, one "multiple applicable methods" error followed by the notes; nothing otherwise |
| MethodLookup.Conclude | src/rustc/middle/typeck/check/method.rs:105-127 | none exactly when there is no candidate; otherwise the ambiguity is reported and the first candidate's entry is returned; earlier diagnostics are kept |
| MethodLookup.AllSubsts | src/rustc/middle/typeck/check/method.rs:415-416 | the written type parameters are the class's followed by the method's; the region and self parameters are the candidate's |
| MethodLookup.Lookup.constructor | src/rustc/middle/typeck/check/method.rs:32-54 | `derefs` 0, no candidates, no impls recorded, no diagnostics |
| MethodLookup.Lookup.AddCandidateFromM | src/rustc/middle/typeck/check/method.rs:351-367 | appends one candidate at the current receiver and `derefs`, with the boxed method type; nothing else changes |
| MethodLookup.Lookup.AddCandidatesFromParam | src/rustc/middle/typeck/check/method.rs:164-210 | appends exactly `ParamCandidates` of the parameter's bounds, with `trait_bnd_idx` counting the lacking trait bounds |
| MethodLookup.Lookup.AddCandidatesFromTrait | src/rustc/middle/typeck/check/method.rs:212-245 | appends exactly the `TraitAdded` candidates and diagnostics |
| MethodLookup.Lookup.AddCandidatesFromClass | src/rustc/middle/typeck/check/method.rs:247-270 | returns fatal exactly when a private method with the name is met while private methods are excluded; the candidates of the methods before it are appended |
| MethodLookup.Lookup.AddCandidatesFromImpls | src/rustc/middle/typeck/check/method.rs:304-343 | appends exactly `ImplsPass` over the scope from the impls recorded so far, records the impls it added, and reports whether any was added |
| MethodLookup.Lookup.AddCandidatesFromScope | src/rustc/middle/typeck/check/method.rs:297-349 | the new state is `ScopeStage` of the old one: the scopes from the innermost, stopping after the first that added a candidate |
| MethodLookup.Lookup.ReportAmbiguity | src/rustc/middle/typeck/check/method.rs:107-125 | appends `AmbiguityDiags` of the candidates; nothing else changes |
| MethodLookup.Lookup.NoteCandidates | src/rustc/middle/typeck/check/method.rs:112-124 | appends one numbered note per candidate; nothing else changes |
| MethodLookup.Lookup.WriteMtyFromCandidate | src/rustc/middle/typeck/check/method.rs:369-421 | an unassignable receiver is the internal error; otherwise writes the method type with the class's then the method's type parameters, adds the type-parameter error if any, and returns the entry |
| MethodLookup.Lookup.LevelStep | src/rustc/middle/typeck/check/method.rs:62-93 | runs the stages of `Level`: own methods by the receiver's shape, then scopes by subtyping, then by assignability, each only while there are no candidates |
| MethodLookup.Lookup.SearchStep | src/rustc/middle/typeck/check/method.rs:62-102 | one turn of the loop performs `SearchTurn`: stop on the fatal error, on a candidate or where `deref` fails; otherwise move to the dereferenced type and count it |
| MethodLookup.Lookup.SearchLoop | src/rustc/middle/typeck/check/method.rs:61-103 | the loop ends in the state `Search` gives, or at the fatal error exactly when `Search` does |
| MethodLookup.Lookup.Conclusion | src/rustc/middle/typeck/check/method.rs:105-127 | the result, diagnostics and written type are exactly those of `Conclude` |
| MethodLookup.Lookup.Method | src/rustc/middle/typeck/check/method.rs:57-128 | the fatal error exactly when the search meets it; otherwise the state the search ends in and the outcome of `Conclude` on it |

## Left out

- Scheduler intrinsics (`rust_get_task`, `task_clear_event_reject`, `task_wait_event`, `task_signal_event`) are not modelled. A task is a number. A signal is the `SentWoke(task)` outcome and the channel's `signals` list. A sequence of wake events is a parameter of `WaitPass` and `WaitMany`.
- There is no real parking. `recv` is split at its suspension point. In `PipeProtocol.Legal` the receiver may wake once the sender has acted, even after a drop that signalled nothing.
- Acquire and release memory ordering is not modelled: each exchange is one indivisible step.
- The mechanics of `uniquify`, `transmute`, `reinterpret_cast` and `forget` are not modelled: the `frees` counter on a packet records each release by drop glue instead.
- Unwinding after a `fail` is not modelled: a failure is an outcome value, and what unwinding would release is not counted.
- `spawn_service` and `spawn_service_recv` are task-spawning plumbing; they are not part of this model.
- `src/libcore/f64.rs` (floating-point constants and foreign `cmath` calls) is not part of this model.
- Unification, subtyping and assignability (`can_mk_subty`, `can_mk_assignty`, `mk_assignty`), `next_ty_vars`, `ty::mk_fn`, `ty_from_did` and `impl_self_ty` are oracle fields of `Env`. `write_ty_substs` is the `written` field.
- The wording and spans of diagnostics are left out: a diagnostic is a `Diag` value. `span_fatal` and `span_bug` are the results `Fatal` and `Bug`.
- The `alt check` of a trait bound whose type is not a trait is not modelled: `BoundTrait` carries its trait and substitutions directly.
- Regions are opaque numbers; the borrow scope is not modelled.
- The test programs `regions-mock-trans.rs`, `class-methods.rs` and `expr-block-generic-box2.rs` exercise language features and are not modelled. Of `pipe-select.rs` only the two `select` runs are modelled, without timers or the event loop.
- Pipes.Select: requires endpoints that each hold their packet and share no endpoint, packet or header (`Owning`), as the linear endpoint types guarantee.
- Pipes.WaitMany: requires pairwise distinct headers, as endpoints guarantee.
- Pipes.WaitMany: is one uninterrupted call, so no send lands during its wait pass. Its contract therefore states only that nothing is returned when the poll pass found nothing. The interleaved run, in which a sender signals the parked task, goes through `Pipes.SelectBegin` and `Pipes.SelectWake`.
- MethodLookup.Lookup.Method: requires `Env.Wf`. The model assumes that `deref` lowers a rank; the source loop has no such guard and does not end on a cyclic deref chain.
- Pipes.Select: is one uninterrupted call, so no send lands while it waits. Called with every packet Empty, it therefore never selects a header: the wait pass may match an event, but that header is Empty again after the final pass and the assertion of `wait_many` fails. The run in which the task parks and is then signalled is `Pipes.SelectBegin` followed by `Pipes.SelectWake`, proved for every number of channels in `PipeScenarios.SelectParksThenSend`.
- Pipes.SelectPackets: the same holds for it, for the same reason.
