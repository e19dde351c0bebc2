# A verified model of JAM accumulation

This project models the parts of the JAM node that decide what a block's work reports do to the state: the virtual
machine that runs a service's code, the host calls through which the code acts on service accounts, the scheduling of
reports, and the rounds in which services are accumulated. Two small pieces stand beside them: the compact codec for
natural numbers and the ticket accumulator of an epoch.

`dafny verify dfyconfig.toml` checks the whole project.

How the modules build on each other:

- **The machine.** `Words`, `Opcodes`, `ProgramCode`, `Instructions` and `BlockInfo` describe program blobs, operands
  and pre-decoding. `PageTables` and `PagedMemory` (both in `Memory.dfy`) give memory as a flat map of bytes and as
  pages written in place. `Invocation` holds both interpreters as functions, `Refinement` says exactly when they agree,
  `Crashes` which programs can bring the host down, and `Interpreters` is the loops over registers, memory and gas,
  proved against those functions. `Initializer` loads a program.
- **The ledger.** `Accounts` and `Ledger` specify the accumulate host calls on a context. `Conservation`, `Footprint`,
  `Bookkeeping`, `Availability` and `Identifiers` prove what every call and every run of calls keeps. `HostArguments`
  is the same calls in place: accounts that share dictionaries by reference, a cached current account, and two
  contexts. `Preimages` is the preimage extrinsic.
- **One accumulation.** `HostLoop` runs a program between host calls for any host, `HostCalls` connects operations,
  registers and memory to the ledger, and `Accumulate` puts the loop, the gas used and the choice of context together.
  `Pools` follows the pooled entries and the books of all accounts through it.
- **A block.** `Scheduler` and `ReadyQueue` order reports, `Rounds`, `Merging`, `Settlement` and `RoundSoundness`
  treat one round of services, `Provision` its pools and provided preimages, `OuterAccumulation` the recursion over
  rounds for any kind of round, `BlockSoundness` instantiates it with rounds of services run by the machine, and
  `VisitOrder` shows that orders of visits do not matter.
- **Beside these.** `CompactCodec` and `Tickets`; `Sums` has sums over maps and sequences.

Integers of the program are subset types of `int` with the wrap-around written out; the gas counter of the machine is
the signed reading of the 64-bit gas it is given.

## Findings

Some properties that one would expect do not hold of the code. Each has an exact condition, or an input that shows it,
and usually both.

- **Interpreters.** `RefinementIsExact` says of every program whose operands lie inside the code whether they agree.
  Two on which they do not: a `fallthrough` with 26 bytes behind it, since `skip` is cut at 24 and nothing is decoded
  where that leads (`LongInstructionsDisagree`), and a bare `jump` that ends a code with a block at 0
  (`BareJumpsDisagree`).
- **Crashes.** A static jump that is taken to a target past the code indexes the code there (PVM/branch.go:7,
  PVM/program_code.go:290-291), and an entry of the jump table wider than 8 bytes or past the data is an explicit panic
  (PVM/branch.go:24-27). Nothing under PVM or internal/accumulation recovers from it, so the block does not return.
  `StrayJumpIsNoFailure` is an input of seven bytes, `CrashIsExact` the condition on the blob, and `BlockEnds` and
  `AccumulationReturns` have its absence as their premise.
- **Provided preimages.** `provide` takes a pooled request of another service out of the provider's pool and into the
  provider's copy of that account. The merge drops the copy and the intersection drops the pooled entry, so request and
  preimage are lost and the counters of the service that asked are too high (`ProvidedToAnother`). A provided preimage
  is integrated, and the books stay right, exactly if the request is not pooled any more in its own service's view
  (`ProvidedIsAnswered`, `RoundKeepsBooks`, `TakenByProviding`).
- **Tokens.** `new` subtracts the deposit before it checks the balance, and the subtraction wraps: a service can be
  created on credit, which mints 2^64 tokens (`CreationOnCredit`); an inherited balance that overflows burns as many
  (`InheritanceBurns`). `CallConserves` gives the drift of every call exactly. Tokens sent to a service that is gone are
  lost (`SentToNobody`, `DeliveredAndDropped`).
- **Preimages.** `forget` deletes the preimage of a hash along with any dropped request for that hash, also one with
  another length (`PreimageLost`, `HistoryAfterForget`). Otherwise answers stay frozen one slot longer than required
  (`AvailabilityFrozen`, `NotFrozenLonger`).
- **Gas limits.** Free services come on top of the reports that fit the limit, so the limit of the next round can wrap
  round to almost 2^64 (`LimitOverrun`, `NeverWrapsExactly`, `BlockNeverWrapsExactly`). Gas of 2^63 or more buys
  nothing (`HugeGasIsLost`).
- **Order of visits.** If two services of a round create accounts of one identifier that differ, the result depends on
  the order in which services are visited (`DisagreementShows`); otherwise it does not (`BlockInAnyOrder`).
- **Codec.** The strict reader takes small numbers after 0xFF (`StrictIsCanonical`).
- **Host calls** are dispatched on the low byte of the operand, so `ecalli 273` is a `checkpoint`; the rollback
  theorems count it as one.

## Model

| member | source | states |
|---|---|---|
| `ProgramCode.MakeBitMasks` | PVM/program_code.go:18-45 | Succeeds exactly if the packed mask has the right length; then the instruction starts are exactly the packed bits, and block starts are the first instruction and the successors of terminators. |
| `ProgramCode.SkipLength` | PVM/program_code.go:143-151 | The scan for the next instruction start computes the distance to it less one, cut at 24. |
| `BlockInfo.DecodedProgram.PreDecodeBlocks` | PVM/block_info.go:151-211 | Succeeds exactly if from every block start valid opcodes lead to a terminator inside the code. Then the array is strictly increasing in pc, the index is its exact inverse and -1 elsewhere, blocks are recorded exactly at block starts, and each is a contiguous segment whose only terminator is its last entry. |
| `BlockInfo.DecodedProgram.DecodeBlock` | PVM/block_info.go:166-207 | Decoding one block reports success exactly if the chain of instruction lengths reaches a terminator, keeps all that holds of the scan so far, and passes no other block start. |
| `Instructions.CacheIsFaithful` | PVM/block_info.go:35-146 | Unless operands reach outside the code, the cached operands equal those decoded in place if and only if the instruction is not a bare `jump` as the last byte of the code (other than at 0). |
| `Instructions.OnlyTerminatorsJump` | PVM/branch.go:3-37 | Only block terminators move the counter, and only to a block start or to a byte that is no valid opcode; only `ecalli` leads to the host. |
| `Invocation.FastRefinesSimple` | PVM/invocation.go:9-139 | If every entry steps together with the instruction decoded in place, the block interpreter and the per-instruction interpreter end alike from every entry and state: same exit, registers, memory and gas; counters agree except on host calls and page faults, where they differ by the instruction's length. |
| `Refinement.RefinementIsExact` | PVM/invocation.go:9-139 | With operands inside the code, the two interpreters agree from every entry and state if and only if every entry is fine. Whether an entry is fine depends on the blob alone: where static jumps, the jump table and falling through lead, which way comparisons can come out, the sign of `ecalli` operands, and bare final jumps. |
| `Refinement.VettedProgramsAgree` | PVM/invocation.go:9-139 | The usual conditions suffice: no instruction is longer than the cut, static jumps go to block starts or are refused, `ecalli` operands are not negative, and no bare jump ends the code. |
| `Refinement.LongInstructionsDisagree` | PVM/program_code.go:143-151 | One program on which they disagree: a `fallthrough` with 26 bytes behind it, where the cut leads on to a byte of the code at which nothing is decoded. By `RefinementIsExact`, a cut matters exactly where a terminator can fall on to such a byte. |
| `Refinement.BareJumpsDisagree` | PVM/block_info.go:42-45 | Another one: a `jump` without operands that ends the code. By `RefinementIsExact`, it matters exactly if 0 starts a block. |
| `Crashes.CrashIsExact` | PVM/branch.go:3-37 | No run of the block interpreter brings the host down, from any counter and in any state, if and only if every entry is harmless: its registers were decoded, no static jump that can be taken leads outside the code, and nothing jumps through a table that has an entry within its size wider than 8 bytes or past its data. This depends on the blob alone. |
| `Crashes.StrayJumpCrashes` | PVM/branch.go:7 | A program of seven bytes, entered where accumulation enters it, that indexes the code past its end. |
| `Interpreters.Interpreter.SingleStepStateTransition` | PVM/invocation.go:25-72 | One instruction, decoded and carried out in place, is the step of the simple interpreter. |
| `Interpreters.Interpreter.SingleStepInvoke` | PVM/invocation.go:9-22 | The loop over single steps ends, in the state and at the counter the simple interpreter specifies. |
| `Interpreters.Interpreter.FindSlice` | PVM/invocation.go:79-105 | Finds the entries from a counter up to and including the next terminator, whether the counter starts a block or lies inside one, or none if nothing is decoded there. |
| `Interpreters.Interpreter.SingleStepInvokeDecodedBlocks` | PVM/invocation.go:74-139 | The loop over slices of the pre-decoded array ends, in the state and at the counter the fast interpreter specifies. |
| `PageTables.LoadAfterStore` | PVM/decode.go:217-318 | A successful store of up to 8 bytes, across pages or not, is read back by the load of the same size. |
| `PageTables.LoadElsewhere` | PVM/decode.go:217-318 | A store, successful or not, changes no load from bytes it does not overlap. |
| `PagedMemory.Memory.Store` | PVM/decode.go:217-267 | The one-page and the two-page path write in place exactly what a flat store does; a faulting store changes nothing. |
| `PagedMemory.Memory.Load` | PVM/decode.go:269-318 | The one-page and the two-page path read what a flat load reads, with the same faults. |
| `PagedMemory.Memory.IsReadable` | PVM/argument_invocation.go:85-102 | The loop over pages decides whether every byte of the span lies in memory and is accessible. |
| `PagedMemory.Memory.IsWriteable` | PVM/argument_invocation.go:104-121 | The loop over pages decides whether every byte of the span lies in memory and is writable. |
| `PagedMemory.Memory.Read` | PVM/memory.go:36-52 | Copying page after page returns the bytes of the span. |
| `PagedMemory.Memory.Write` | PVM/memory.go:54-66 | Copying page after page changes exactly the bytes of the span, in place. |
| `PagedMemory.WriteThenRead` | PVM/memory.go:36-66 | Where a span is writable, a write is read back, every other byte keeps its value and every address its access. |
| `PagedMemory.Memory.Grow` | PVM/instructions.go:801-830 | `sbrk` in place: the new pointer, the pages mapped and the result are those of the specification. |
| `Initializer.ParseSerialized` | PVM/single_initializer.go:120-166 | Parsing a serialised program gives its parts back, whatever follows. |
| `Initializer.InitialAt` | PVM/single_initializer.go:22-118 | Every page of the first memory is the one its part calls for, and no other page is mapped: parts do not overlap. |
| `Initializer.InitialReadsBack` | PVM/single_initializer.go:22-81 | Read-only data, read-write data and argument read back at their base addresses with their access. |
| `Initializer.OtherBytesZero` | PVM/single_initializer.go:22-118 | Every mapped byte outside the three inputs is zero. |
| `Initializer.SingleInitializer` | PVM/single_initializer.go:22-81 | Succeeds exactly if the blob parses and fits; then memory, heap pointer, heap limit, registers and code are the ones specified. |
| `Initializer.InitialHeapOk` | PVM/single_initializer.go:61-81 | After loading, the heap is empty and free up to its limit. |
| `Initializer.SbrkKeepsHeap` | PVM/instructions.go:801-830 | `sbrk` never lowers the heap pointer or passes the limit, keeps every page up to the pointer mapped read-write, alters no page there was, and maps zeroed pages only. |
| `Initializer.RunsKeepHeap` | PVM/instructions.go:801-830 | The same over every run of `sbrk` and stores. |
| `HostLoop.FastRunSpends` | PVM/invocation.go:112-118 | No run gains gas or leaves a debt, and one that calls the host has spent some; this is why the host loop ends. |
| `HostLoop.RunKeeps` | PVM/host_call_invocation.go:89-151 | Any invariant kept by host calls that let the program go on holds at the end of every run, or when the call is made that ends it; calls are dispatched on the low byte of the operand. |
| `HostLoop.GasNeverGrows` | PVM/host_call_invocation.go:89-151 | No run ends with more gas than it was given, whatever thrifty host functions answer. |
| `HostLoop.NeverBroughtDown` | PVM/host_call_invocation.go:89-151 | If neither the program nor an answer of the host brings the host down while an invariant holds, no run with host calls does. |
| `HostCalls.AnswerSteps` | PVM/host_call_general.go:164-192 | A host call never returns gas; one that lets the program go on has cost the base price; only `checkpoint` changes the second context, and it copies the first. |
| `Accumulate.UsedWithinGiven` | PVM/argument_invocation.go:53-77 | The gas an accumulation uses lies between 0 and the gas given. |
| `Accumulate.HugeGasIsLost` | PVM/pvm_types.go:7 | With 2^63 gas or more the signed counter is negative: nothing runs, the second context remains, and all the gas counts as used. |
| `Accumulate.TransfersArePaid` | PVM/host_call_accumulate.go:250-487 | If a run returns, the gas limits of the transfers that remain after the choice of context, the price of each call that sent one, and the price of a call for each account that is new, sum to at most the gas used. |
| `Accumulate.KeptIsLastSaved` | PVM/host_call_accumulate.go:234-247 | At every end of a run, the second context is the first as it stood at the last successful checkpoint, or the one from entry. |
| `Accumulate.FailureRollsBack` | PVM/accumulate_invocation.go:147-178 | A run that panics, faults or runs out of gas yields a result, and exactly that context, whatever it did afterwards; a run that brings the host down is not one of these. |
| `Accumulate.StrayJumpIsNoFailure` | PVM/branch.go:7 | The stray jump of seven bytes leaves no result, not even the context kept for failures. |
| `Accumulate.RunsKeepFunds` | PVM/accumulate_invocation.go:95-178 | If a run returns, whatever the program does and however it ends, the context chosen holds the tokens there were modulo 2^64. |
| `Accumulate.RunsKeepOrder` | PVM/accumulate_invocation.go:95-178 | If it returns and the service's counters were right, they are right in the context chosen. |
| `Accumulate.CallsReturn` | PVM/host_call_accumulate.go:250-979 | In a sound state with room for identifiers, no host call searches for one in vain or misses the caller's account. |
| `Accumulate.MachinePays` | PVM/argument_invocation.go:10-77 | The virtual machine, when it returns, has used at most the gas given, and what it sends and creates is paid for by it, on every state and for every code. |
| `Accumulate.MachineKeeps` | PVM/argument_invocation.go:10-77 | Every property of contexts that all host calls keep at their price holds of the context it returns, on every state and for every code. |
| `Accumulate.SafeReturns` | PVM/argument_invocation.go:10-77 | From a context with its own account and room for identifiers, a program whose entries are all harmless returns, whatever it does and however it ends. |
| `Accumulate.AccumulationIsSound` | PVM/accumulate_invocation.go:10-130 | If accumulating a service returns, and there is room for the accounts it could pay for, what it and all others hold and what it sends are worth what was held and was sent to it, modulo 2^64; nothing is asked of counters. |
| `Accumulate.AccumulationReturns` | PVM/accumulate_invocation.go:10-130 | It returns if the code found is absent or cannot bring the host down. |
| `Accumulate.AccumulationKeepsOrder` | PVM/accumulate_invocation.go:10-130 | If it returns and the service's counters were right, they are right in the result. |
| `Accumulate.SentToNobody` | PVM/accumulate_invocation.go:21-31 | What is sent to a service that does not exist is lost. |
| `Identifiers.CheckFindsUnused` | PVM/host_call_general.go:943-951 | The search succeeds exactly if some identifier of its range is unused; the result is in range and unused. |
| `Identifiers.CheckLoop` | PVM/host_call_general.go:943-951 | The loop ends by a pigeonhole argument and finds what the search specifies. |
| `Identifiers.NextReserve` | PVM/host_call_accumulate.go:350-361 | The next reserved identifier is unused again even after the reserved one is handed out, if and only if some identifier 42 or more places on is unused; fewer accounts than the range less 42 suffice. |
| `Conservation.CallConserves` | PVM/host_call_accumulate.go:250-575 | Every host call moves the sum of balances and pending transfers by exactly a known multiple of 2^64, keeps the caller's account, and keeps the reserved identifier unused. |
| `Conservation.RunsConserve` | PVM/host_call_accumulate.go:250-979 | Over every run of host calls that sum is constant modulo 2^64. |
| `Conservation.BoundedSupply` | PVM/host_call_accumulate.go:319-370 | A sum below 2^64 is conserved exactly, except by a service created on credit, which adds 2^64. |
| `Conservation.CreationOnCredit` | PVM/host_call_accumulate.go:319-370 | A service that owns nothing can create another and ends up with almost 2^64 tokens. |
| `Conservation.InheritanceBurns` | PVM/host_call_accumulate.go:535-575 | An `eject` that is accepted and overflows the heir's balance: 2^64 tokens are gone, and the heir has 200 left. |
| `Conservation.EjectAnswers` | PVM/host_call_accumulate.go:490-575 | `eject` succeeds exactly if the service named exists, is another one, has named the caller as heir, counts two items, and its one lookup entry was given up an expunge period ago; else nothing changes. |
| `Footprint.OwnCountersKept` | PVM/host_call_general.go:603-793 | Every call without a panic keeps the caller's item and octet counters equal to a recount of its entries in its account and in the pool, modulo the counters' width. |
| `Footprint.OtherCountersKept` | PVM/host_call_accumulate.go:885-979 | Every such call keeps the counters of every other account that remains. |
| `Footprint.RunsKeepOwnCounters` | PVM/host_call_accumulate.go:651-854 | So does every run of calls. |
| `Footprint.EjectedIsEmpty` | PVM/host_call_accumulate.go:535-575 | An account that may be ejected holds nothing but the one lookup entry, in its account or in the pool. |
| `Footprint.FreshCounted` | PVM/host_call_accumulate.go:300-345 | The counters of a new account are right if the pool holds nothing for its identifier. |
| `Bookkeeping.BooksKept` | PVM/host_call_accumulate.go:250-979 | Every call without a panic keeps the counters of all accounts right, together with what the pools must not hold. |
| `Bookkeeping.RunsKeepBooks` | PVM/host_call_accumulate.go:250-979 | So does every run of calls. |
| `Pools.CallThins` | PVM/host_call_general.go:954-997 | No call adds or alters a pooled entry, and none takes a pooled storage entry of another service. |
| `Pools.TakenByProviding` | PVM/host_call_accumulate.go:929-941 | A call takes a pooled lookup of another service if and only if it is a `provide` for it, whatever is replied. |
| `Pools.RunsTake` | PVM/host_call_accumulate.go:885-979 | Whatever program runs and however it ends, in the context that remains no request is pooled that one of its blobs answers. |
| `Pools.ServicesTake` | PVM/accumulate_invocation.go:10-178 | So it is for the accumulation of every service, if it returns. |
| `Pools.AccumulationIsOrderly` | PVM/accumulate_invocation.go:10-178 | If accumulating a service returns, and item counters have room for what the gas pays for, the counters of all accounts are right in its view, every pooled entry has an owner there, and the pools have lost only what it may take. |
| `Bookkeeping.SolvencyKept` | internal/service_account/service_account.go:185-195 | A caller whose balance covers its threshold keeps it covered by every call, if what it holds can be counted and an inherited balance does not overflow. |
| `Availability.EventMoves` | PVM/host_call_accumulate.go:665-834 | `solicit`, `forget`, `provide` and a submitted preimage change a lookup entry only in the permitted ways. |
| `Availability.AvailabilityFrozen` | internal/service_account/service_account.go:107-128 | Over every run of such events, the answer for slot t is the same from t + 1 through t + D + 1, one slot more than is asked for. |
| `Availability.NotFrozenLonger` | PVM/host_call_accumulate.go:793-834 | One slot later it may change: a context, and a `forget` on it that succeeds, after which a preimage that was available at slot t is not. |
| `Availability.SlotsStaySane` | PVM/host_call_accumulate.go:665-834 | Every timeslot set stays sorted, in the past and at most three long. |
| `Availability.HistoryAfterForget` | PVM/host_call_accumulate.go:793-834 | A past lookup of a hash survives `forget` within the frozen time if and only if it found nothing or the call does not drop an entry for that hash; what it can do is lose a preimage whose own entry is another one. |
| `Availability.PreimageLost` | PVM/host_call_accumulate.go:793-834 | Such a loss: giving up an unanswered request for another length deletes the preimage. |
| `HostArguments.Begin` | PVM/accumulate_invocation.go:92-112 | Both contexts start from the same state and share no mutable state. |
| `HostArguments.HostArgs.Checkpoint` | PVM/host_call_accumulate.go:234-247 | Afterwards the second context equals the first and shares nothing with it. |
| `HostArguments.ResultContext.DeepCopy` | PVM/accumulate_invocation.go:245-298 | A copy of equal value on fresh objects. |
| `HostArguments.HostArgs.NewService` | PVM/host_call_accumulate.go:250-370 | In place, with the cached account equal to its map entry before and after, this is the specified `new`. |
| `HostArguments.HostArgs.SendTransfer` | PVM/host_call_accumulate.go:414-487 | In place, this is the specified `transfer`. |
| `HostArguments.HostArgs.EjectService` | PVM/host_call_accumulate.go:490-575 | In place, this is the specified `eject`. |
| `HostArguments.HostArgs.QueryLookup` | PVM/host_call_accumulate.go:578-663 | In place, this is the specified `query`. |
| `HostArguments.HostArgs.SolicitPreimage` | PVM/host_call_accumulate.go:665-753 | In place, this is the specified `solicit`. |
| `HostArguments.HostArgs.ForgetPreimage` | PVM/host_call_accumulate.go:756-854 | In place, this is the specified `forget`. |
| `HostArguments.HostArgs.ProvidePreimage` | PVM/host_call_accumulate.go:885-979 | In place, this is the specified `provide`. |
| `HostArguments.HostArgs.ReadEntry` | PVM/host_call_general.go:603-701 | In place, this is the specified `read`. |
| `HostArguments.HostArgs.WriteEntry` | PVM/host_call_general.go:704-793 | In place, this is the specified `write`. |
| `HostArguments.HostArgs.UpgradeCode` | PVM/host_call_accumulate.go:373-411 | In place, this is the specified `upgrade`. |
| `Preimages.ValidateSortUnique` | internal/accumulation/extrinsic_preimage.go:133-150 | The check on neighbours passes exactly if they are strictly ordered, and then no preimage occurs twice. |
| `Preimages.Process` | internal/accumulation/extrinsic_preimage.go:152-242 | Filtering first and integrating afterwards amounts to submitting one preimage after the other, and never fails. |
| `Preimages.OrderIrrelevant` | internal/accumulation/extrinsic_preimage.go:152-218 | Whether a preimage is taken does not depend on the others of the block. |
| `Scheduler.QueueEditing` | internal/accumulation/accumulation.go:116-140 | The loop removes accumulated items and strikes accumulated dependencies, as specified. |
| `Scheduler.PriorityQueue` | internal/accumulation/accumulation.go:144-166 | The recursion ends on every queue, cycles included, with the specified sequence. |
| `Scheduler.DependenciesFirst` | internal/accumulation/accumulation.go:144-166 | All dependencies of each report of the result occur strictly earlier in the result. |
| `Scheduler.PriorityPackages` | internal/accumulation/accumulation.go:144-166 | The result comes from the queue, and has nothing twice if the queue has not. |
| `Scheduler.Maximal` | internal/accumulation/accumulation.go:144-166 | Every package of every dependency-ordered sequence drawn from the queue is in the result. |
| `Scheduler.ScheduleOf` | internal/accumulation/accumulation.go:144-166 | The result is itself such a sequence. |
| `Scheduler.AddingKeeps` | internal/accumulation/accumulation.go:144-166 | Further items in the queue never take a package out of the result. |
| `ReadyQueue.Division` | internal/accumulation/accumulation.go:51-84 | New reports are divided into those accumulated at once and those queued, none lost or doubled. |
| `ReadyQueue.HistoryInOrder` | internal/accumulation/accumulation.go:69-233 | Over every run of blocks, whatever each accumulates of its schedule, no report is accumulated before every package it depends on; queued items neither name nor wait for anything in the window. |
| `ReadyQueue.RunsKeepUnique` | internal/accumulation/deferred_transfers.go:141-213 | If new reports are new, then over every run of blocks no package is queued twice or accumulated twice within the window. |
| `ReadyQueue.UpdateXi` | internal/accumulation/deferred_transfers.go:141-165 | Written in place, newest entry first, the window is shifted by one. |
| `ReadyQueue.UpdateVartheta` | internal/accumulation/deferred_transfers.go:169-213 | The walk back over the ring sets each position once: the new items, nothing for slots skipped, or the old items edited. |
| `OuterAccumulation.PrefixAccumulated` | internal/accumulation/accumulation.go:236-332 | The recursion ends, by free services, reports left and prepaid gas, and the reports of its rounds are exactly the prefix its count says. |
| `OuterAccumulation.NeverWrapsExactly` | internal/accumulation/accumulation.go:287-297 | Whatever a round uses of the gas it is offered, the next limit does not wrap round if and only if the gas of free services and of the reports that fit is no more than the limit (and limit and transfers fit 64 bits). |
| `OuterAccumulation.BlockNeverWrapsExactly` | internal/accumulation/deferred_transfers.go:23-31 | For the limit of a block, with any total, gas per core and free services, this holds if and only if the reports that fit need no more than the total less the gas of free services, or than the cores together may use. |
| `OuterAccumulation.LimitOverrun` | internal/accumulation/accumulation.go:236-297 | At the full-size constants, 350 reports of a core's gas each and one unit of gas for a free service fit the limit and make the second round's limit 2^64 - 1. |
| `OuterAccumulation.ExecutionIsLimited` | internal/accumulation/accumulation.go:236-332 | If the first round's gas is covered, all rounds together execute no more than the limit and the gas of the transfers received. |
| `OuterAccumulation.EndsWhenNothingFits` | internal/accumulation/accumulation.go:246-273 | When the rounds end, the next report does not fit the gas left. |
| `Rounds.InvolvedServices` | internal/accumulation/accumulation.go:345-364 | The loops collect exactly the services of the reports, the free ones and the receivers. |
| `Rounds.SharesAddUp` | internal/accumulation/accumulation.go:735-778 | The gas shares of all services make up exactly the gas a round hands out. |
| `Merging.MergeAccounts` | internal/accumulation/accumulation.go:367-543 | The loops over services and keys compute the specified merge. |
| `Merging.MergedInAnyOrder` | internal/accumulation/accumulation.go:367-543 | If contributors agree, every order of visiting services gives the same accounts. |
| `Merging.DisagreementShows` | internal/accumulation/accumulation.go:367-543 | If they do not agree, two orders give different accounts. |
| `Merging.DistinctNewAgree` | internal/accumulation/accumulation.go:515-531 | They agree if identifiers of new accounts are distinct and none is that of a service of the round. |
| `Merging.PoolInAnyOrder` | internal/accumulation/accumulation.go:545-583 | The pool that survives is the same for every order. |
| `Merging.CommonByCounting` | internal/accumulation/accumulation.go:545-583 | Counting occurrences computes the intersection of the pools. |
| `RoundSoundness.RoundIsFrugal` | internal/accumulation/accumulation.go:400-732 | If every service keeps to its gas, the round uses no more than it hands out, and what it uses pays for all it sends on. |
| `RoundSoundness.AllDelivered` | internal/accumulation/accumulation.go:682-700 | All transfers are passed on if and only if all senders and receivers remain. |
| `RoundSoundness.DeliveredAndDropped` | internal/accumulation/accumulation.go:682-700 | Dropped and delivered amounts together are the amounts sent. |
| `RoundSoundness.ServicesAreDependable` | internal/accumulation/accumulation.go:735-820 | Whatever a service's code is, if its accumulation returns it has kept to its gas and conserved tokens, left all others in place if none names it as heir, and changed nothing if it does not exist. |
| `RoundSoundness.RoundIsSound` | internal/accumulation/accumulation.go:400-732 | If services do not collide and identifiers suffice, the accounts merged, the transfers delivered and those dropped are worth what the accounts and the transfers to services that exist were, modulo 2^64. Ejections, and services of the round that do not exist, are included; nothing is asked of counters. |
| `RoundSoundness.WithoutHeirsTidy` | internal/accumulation/accumulation.go:510-543 | Services do not collide if none of the round is named as an heir and new accounts get different identifiers. |
| `BlockSoundness.RoundsAreFrugal` | internal/accumulation/accumulation.go:400-820 | The round built from the services' own accumulations is frugal in every state and for all inputs, which is the condition under which the outer recursion ends. |
| `BlockSoundness.MachinesAreGood` | internal/accumulation/accumulation.go:735-820 | Services whose code is loaded and run by the virtual machine meet what the theorems on blocks ask of services, whatever the code is. |
| `BlockSoundness.BlockEnds` | internal/accumulation/accumulation.go:236-332 | With services run by the virtual machine, the rounds of a block return and accumulate exactly a prefix of the reports, if no program run in them can bring the host down and identifiers suffice for what the gas of the block could pay for. |
| `BlockSoundness.BlockConserves` | internal/accumulation/accumulation.go:236-332 | If a block returns, services collide in no round, and identifiers suffice for what its gas could pay for, the accounts in the end and all that was lost by sending to or from services that were gone are worth what the accounts were, modulo 2^64. |
| `BlockSoundness.RoundsGrowByGas` | internal/accumulation/accumulation.go:400-820 | No round creates more accounts than its gas pays for beside its transfers, so room for identifiers at the beginning of a block is room in every round. |
| `Provision.SuppliedSlots` | internal/accumulation/extrinsic_preimage.go:248-271 | Supplying blobs answers exactly the open requests that some blob is for, and changes no other. |
| `Provision.ProvidedIsAnswered` | internal/accumulation/accumulation.go:515-583 | A preimage provided in a round, for which a request is open in the view of its own service, is integrated if and only if that request is not pooled there any more. Otherwise the request is gone from the account and from the pool, and the counters are wrong. |
| `Provision.RoundKeepsBooks` | internal/accumulation/accumulation.go:515-583 | After a round, the counters of all accounts are right and every pooled entry has an owner, if and only if no service that remains has lost a request: one pooled in its own view that another service has taken. |
| `Provision.ProvidedToAnother` | PVM/host_call_accumulate.go:929-967 | Such a loss: `provide` for another service's pooled request succeeds, and after the round the request is nowhere, the preimage is not there, and the counters of the service that asked are wrong. |
| `BlockSoundness.StepKeepsBooks` | internal/accumulation/accumulation.go:400-732 | A round of services run by the machine keeps the books if and only if it loses no request. |
| `BlockSoundness.MachinesAreOrderly` | internal/accumulation/accumulation.go:735-820 | So they do for the theorems on books. |
| `BlockSoundness.BlockKeepsBooks` | internal/accumulation/accumulation.go:236-332 | If no round of a block loses a request, and item counters have room in each, the books are right in the end. |
| `VisitOrder.SuppliedInAnyOrder` | internal/accumulation/extrinsic_preimage.go:248-271 | Blobs may be supplied in any order and any number of times: the accounts are the same. |
| `VisitOrder.ServicesAreUnordered` | internal/accumulation/accumulation.go:735-820 | The accumulation of a service depends on what it receives only by the sum, and adds nothing to the pools. |
| `VisitOrder.TidyAgrees` | internal/accumulation/accumulation.go:510-531 | Services that do not collide agree about every account. |
| `VisitOrder.RoundInAnyOrder` | internal/accumulation/accumulation.go:400-732 | If services agree about new accounts, a round visited in another order, with the transfers received in another order, leads to the same state and outputs, the same transfers and the same gas used, or returns in neither. |
| `VisitOrder.BlockInAnyOrder` | internal/accumulation/accumulation.go:236-332 | So does a block: the same reports are accumulated, and the same state, outputs and gas result, in whatever orders services are visited and blobs listed. |
| `Tickets.VerifyOrder` | internal/safrole/extrinsic_tickets.go:92-101 | The check on neighbours passes exactly if identifiers do not decrease. |
| `Tickets.VerifyDistinct` | internal/safrole/extrinsic_tickets.go:106-115 | On ordered tickets the check on neighbours passes exactly if identifiers increase. |
| `Tickets.CreateAccumulator` | internal/safrole/extrinsic_tickets.go:217-297 | The checks, the sort and the cut compute the specified accumulator or error. |
| `Tickets.AccumulatorHoldsSmallest` | internal/safrole/extrinsic_tickets.go:195-297 | Over all blocks of an epoch the accumulator is strictly sorted and holds the E smallest of all identifiers accepted so far, though it is cut at every block. |
| `Tickets.SmallestUnique` | internal/safrole/extrinsic_tickets.go:283-291 | That description determines the identifiers. |
| `Tickets.OutsideIn` | internal/safrole/slot_key_sequence.go:10-27 | The loop with an index moving in from each end fills the array as specified. |
| `Tickets.BothEndsPermute` | internal/safrole/slot_key_sequence.go:10-27 | Its output is a permutation: places and tickets correspond one to one. |
| `CompactCodec.CompactEncode` | internal/fuzz/utils.go:32-72 | The loops emit the specified form of every 64-bit number. |
| `CompactCodec.CompactDecode` | internal/fuzz/utils.go:76-129 | The loops read a number and its length, or report data that is too short by a length of 0. |
| `CompactCodec.DecodeEncoded` | internal/fuzz/utils.go:32-129 | Decoding an encoded number, whatever follows, gives the number and the encoded length. |
| `CompactCodec.ReadUintVariable` | PVM/program_code.go:169-225 | The cases by length, and the loop for long forms, compute the specified number and length, or fail where the strict reader rejects. |
| `CompactCodec.ReadEncoded` | PVM/program_code.go:169-225 | The strict reader gives an encoded number back with its length, whatever follows. |
| `CompactCodec.StrictIsCanonical` | PVM/program_code.go:169-225 | What the strict reader consumes is exactly the encoding of its result, if and only if it is not a small number after 0xFF. |
| `CompactCodec.DecodersDiffer` | PVM/program_code.go:218-224 | Of the forms the lenient reader accepts with a first byte other than 0xFF, the strict one accepts exactly the canonical ones, with the same result. |

## Left out

- Block-based invocation of the machine (`BlockBasedInvoke`, `ExecuteInstructions`), the recompiler, nested machines
  and the refine host calls: separate paths beside the decoded-block loop.
- Most arithmetic and logic opcodes are a parameter (`Alu`); one or more opcodes per operand category, all loads,
  stores, jumps, branches, `ecalli` and `sbrk` are spelled out.
- Refinement.RefinementIsExact: operands that reach outside the code are not modelled, because what a slice past the
  code reads depends on the rest of the blob; the theorem requires them to lie inside.
- `DeBlobProgramCode` itself; its parts that matter here (mask, pre-decoding, variable-length numbers) are modelled.
- The host loop is a function on values (`HostLoop.HostRun`); the fast interpreter it calls is also proved in place.
- `fetch`, `info`, `lookup`, `log`, `gas`, `bless`, `assign` and `designate` are one abstract host function that may
  change registers, memory and, for the last three, privileges, but no account.
- HostArguments.HostArgs: the three dictionaries of an account are grouped in one shared object, and contexts hold the
  blobs, pools and transfers as values.
- The pool of unmatched key-value pairs is two maps keyed by service and raw key or lookup key: state keys are taken to
  be free of collisions, and a pooled lookup entry whose bytes do not decode is `None`.
- Footprint.OwnCountersKept: equality is modulo the width of each counter; it is exact where the recount fits, which
  is how `SolvencyKept` uses it.
- Availability.AvailabilityFrozen: the expunge period is a parameter, and the service must remain in place.
- Conservation.RunsConserve: requires fewer accounts than the identifier range less 42 and the calls to come.
- A code blob is found and run through parameters (`Loader`); reading the metadata before the code is not modelled, nor
  is the content of the arguments given to a program.
- The identifier reserved at the start comes from a number drawn outside; the hash that draws it is not modelled. Hashes
  are functions, injective where a theorem needs it.
- BlockSoundness.BlockConserves: which privileges, validator keys and authorizer queues result from a round is a
  parameter, because they hold no tokens; services that are run again for their privileges alone
  (internal/accumulation/accumulation.go:586-676) are part of it.
- BlockSoundness.BlockKeepsBooks: that item counters have room is a premise for every round, and not derived from the
  gas of the block as room for identifiers is.
- Accumulate.AccumulationReturns: host functions outside this model are taken to return.
- ReadyQueue.RunsKeepUnique: that new reports differ from each other, from those queued and from the window is a
  premise; it is checked in internal/extrinsic/guarantee_controller.go:326-381, which is not part of this model.
- ReadyQueue.UpdateXi: the order of hashes inside one entry of the window is not modelled; entries are sets.
- VisitOrder.BlockInAnyOrder: what a service receives counts only by its sum. The list of operands that `fetch` hands
  out, sorted by sender with an unstable sort, is not part of this model.
- Tickets.CreateAccumulator: identifiers are numbers in place of byte strings of fixed length, sorting is insertion
  sort for the library's sort, and the checks of attempts, proofs and of the end of the epoch come before.
- Preimages.Process: the loop writes values; account dictionaries are not shared there.
- Goroutines: the result of a service is a function of its input, and results are visited in an arbitrary order.
- Getters and setters of the chain state: prior and posterior state are arguments and results.
- Statistics, the accumulation log, authorization, auditing, disputes, recent history and header validation.
- Signatures, VRF, erasure coding, Merklization, networking, storage, telemetry and configuration.
