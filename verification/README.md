# Scoped memory, verification scheduling and credential delivery

A model, with proofs, of the parts of the repository whose behaviour spans many calls: the scoped-memory
stack of the track III experiments, the two verification schedulers, the self-disabling breaker of a shadow
provider, and the printer and parser of operator credentials.

`dafny verify dfyconfig.toml` checks the whole project.

## What is modelled

**The scoped-memory stack** (`experiments/track-iii-002` to `-007`). Five layers, each built on the one below.

| file | layer |
|---|---|
| `context_tree.dfy` | the context tree: validation loops, lineage through inherit switches, the append-only entry store behind issued bindings |
| `packing.dfy`, `wire.dfy`, `capability.dfy` | callers with roles, trusted provenance, the greedy whole-entry packer under 2048 bytes, and the compact JSON text it measures |
| `security.dfy`, `security_memory.dfy` | domain grants, derived objects, the `target::id` write namespace, the cache, all seven operations; as a state with its transition function and as the object that updates its maps in place |
| `security_laws.dfy` | who is served, what is visible, what each operation answers and stores, over the stored fields alone |
| `noninterference.dfy`, `lookalikes.dfy`, `interference.dfy`, `confinement.dfy`, `growth.dfy` | what an execution can and cannot learn over a whole run, and exactly when; what growth means for cache and policy |
| `scanners.dfy`, `promotion.dfy`, `promotion_laws.dfy`, `promotion_meaning.dfy`, `promotion_gate.dfy`, `destination_view.dfy` | promotion to the parent context with scanners, approvals, replay protection and least-free numbering, in both editions of the gate: the fifth experiment's, and its copy in the seventh, which also promotes verified outcomes |
| `outcomes.dfy`, `outcome_laws.dfy`, `outcome_meaning.dfy`, `outcome_admission.dfy`, `lockout.dfy` | classification of trusted evidence and admission of reflections |
| `world.dfy`, `isolation.dfy`, `authorship.dfy` | desk and any number of gates over one shared memory, in every interleaving; `experiments/track-iii-007/composition.py` joins a desk's memory with gates of `promotion_v2.py`, at the start (line 19) and later (line 59) |

**The schedulers** (`suites.dfy`, `scheduler.dfy`, `durable_scheduler.dfy`): the strict-FIFO scheduler in process, and
the durable one whose recursive dispatch refines its drain loop.

**The breaker** (`breaker.dfy`): two counters and a status against the whole history of events, and the shadow
classifier that drives it.

**Credentials** (`credentials.dfy`): validation, printing, reading and the write decision over a credential
directory, whole runs of rotations, and the environment handed to a consumer process.

`text.dfy` and `records.dfy` hold what the layers share: string order, UTF-8 length, numerals, the write namespace,
the stored records and their compact JSON text.

Every object that updates its fields is a class whose methods are proved equal to a transition function on its
abstract state; the laws are about that function, over all states and all runs. What the function does is said a second
time, over stored fields and trusted records only, in `security_laws.dfy`, `promotion_meaning.dfy`,
`outcome_meaning.dfy` and the laws of the smaller modules.

## How to read it

- Identities that the source compares by object identity (bound contexts, executions, callers, promotion and
  admission bindings) are tokens: numbers handed out once.
- A digest is injective, so wherever a digest is stored or compared the model has the digested values.
- A tree entry's content is the JSON text of one record; the record stands for it. Response sizes are the UTF-8
  lengths of the actual compact JSON text, with sorted keys.
- Dictionary order never shows: listings are id-ordered and the packer's result does not depend on the order it is
  given (`Packing.PackOrderIndependent`).
- Regular expression matching of the secret scanner and `str.lower` are parameters. So are probes, commands and
  suite executions, the candidate's replies, and the values a resolver fetched.
- Requests are typed; the bounds on their fields are checked as the source checks them.
- A context sees the entries of its lineage in the domains it is granted, and the derived objects all of whose sources
  it sees. Two memories look the same from a context when rules, issued identities, cache and what it sees agree, and
  when in both or in neither the deny list and the classification of entries are in order.
- Policy and domains of the memory are fixed during a run, as nothing in the source changes them. The cache, the
  gate's policy, approvals and scanner modes, the desk's envelopes and evidence, and all switches may change at any
  time.

## Where the code does less than its description

Each of these is a lemma with the condition under which it happens.

- `target::id` is ambiguous for context ids such as `a` and `a::b`; the code bans the separator only in setup entry
  and derived ids. Keys parse uniquely exactly when the context ids are separable (`Text.UniqueParseIffSeparable`),
  and noninterference holds over all fixtures and runs of a tree exactly then (`Interference.NoninterferenceIffSeparable`;
  a concrete run is `Interference.TwinsInterfere`).
- A reflection admitted in the public domain is stored as private, after which the policy check refuses every
  request for good (`OutcomeLaws.AdmissionKeepsPolicyIff`, `OutcomeLaws.PublicReflectionLocksMemory`,
  `World.PolicyValidIffNoPublicReflection`; a concrete fixture is `Lockout.NoteLocksMemory`).
- The source-fragment scanner compares text, not tokens, so it also rejects windows whose outer tokens only occur
  inside longer ones (`Scanners.PassIffNoClippedWindow`; an example is `Scanners.RejectedWithoutSharing`).
- A comment at `experiments/track-iii-005/gate.py:121` says that secret-like text is never reusable. Within a domain
  that is so; across domains it is scanned exactly when the configuration lists that scanner
  (`Authorship.AdmissionsHoldNoSecret`), and otherwise passes whatever it matches (`PromotionMeaning.UnlistedSecretsPass`).
- A run call that raises leaves the durable scheduler's slot claimed, and nothing is dispatched afterwards
  (`DurableSchedulers.DispatchStopsAtRaise`, `DurableSchedulers.RaiseStopsForGood`).
- A breaker with a threshold below one trips on the first failure of every episode, as exhausted, whatever its kind
  (`Breakers.DegenerateThreshold`).
- Two credential consumers may share a destination, and one then reads or loses the other's values
  (`Credentials.SharedDestination`). A manager variable reaches a consumer that declares a secret of that name
  (`Credentials.ManagerVariableReachesIff`). A 0600 credential file of another owner counts as safe and is loaded
  (`Credentials.UnownedCredentialLoads`); since the file must be readable, that is real for root only.

## Model

| member | source | states |
|---|---|---|
| ContextTrees.TreeIffClimbsToOneRoot | experiments/track-iii-002/evaluator.py:58-67 | the cycle check and the root count together mean that some one root is reached from every node |
| ContextTrees.ParseRows | experiments/track-iii-002/evaluator.py:40-51 | accepts exactly the well-shaped rows with pairwise different ids, and then holds each row under its id |
| ContextTrees.CheckParents | experiments/track-iii-002/evaluator.py:52-56 | passes exactly when every named parent exists and is another node |
| ContextTrees.ClimbFrom | experiments/track-iii-002/evaluator.py:58-65 | the `seen` walk always ends; it reports a cycle exactly when no climb from the start reaches a root |
| ContextTrees.CheckCycles | experiments/track-iii-002/evaluator.py:58-65 | passes exactly when every node climbs to a root |
| ContextTrees.ValidateNodes | experiments/track-iii-002/evaluator.py:38-67 | accepts exactly the unique rooted trees; each of the six refusal codes names a defect that is there |
| ContextTrees.AcceptanceIgnoresOrder | experiments/track-iii-002/evaluator.py:38-67 | two orders of the same rows are accepted alike and give the same tree |
| ContextTrees.OnlyParentsDecide | experiments/track-iii-002/evaluator.py:57-67 | inherit switches and kinds cannot hide or cause a malformed structure |
| ContextTrees.LineageIsInherited | experiments/track-iii-002/evaluator.py:92-99 | a context is in the lineage exactly when an unbroken chain of inherit switches leads up to it |
| ContextTrees.LineageLoop | experiments/track-iii-002/evaluator.py:92-99 | the unguarded loop ends on every accepted tree and collects the lineage |
| ContextTrees.ValidateEntries | experiments/track-iii-002/evaluator.py:68-79 | accepts exactly the entries with unique ids in known contexts |
| ContextTrees.HiddenLooksMissing | experiments/track-iii-002/evaluator.py:123-130 | an entry outside the lineage answers every read as if it did not exist |
| ContextTrees.WriteReachesInheritors | experiments/track-iii-002/evaluator.py:115-130 | a written entry is read back by exactly the contexts that inherit from its owner |
| ContextTrees.ReadLaw | experiments/track-iii-002/evaluator.py:123-130 | a read lists exactly what is inherited, each entry once and in id order |
| ContextTrees.GetLaw | experiments/track-iii-002/evaluator.py:123-128 | a get returns the inherited entry of that id; hidden and missing ids are refused alike |
| ContextTrees.WriteLaw | experiments/track-iii-002/evaluator.py:113-122 | a write takes any free non-empty id for the bound context, and is refused otherwise |
| ContextTrees.ContextTree.Build | experiments/track-iii-002/evaluator.py:38-82 | the constructor as a whole: accepts exactly the trees and entries described, and starts without bindings |
| ContextTrees.ContextTree.Bind | experiments/track-iii-002/evaluator.py:84-90 | a new identity for a known context; an unknown one changes nothing |
| ContextTrees.ContextTree.Handle | experiments/track-iii-002/evaluator.py:101-130 | answer and store afterwards for every request; an unissued binding is refused without effect |
| Packing.PackLoop | experiments/track-iii-003/capability.py:70-78 | the selection loop returns the first-fit selection of the id-sorted entries |
| Packing.PackWithinBudget | experiments/track-iii-003/capability.py:11-20 | every packed response is within 2048 bytes whichever way the flag is spelled |
| Packing.PackIsOrderedSelection | experiments/track-iii-003/capability.py:73-77 | what is returned is in id order and taken from the entries, none twice |
| Packing.PartialIffDropped | experiments/track-iii-003/capability.py:78 | the flag is set exactly when some entry was left out |
| Packing.PackMaximal | experiments/track-iii-003/capability.py:74-77 | no left-out entry could be added anywhere in the final selection and still fit |
| Packing.PackOrderIndependent | experiments/track-iii-003/capability.py:70-78 | the response does not depend on the order of the entries |
| Packing.SmallerIdsHavePriority | experiments/track-iii-003/capability.py:74-77 | entries with larger ids never change which of the smaller ones are returned |
| Packing.PackedComeFromEntries | experiments/track-iii-003/capability.py:70-78 | nothing is returned that was not offered |
| Packing.PackAnswers | experiments/track-iii-003/capability.py:70-78 | results exactly for a non-empty listing, empty otherwise, and all of it unless the flag is set |
| Wires.RecordPrefixFree | experiments/track-iii-003/capability.py:11-20 | where a written record ends is seen from its text, and the text determines the record |
| Wires.WireInjective | experiments/track-iii-003/capability.py:11-20 | different records, of whatever kinds, are written differently |
| Wires.AnswerInjective | experiments/track-iii-003/capability.py:11-20 | the text of a packed answer determines its records, their order and its flag |
| Capability.SearchSeesVisibleMatches | experiments/track-iii-003/capability.py:107-111 | the packed candidates are exactly the lineage's entries that contain the query |
| Capability.WritesAreScoped | experiments/track-iii-003/capability.py:96-123 | a new entry is the requested one, at the bound context or the fixed declaration target, with the provenance the caller's role allows |
| Capability.RefusedFor | experiments/track-iii-003/capability.py:84-104 | who may ask what within which bounds, and the first reason for a refusal |
| Capability.SearchLaw | experiments/track-iii-003/capability.py:107-111 | a search returns inherited entries that contain the query, all of them unless flagged, and says whether there are any |
| Capability.FetchLaw | experiments/track-iii-003/capability.py:112-114 | an inherited entry is returned by its id; hidden and missing ids are refused alike |
| Capability.WriteLaw | experiments/track-iii-003/capability.py:115-125 | a write is recorded exactly when its target exists and its id is free; every field of the stored entry and of the receipt |
| Capability.Memory.Begin | experiments/track-iii-003/capability.py:51-58 | a new execution with its own binding, or no change |
| Capability.Memory.Participant | experiments/track-iii-003/capability.py:60-68 | a caller is issued exactly for an issued execution and a bounded name |
| Capability.Memory.Handle | experiments/track-iii-003/capability.py:80-125 | answer and store afterwards for every bound and unbound caller and every request |
| Capability.Memory.Store | experiments/track-iii-003/capability.py:115-125 | a write is acknowledged exactly when the tree takes it |
| Text.UniqueParseIffSeparable | experiments/track-iii-004/security.py:136 | `target::id` splits back uniquely, over the local ids that callers, gate and desk write, exactly when no context id extends another one plus the separator by less than 80 bytes |
| Text.LongNamesAreSeparable | experiments/track-iii-004/security.py:118 | a longer extension is harmless: a context id of 81 characters and more below `a::` shares no key with `a` |
| Text.ColonFreeIsSeparable | experiments/track-iii-004/security.py:16-18 | context ids without a colon are separable |
| Text.ColonNamesCollide | experiments/track-iii-004/security.py:136 | two legal context names whose written keys coincide |
| Text.SearchFree | experiments/track-iii-005/gate.py:149-152 | the counting loop ends and finds the least free number |
| SecurityMemories.SecurityMemory.Build | experiments/track-iii-004/security.py:15-40 | a fixture is accepted exactly when ids, tree, sources and edges are in order, and the start state satisfies the invariant |
| SecurityMemories.LoadDerived | experiments/track-iii-004/security.py:26-32 | accepts exactly the derived rows with fresh unique ids and known sources |
| SecurityMemories.CheckEdges | experiments/track-iii-004/security.py:33-38 | passes exactly when every edge joins two graph nodes and carries exactly their sources |
| SecurityMemories.InitialInv | experiments/track-iii-004/security.py:15-40 | every accepted fixture establishes the invariant of the run |
| SecurityMemories.SecurityMemory.BeginExecution | experiments/track-iii-004/security.py:42-46 | issues the execution with its domain snapshot |
| SecurityMemories.SecurityMemory.InstallCache | experiments/track-iii-004/security.py:40 | a precomputed cache is put in place of the old one; the invariant holds |
| SecurityMemories.SecurityMemory.CachedLoop | experiments/track-iii-004/security.py:94-103 | the row loop answers from the first row with the caller's own key |
| SecurityMemories.SecurityMemory.Put | experiments/track-iii-004/security.py:144-146 | the nested bind and write go through for every committable entry, and both stores take it |
| SecurityMemories.SecurityMemory.Handle | experiments/track-iii-004/security.py:105-168 | answer and whole state afterwards for all seven operations, keeping the invariant; what both are is said field by field in the rows of `SecurityLaws` |
| SecurityLaws.BoundsAreChecked | experiments/track-iii-004/security.py:113-120 | no string over 1024 bytes, and names of one to 80 bytes |
| SecurityLaws.PolicyStateTable | experiments/track-iii-004/security.py:48-70 | a missing policy makes the memory unavailable; a policy is valid exactly with the listed domains, grants, deny ids, context domains and labels, and denies everything otherwise |
| SecurityLaws.RefusalTable | experiments/track-iii-004/security.py:106-125 | served exactly an issued caller of an issued execution, within bounds, under a valid policy, of an available memory; anyone else is told one status and changes nothing |
| SecurityLaws.VisibleIff | experiments/track-iii-004/security.py:72-82 | an entry is visible exactly when its context is inherited, its domain granted and its id not denied; a derived object exactly when all its sources are |
| SecurityLaws.SearchLaw | experiments/track-iii-004/security.py:165-168 | every returned item is visible, of the kind asked for, and contains the query; all such records come back unless flagged; empty exactly when there are none |
| SecurityLaws.GetLaw | experiments/track-iii-004/security.py:150-151 | the visible record asked for, or the answer a missing one gets |
| SecurityLaws.NeighborsLaw | experiments/track-iii-004/security.py:152-161 | of a visible graph node its visible outgoing edges and their end points, all unless flagged; of anything else denied |
| SecurityLaws.DebugLaw | experiments/track-iii-004/security.py:162-164 | the numbers of visible raw entries and of visible derived objects |
| SecurityLaws.CachedLaw | experiments/track-iii-004/security.py:94-103 | only the first row for this query, context, domain and policy version answers; refused unless the count of visible writes agrees and all it lists is visible |
| SecurityLaws.WriteLaw | experiments/track-iii-004/security.py:126-147 | which role may write what where; every field of the stored entry and of the receipt; otherwise denied without a change |
| Security.StepKeepsInv | experiments/track-iii-004/security.py:105-147 | every step keeps both stores in agreement, the write namespace, the identities and the derived objects in order |
| Security.RunKeepsInv | experiments/track-iii-004/security.py:42-168 | the same over every run |
| Security.WrittenIsFresh | experiments/track-iii-004/security.py:126-147 | a stored write is new, in its target's namespace and domain, and classified as the policy demands |
| Security.WrittenIsCommittable | experiments/track-iii-004/security.py:136-146 | a write that passes the checks can never be refused by the tree |
| Noninterference.EdgeVisibleIffEnds | experiments/track-iii-004/security.py:33-38 | an edge is visible exactly when both of its end points are |
| Noninterference.NeighborsReturnVisible | experiments/track-iii-004/security.py:152-161 | `neighbors` returns only visible records |
| Noninterference.ReadsDependOnView | experiments/track-iii-004/security.py:148-168 | two memories with the same visible records answer every read alike, so hidden and missing cannot be told apart |
| Noninterference.HiddenStepKeepsView | experiments/track-iii-004/security.py:126-147 | local respect: a write outside lineage or grants leaves the view as it was |
| Noninterference.ObservationKeepsSameView | experiments/track-iii-004/security.py:126-147 | two memories that look the same to an execution, and may differ in any way out of its sight, answer its recordObservation alike and look the same to it afterwards |
| Noninterference.CallKeepsViews | experiments/track-iii-004/security.py:126-147 | step consistency: two memories that look the same from a context, whatever hidden entries, hidden derived objects and deny lists they have, still do after every call that is not a hidden write |
| Noninterference.ViewDecidesAnswer | experiments/track-iii-004/security.py:105-168 | output consistency: memories that look the same from a context answer its executions alike, refusals included |
| Noninterference.LookalikesAnswerAlike | experiments/track-iii-004/security.py:72-168 | memories that look the same from a context answer its executions alike over every run, with or without the writes it may not see |
| Noninterference.WholeRunNoninterference | experiments/track-iii-004/security.py:72-168 | for every run, deleting all writes a context may not see changes none of the answers its executions get |
| Lookalikes.NoRunTellsApart | experiments/track-iii-004/security.py:15-40 | no run tells two fixtures apart that look the same from a context |
| Lookalikes.HiddenMightBeMissing | experiments/track-iii-004/security.py:72-103 | over every run, a setup entry that a context may not see might as well not exist |
| Confinement.VisibleIsConfined | experiments/track-iii-004/security.py:57-76 | under a valid policy a visible entry is of the own or the public domain, inside the lineage, and not denied |
| Confinement.ReadReturnsAllowed | experiments/track-iii-004/security.py:148-168 | every read, the cache included, returns visible records or the caller's own counts |
| Confinement.AnswersAreConfined | experiments/track-iii-004/security.py:105-168 | no answer carries a record of another private domain, from outside the lineage or denied; derived objects through every source |
| Confinement.RunAnswersAreConfined | experiments/track-iii-004/security.py:42-168 | the same for every answer of every run |
| Interference.FirstWriteShowsIff | experiments/track-iii-004/security.py:136-147 | of two writes that would each be recorded, the second is answered differently after the first exactly when both ids are the same |
| Interference.HiddenWriteFeltIff | experiments/track-iii-004/security.py:136-147 | purging a hidden write changes an answer at another context exactly when the write was stored under the key of its own observation |
| Interference.NestedOwnersInterfere | experiments/track-iii-004/security.py:136-139 | for every tree with two nested context ids there is a fixture and a run in which purging a hidden write changes an answer |
| Interference.NoninterferenceIffSeparable | experiments/track-iii-004/security.py:72-168 | on a tree, noninterference holds for every fixture and every run exactly when the context ids are separable |
| Interference.TwinsInterfere | experiments/track-iii-004/security.py:136-139 | the concrete fixture and run with contexts `a` and `a::b` |
| Growth.RunGrows | experiments/track-iii-004/security.py:144-146 | what was stored once stays, unchanged, in every later state |
| Growth.DerivedVisibilityFixed | experiments/track-iii-004/security.py:78-82 | a derived object is visible later exactly when it was before |
| Growth.RevisionIsExact | experiments/track-iii-004/security.py:89-92 | the count of visible writes is unchanged exactly when no visible entry was added |
| Growth.CachedIsFreshOrRefused | experiments/track-iii-004/security.py:94-103 | a row that stood for a search later gives exactly the fresh packed result or a refusal, the latter exactly after a visible addition |
| Growth.SearchIsFresh | experiments/track-iii-004/security.py:165-168 | a search is one of the results a row may stand for |
| Growth.PolicyIsShared | experiments/track-iii-004/security.py:48-70 | the policy verdict is the same for every issued execution |
| Growth.CommitKeepsPolicyIff | experiments/track-iii-004/security.py:66-70 | storing an entry keeps a valid policy valid exactly when it is classified as its domain demands |
| Growth.RunKeepsPolicy | experiments/track-iii-004/security.py:48-70 | a policy valid once is valid after every run of the memory, for every execution issued by then |
| Scanners.TokensOfJoined | experiments/track-iii-005/gate.py:37-38 | joining tokens by blanks and tokenizing again gives the tokens back |
| Scanners.WindowIsSubstring | experiments/track-iii-005/gate.py:39-40 | a contiguous run of tokens is a substring of the joined text |
| Scanners.CleanSharesNoWindow | experiments/track-iii-005/gate.py:36-44 | a clean source-fragment report means that no eight consecutive tokens are shared |
| Scanners.SubstringIffClipped | experiments/track-iii-005/gate.py:40 | the substring test holds exactly when the window occurs with its outer two tokens possibly inside longer ones |
| Scanners.PassIffNoClippedWindow | experiments/track-iii-005/gate.py:36-44 | the scanner passes exactly when no such window occurs: it can reject more than whole-token sharing, never less |
| Scanners.RejectedWithoutSharing | experiments/track-iii-005/gate.py:36-44 | a concrete source and candidate that share no eight tokens, and the candidate is rejected |
| Scanners.CleanIff | experiments/track-iii-005/gate.py:28-46 | a scanner of any name passes a candidate exactly when it runs undisturbed and finds nothing: no secret pattern, no shared window, none of its literals |
| Scanners.ReportMeans | experiments/track-iii-005/gate.py:28-46 | a report of a match stands exactly for a scanner that ran and found something, one of unavailability exactly for one that is down |
| PromotionGates.PromotionGate.IssueToken | experiments/track-iii-005/gate.py:60-63 | a token bound to a fresh execution |
| PromotionMeaning.IssueLaw | experiments/track-iii-005/gate.py:60-63 | the fresh token carries the role and principal asked for, over a new execution at that context; otherwise nothing changes |
| PromotionGates.PromotionGate.ScanLoop | experiments/track-iii-005/gate.py:123-132 | one report per required scanner, in order, faults included |
| PromotionGates.PromotionGate.RequestPromotion | experiments/track-iii-005/gate.py:70-165 | answer, memory and gate afterwards for every token and request, in either edition of the gate, keeping both invariants; what they are is said in the rows of `PromotionMeaning` |
| PromotionMeaning.PassIff | experiments/track-iii-005/gate.py:78-139 | a promotion passes exactly with the service role, bounds, switches, policies, the own visible source of original status, the route, the approval when domains differ, and in either case every required scanner undisturbed and with nothing to find |
| PromotionMeaning.UnlistedSecretsPass | experiments/track-iii-005/gate.py:121-122 | across domains, where the configuration does not list the scanner for secrets, a promotion that passes does so whatever the secret patterns match |
| PromotionMeaning.StopsAs | experiments/track-iii-005/gate.py:78-139 | every other one is refused for its first reason, scanner faults and matches told apart |
| PromotionMeaning.PromoteLaw | experiments/track-iii-005/gate.py:73-165 | every field of the stored entry, its id, the receipt, the replay record and the audit; a repeated request gets that receipt, a different one under its key is refused; nothing else changes |
| PromotionLaws.PassMeans | experiments/track-iii-005/gate.py:78-139 | passing the checks means service role, valid policy, own visible source whose status fits its provenance, and the direct parent on a route; the scans are `PromotionLaws.PassIsVetted` |
| PromotionLaws.PassIsVetted | experiments/track-iii-005/gate.py:121-139 | every passed promotion, within a domain or across, has one clean report of each required scanner, `secret` alone within a domain, each in its normal mode and with nothing to find |
| PromotionLaws.CrossingSharesNoWindow | experiments/track-iii-005/gate.py:121-139 | a passed crossing of domains shares no eight consecutive tokens when the source-fragment scanner is required |
| Confinement.NoProbingWithoutRole | experiments/track-iii-005/gate.py:78-80 | without the service role the answer is the same over any two memories, and only the audit changes |
| PromotionLaws.StoredIsCommittable | experiments/track-iii-005/gate.py:148-160 | the nested bind and write of an admission are never refused |
| PromotionLaws.RequestFootprint | experiments/track-iii-005/gate.py:73-77 | every request adds exactly one audit record; every answer but an admission changes nothing else |
| PromotionLaws.PromoteKeepsGateInv | experiments/track-iii-005/gate.py:140-165 | replay records and receipts stay in one-to-one correspondence, each for its own stored promotion, and every admission in the audit was cleared |
| PromotionLaws.GrowthKeepsGateInv | experiments/track-iii-007/composition.py:59-67 | and that stands whatever callers, desk and other gates add to the memory |
| PromotionLaws.PromoteKeepsAccounted | experiments/track-iii-005/gate.py:148-165 | between them the gates of a memory keep a receipt for each promotion, and no two for the same one |
| PromotionLaws.PromotionHasOneAnswer | experiments/track-iii-005/gate.py:140-165 | each stored promotion was answered by exactly one replay record of exactly one gate |
| PromotionLaws.RetryReturnsSameReceipt | experiments/track-iii-005/gate.py:140-147 | an identical request that passes again, at any later time, gets the same receipt and stores nothing |
| PromotionLaws.PassAgain | experiments/track-iii-005/gate.py:78-139 | the checks pass again while source, approvals, switches and scanner modes stand |
| PromotionLaws.BooksBalance | experiments/track-iii-005/gate.py:163-164 | replay records and receipts are equally many, and so are the promotions when no other gate promotes |
| PromotionLaws.EveryEntryHasOrigin | experiments/track-iii-005/gate.py:97-109 | every entry traces back through finitely many promotions of whichever gates, one level each on a route allowed there, to a non-promoted one with its provenance and status |
| DestinationViews.ShownIffReturned | experiments/track-iii-005/gate.py:167-173 | a receipt is shown exactly when the gate's own promoted entry was returned by the caller's own search, and describes that entry |
| DestinationViews.ShownInOrder | experiments/track-iii-005/gate.py:167-173 | the receipts come in the order of their entry ids, each once |
| DestinationViews.ReceiptsFollowAnswer | experiments/track-iii-005/gate.py:167-173 | for a gate that alone promotes, equal answers come with equal receipts, whatever else the two memories and gates hold |
| DestinationViews.RevisionIffServed | experiments/track-iii-005/gate.py:167-173 | the revision is given exactly when the search is served, and is the number of post-setup entries the execution may read |
| OutcomeAdmissions.OutcomeAdmission.GatherLoop | experiments/track-iii-006/admission.py:64-77 | rows for the requirements in order, stopping at the first malformed one |
| OutcomeAdmissions.OutcomeAdmission.ResolveLoop | experiments/track-iii-006/admission.py:46-90 | classification and bundle for every issued execution |
| OutcomeAdmissions.OutcomeAdmission.AdmitReflection | experiments/track-iii-006/admission.py:96-160 | answer, memory and desk afterwards for every token and request, keeping both invariants; what they are is said in the rows of `OutcomeMeaning` |
| OutcomeMeaning.ResolutionTable | experiments/track-iii-006/admission.py:46-90 | an execution is classified by its envelope and the evidence kept for its requirements alone: the whole table, requirement by requirement, and the rows its bundle holds |
| OutcomeMeaning.GroundedIff | experiments/track-iii-006/admission.py:104-136 | a request is grounded exactly within bounds, with switches on and the policy valid, when the records bear its intent out and trusted evidence carries every fact of the first catalog row for its candidate |
| OutcomeMeaning.RefusedAs | experiments/track-iii-006/admission.py:104-136 | every other one is refused for its first reason |
| OutcomeMeaning.ReflectLaw | experiments/track-iii-006/admission.py:96-160 | every field of the stored entry, its id, the receipt, the derivation and the replay record; a repeated request gets that receipt on the same snapshot and is refused otherwise; nothing else changes |
| OutcomeMeaning.AuditTells | experiments/track-iii-006/admission.py:120-124 | the audit names the records a decision was made on and how they classify the execution |
| OutcomeMeaning.IssueLaw | experiments/track-iii-006/admission.py:35-41 | the fresh token is for a known execution, at the context that setup names; otherwise nothing changes |
| OutcomeLaws.ResolutionIsEarned | experiments/track-iii-006/admission.py:46-90 | a resolution is verified success or failure exactly when its own bundle earns it |
| OutcomeLaws.AdmitKeepsDeskInv | experiments/track-iii-006/admission.py:120-160 | every verified entry that is no promotion keeps a stored snapshot that earns its status, and every replay record its one entry |
| OutcomeLaws.RepeatedReflection | experiments/track-iii-006/admission.py:139-145 | at any later time an identical request stores nothing; it gets the first receipt exactly when the checks pass on the same bundle |
| OutcomeLaws.ExamineAgain | experiments/track-iii-006/admission.py:115-136 | with switches on, a valid policy and unchanged records the checks pass again on the same bundle |
| OutcomeAdmissions.OutcomeAdmission.Supply | experiments/track-iii-006/admission.py:24-28 | new trusted records replace the old ones; what was admitted keeps its snapshot |
| Lockout.NoteLocksMemory | experiments/track-iii-006/admission.py:149-155 | a concrete fixture in which a retained public note turns a valid policy into a refusal for every execution |
| OutcomeLaws.AdmissionKeepsPolicyIff | experiments/track-iii-006/admission.py:149-155 | a stored reflection keeps a valid policy valid exactly when the bound domain is not public |
| OutcomeLaws.PublicReflectionLocksMemory | experiments/track-iii-004/security.py:66-70 | a public-domain entry marked private makes the memory refuse every request |
| OutcomeLaws.AdmitIgnoresClaim | experiments/track-iii-006/admission.py:92-94 | another worker claim changes no status, receipt, entry or record |
| World.PerformKeepsWorldInv | experiments/track-iii-007/composition.py:18-67 | over one memory shared by callers, a desk and any number of gates of either edition, joined at any time, every step keeps the joint invariant and only adds |
| World.TraceKeepsWorldInv | experiments/track-iii-007/composition.py:19-39 | the same over every interleaving |
| World.StoresNeverDrift | experiments/track-iii-004/security.py:144-146 | in every reachable state both stores have the same ids and owners, and an id parses to its owner |
| World.PromotionHappensOnce | experiments/track-iii-007/promotion_v2.py:140-165 | after an admission an identical request to the same gate stores nothing, whatever happened in between; it gets the first receipt exactly when the checks pass again |
| World.ReflectionHappensOnce | experiments/track-iii-006/admission.py:139-160 | the same for reflections, whatever trusted records changed: the first receipt exactly when the checks pass on the same bundle |
| World.ReflectionComesBack | experiments/track-iii-006/admission.py:115-145 | with switches on, a valid policy and unchanged records the first receipt does come back |
| World.OriginsInEveryState | experiments/track-iii-007/promotion_v2.py:97-165 | in every reachable state every entry traces back through promotions to a non-promoted one with its provenance and status |
| World.VerifiedInEveryState | experiments/track-iii-007/promotion_v2.py:106-161 | in every reachable state each verified outcome, promoted or not, traces back to a reflection whose stored snapshot earns its status |
| World.CacheAcrossRuns | experiments/track-iii-004/security.py:89-103 | the cache law between any two points of any interleaving |
| Isolation.HiddenPromotionKeepsView | experiments/track-iii-007/promotion_v2.py:149-160 | a promotion to a parent that a context may not read leaves its view as it was |
| Isolation.HiddenReflectionKeepsView | experiments/track-iii-006/admission.py:146-155 | so does a reflection in an unreadable context that is not public |
| Isolation.ViewDecidesPromotion | experiments/track-iii-007/promotion_v2.py:94-165 | what a gate decides of a promotion from one readable context to another depends only on what the context sees and on the replay records for such promotions |
| Isolation.ViewDecidesReflection | experiments/track-iii-006/admission.py:115-153 | the same for reflections at a readable context |
| Isolation.HiddenActsAreNotNoticed | experiments/track-iii-007/composition.py:18-67 | two worlds that are equal for a context answer it alike over every run, the second without the hidden writes, promotions and reflections; excluded are only promotions from an unreadable context to a readable one, and reflections in an unreadable public context |
| Isolation.WholeWorldNoninterference | experiments/track-iii-007/composition.py:18-67 | in particular one world, with and without its hidden acts |
| World.DerivedFixedAcrossRuns | experiments/track-iii-004/security.py:78-82 | the visible derived objects of an execution never change during a run |
| World.SetupGivesWorldInv | experiments/track-iii-004/security.py:15-40 | every accepted fixture starts a run these laws apply to |
| World.JoinStep | experiments/track-iii-007/composition.py:59 | a gate with empty books may be joined to a memory that already holds promotions |
| World.ClaimsChangeNothing | experiments/track-iii-006/admission.py:92-94 | replacing every worker claim of a run changes no status, receipt or stored entry anywhere in it |
| World.PolicyValidIffNoPublicReflection | experiments/track-iii-004/security.py:66-70 | a policy that starts valid is valid later exactly when no reflection was stored in the public domain |
| Authorship.EveryEntryHasAuthor | experiments/track-iii-004/security.py:126-147 | in every reachable state an entry is as setup left it, or has an issued caller of the fitting role, at the fitting context, as its author, or came through gate or desk |
| Authorship.PromotionsAreVetted | experiments/track-iii-007/promotion_v2.py:121-161 | in every reachable state a stored promotion represents a stored source, and no scanner required for it, within a domain or across, has anything to find in it |
| Authorship.AdmissionsHoldNoSecret | experiments/track-iii-005/gate.py:121-139 | in every reachable state each audited admission was scanned for secrets and matches no secret pattern, unless it crossed domains where that scanner is not required |
| Authorship.DerivationsAreCarried | experiments/track-iii-006/admission.py:127-133 | in every reachable state each stored derivation names a catalog row for its entry, each of whose facts is on an evidence row of its own snapshot |
| Authorship.ReceiptsAreCarried | experiments/track-iii-006/admission.py:127-158 | and each remembered receipt is for an entry with such a derivation |
| Suites.Substitute | verification/suite.py:285-316 | each argument that refers to a non-empty value, as `$NAME` or as a bare upper-case name, becomes that value; every other one stays as it is |
| Suites.ResolutionIsUnique | verification/suite.py:306-315 | an argument resolves in one way only |
| Suites.SummaryMeans | verification/suite.py:347-352 | PASS exactly when every report has no exit code or zero and no timeout, FAIL otherwise; each other step's name, exit code and timeout mark occur in the reason |
| Suites.ReasonListsFailures | verification/scheduler_restate.py:133-139 | the reason lists exactly the steps that are not in order, each once and in their order |
| Suites.BlockedTextMeans | verification/suite.py:333-341 | a suite is blocked exactly when some prerequisite is unavailable or malformed; the reason names those and no others, in name order, with their details |
| Suites.PreparedMeans | verification/suite.py:342-346 | command and environment are resolved value by value; nothing is added, lost or renamed |
| Suites.RunStepsLoop | verification/suite.py:342-346 | the i-th report is the i-th step's own: its name, its prepared command, and what running that gave |
| Suites.Execute | verification/suite.py:333-352 | an unavailable or malformed prerequisite blocks before any step; otherwise every step is run and reported, and the result is PASS exactly when every report has no exit code or zero and no timeout |
| Schedulers.Scheduler.SubmitSuite | verification/scheduler.py:129-150 | id and whole state afterwards, hermetic and host suites |
| Schedulers.Scheduler.Advance | verification/scheduler.py:238-260 | the same run ends terminal with a result, exactly when it is blocked or the executor returns; otherwise it stays running without one |
| Schedulers.Scheduler.AdmitNext | verification/scheduler.py:166-193 | id and whole state after an admission attempt |
| Schedulers.Scheduler.RunAdmitted | verification/scheduler.py:196-220 | only the active run executes; it ends with its executor's own result, steps and reason, or, when that raises, as a FAIL that quotes the error and keeps its steps; the slot is free in either case |
| Schedulers.Scheduler.InterruptRun | verification/scheduler.py:222-235 | only the active run is interrupted, as BLOCKED, with the reason if one is given; its steps stay and the slot is free |
| Schedulers.NextKeepsInv | verification/scheduler.py:129-235 | every host record is queued, active or terminal, exactly one of them |
| Schedulers.AfterKeepsInv | verification/scheduler.py:129-235 | the same over every run of calls |
| Schedulers.StrictFifo | verification/scheduler.py:148-193 | what waited and was submitted, in order, is what was admitted followed by what waits |
| Schedulers.FifoFromStart | verification/scheduler.py:148-193 | from the start, the accepted host submissions are the admissions followed by the queue |
| Schedulers.TerminalForever | verification/scheduler.py:180-235 | a terminal record never changes again |
| Schedulers.OneActive | verification/scheduler.py:166-193 | at most one host run is running |
| Schedulers.FreedSlotAdmitsNext | verification/scheduler.py:222-235 | an interrupted or finished run lets the next in line be admitted |
| Schedulers.SubmitLaw | verification/scheduler.py:129-150 | a fresh numbered id; a host run is queued last, a hermetic one ends blocked or with its executor's own result; every field of the record |
| Schedulers.TickLaw | verification/scheduler.py:166-193 | the head of the queue is taken exactly when nothing is active; it starts, or ends blocked exactly when some prerequisite stops it; every field of the record |
| Schedulers.AfterKeepsSettled | verification/scheduler.py:129-235 | in every reachable state a record's state and result tell the same |
| Schedulers.PassIsEarned | verification/scheduler.py:196-220 | over every run of calls a record is PASS only if its own execute call returned PASS, with the steps and the reason recorded |
| DurableSchedulers.DurableScheduler.RunMain | verification/scheduler_restate.py:148-191 | the report of a run: blocked by what its probes did not find, otherwise PASS exactly when every step has no exit code or zero and no timeout; none exactly for an unknown suite or worktree or a step that cannot be started |
| DurableSchedulers.MainLaw | verification/scheduler_restate.py:148-191 | the same of the transition function |
| DurableSchedulers.DurableScheduler.FullDispatch | verification/scheduler_restate.py:263-288 | the recursive dispatch ends and leaves the state described |
| DurableSchedulers.DurableScheduler.SubmitSuite | verification/scheduler_restate.py:239-255 | refused for an unknown suite or worktree, otherwise queued and dispatched |
| DurableSchedulers.DispatchDrainsIffAllReturn | verification/scheduler_restate.py:263-288 | from idle the dispatch ends idle and empty exactly when every run call returns, each called once in order |
| DurableSchedulers.DispatchStopsAtRaise | verification/scheduler_restate.py:277-288 | the first run call that raises keeps the slot, with the rest still queued |
| DurableSchedulers.ClaimedSlotBlocks | verification/scheduler_restate.py:239-273 | behind a slot left claimed any number of later submissions only pile up in order, and nothing is started or reported |
| DurableSchedulers.RaiseStopsForGood | verification/scheduler_restate.py:277-288 | after the first run call that raises, no later submission ever runs |
| DurableSchedulers.DispatchRefinesDrain | verification/scheduler_restate.py:263-288 | over paired queues the dispatch and the in-process drain end idle with the same result, reason and steps for every run |
| DurableSchedulers.SubmittedOneByOne | verification/scheduler_restate.py:239-288 | while run calls return, every submission finds the durable scheduler idle and empty and is reported before the next |
| DurableSchedulers.SchedulersAgree | verification/scheduler_restate.py:239-288 | the same host submissions, made one after the other to both schedulers from the start, end with the same result, reason and steps |
| Breakers.CandidateBreaker.Success | experiments/jev-provider-carveout/jev_provider.py:366-370 | the new counters and status |
| Breakers.CandidateBreaker.Failure | experiments/jev-provider-carveout/jev_provider.py:372-399 | the new counters, and the trip when a run reaches the threshold |
| Breakers.CandidateBreaker.OperatorReset | experiments/jev-provider-carveout/jev_provider.py:410-414 | available, with both runs at zero |
| Breakers.ShadowClassifier.AssessBinding | experiments/jev-provider-carveout/jev_provider.py:239-267 | decision and whole state afterwards |
| Breakers.CountersEqualHistory | experiments/jev-provider-carveout/jev_provider.py:366-399 | the counters are the trailing runs and totals of the whole history |
| Breakers.OpenIffWindow | experiments/jev-provider-carveout/jev_provider.py:362-399 | the circuit is open exactly when the current episode holds `threshold` consecutive failures of one kind |
| Breakers.FirstWindowDecides | experiments/jev-provider-carveout/jev_provider.py:381-392 | the first such window fixes the status and the category tripped on |
| Breakers.ClosedStatus | experiments/jev-provider-carveout/jev_provider.py:366-370 | a closed circuit is unconfigured until the first success or reset, then available |
| Breakers.DegenerateThreshold | experiments/jev-provider-carveout/jev_provider.py:381-392 | with a threshold below one the circuit is open exactly while the episode holds a failure, tripped as exhausted by the first one, refusal or not |
| Breakers.AssessFootprint | experiments/jev-provider-carveout/jev_provider.py:239-267 | every call returns the accepted judgement, adds one observation, and calls the candidate exactly when the circuit is closed |
| Breakers.OpenStaysOpen | experiments/jev-provider-carveout/jev_provider.py:247-250 | an open circuit makes no candidate call and stays as it is until reset |
| Breakers.ShadowBreakerFollowsHistory | experiments/jev-provider-carveout/jev_provider.py:251-264 | the classifier drives the breaker by exactly the events it saw, so the history laws apply |
| Breakers.ObservationLaw | experiments/jev-provider-carveout/jev_provider.py:239-267 | what is observed: the open circuit's status, the candidate's failure, a changed binding, or the judgement and whether it agrees |
| Breakers.BreakerHears | experiments/jev-provider-carveout/jev_provider.py:251-264 | a usable judgement counts as a success, everything else as a failure of its category, and an open breaker hears nothing |
| Credentials.ValidateValues | infra/secrets.py:167-181 | the entry loop accepts exactly the complete, clean, long enough values that are no placeholders |
| Credentials.AcceptedMeans | infra/secrets.py:167-181 | accepted exactly the declared keys, each value non-empty, as long as declared, without refused characters and without a placeholder word |
| Credentials.ComplaintMeans | infra/secrets.py:173-180 | the first thing wrong with a value |
| Credentials.SeparatorsAreForbidden | infra/secrets.py:47 | every character that ends a line for the reader is refused in values; `=` is not |
| Credentials.RenderedLines | infra/secrets.py:184-186 | the printed text splits into exactly one line per declared secret |
| Credentials.RoundTrip | infra/secrets.py:184-186 | loading the printed text gives back exactly the values |
| Credentials.PrintedKeysAreDeclared | infra/secrets.py:223-236 | inspecting the printed text finds exactly the declared keys, none missing and none undeclared |
| Credentials.PrintedIsPlain | infra/secrets.py:202 | reading the printed text in text mode gives the text that was written |
| Credentials.RenderInjective | infra/secrets.py:184-186 | different accepted values print differently |
| Credentials.ReadValuesLoop | infra/secrets.py:271-277 | the line loop fills the map; its keys are the ones inspection lists |
| Credentials.LinesOf | infra/secrets.py:273 | lines end at the ten line-breaking characters, a carriage return and line feed counting once, and hold none of them |
| Credentials.PartitionMeans | infra/secrets.py:275 | a line is a key up to its first equals sign and the value behind it |
| Credentials.LastLineCounts | infra/secrets.py:272-276 | the last line for a key gives its value |
| Credentials.SafeIff | infra/secrets.py:223-236 | safe exactly when present, 0600 and holding exactly the declared keys |
| Credentials.InspectMeans | infra/secrets.py:223-236 | every field of the report: mode, keys, undeclared and missing ones, ownership and safety |
| Credentials.UnownedCredentialLoads | infra/secrets.py:235-236 | a 0600 file of another owner with accepted values is safe and loads, though materializing over it is refused |
| Credentials.LoadedKeysAreDeclared | infra/secrets.py:264-277 | whatever the file holds, what is loaded has exactly the declared keys |
| Credentials.LoadTells | infra/secrets.py:264-277 | loaded is what the file holds when it is operator-only with exactly the declared keys; a missing credential is told from an unsafe one |
| Credentials.MaterializeMeaning | infra/secrets.py:246-261 | succeeds exactly for a known consumer, acceptable values and a writable destination; then loading returns the values; `unchanged` exactly when nothing changed; a failure changes nothing |
| Credentials.MaterializeTells | infra/secrets.py:246-261 | how each failure is told, and that a restart is called for exactly when the file was written and a service uses it |
| Credentials.RematerializeUnchangedIff | infra/secrets.py:202-203 | materializing again is `unchanged` exactly when the values are the same |
| Credentials.OthersUntouched | infra/secrets.py:239-243 | other destinations keep what they load |
| Credentials.SharedDestination | infra/secrets.py:72-77 | two consumers with one destination: the other loads the new values with equal keys, and is locked out otherwise |
| Credentials.LoadsLastAccepted | infra/secrets.py:246-277 | over every run of rotations a consumer loads the values last accepted for it |
| Credentials.ChildSees | infra/secrets.py:280-291 | the child gets its own values, none of another consumer's keys, no manager variable of the shell, everything else unchanged |
| Credentials.ChildIgnoresExportedSecrets | infra/secrets.py:288-291 | what the shell exports under a declared or manager name never matters |
| Credentials.ManagerVariableReachesIff | infra/secrets.py:53-55 | a manager variable reaches the child exactly when the consumer declares a secret of that name |
| Credentials.CredentialDirectory.Write | infra/secrets.py:189-220 | refused, unchanged or written, with the directory afterwards |
| Credentials.CredentialDirectory.MaterializeConsumer | infra/secrets.py:246-261 | result and directory afterwards |
| Credentials.CredentialDirectory.LoadConsumer | infra/secrets.py:264-277 | the loaded values or the refusal |

## Left out

- Noninterference.WholeRunNoninterference: covers the callers of the memory, and leaves out the answers to an execution's own writes into a destination it may not read, as those writes are among the removed ones. Gate and desk are `Isolation.HiddenActsAreNotNoticed`.
- Isolation.HiddenActsAreNotNoticed: leaves out runs with a promotion from a context that the observer may not read to one that it may, which by design shows it something of its source, and runs with a reflection in a public context that it may not read, which breaks the policy for everyone (`OutcomeLaws.AdmissionKeepsPolicyIff`).
- ContextTrees.CheckCycles: takes the start nodes in row order instead of id order; the outcome is the same, as every start has the same refusal code.
- OutcomeAdmissions.OutcomeAdmission.ResolveLoop: requires the contract reference to be among the requirements, because the source raises otherwise.
- Breakers.OpenIffWindow: for thresholds of at least one; all others are `Breakers.DegenerateThreshold`.
- DurableSchedulers.DispatchRefinesDrain: for run calls that return; what happens when one raises is `DurableSchedulers.DispatchStopsAtRaise`.
- Schedulers.Scheduler.Advance: an executor that raises leaves the hermetic record running and returns no id, as the source does not catch there; the exception itself is not modelled further.
- Request shapes: type and key checks on untyped request dictionaries; the model starts from typed requests and keeps the length and role checks.
- Wall-clock times, durations, workload details and candidate reasons in records and observations.
- The warning callback of the breaker and the recording callback of the shadow classifier, which decide nothing.
- The frontier guardrails of the breaker: the task kernel they come from is not part of this model.
- The external diagnostics of a memory answer, which only count the entries of the response.
- Durable storage, replay and exclusivity of Restate; only the state changes of the handlers are modelled.
- Suite discovery, worktree resolution, command execution and output tails; the report of a step is a parameter.
- The synthetic `crash` and `timeout` exceptions of a scanner are reports of that kind.
- Temporary file, flush and rename of a credential write, and an unreadable file: the write replaces the file as one step, and a file that exists can be read.
- The order and repetition in the lists of a credential inspection; the model keeps the sets they list.
- Resolver, keyring and manifest handling, and the checks on consumer names, modes and manifests in the declaration file.
- Host installation, dashboards, routing reports, task runtime and chat front ends.
