# A verified model of sensei-code's stateful cores

sensei-code runs coding work under recorded authority. This project models, in
Dafny, the parts of it that keep state other code relies on, and proves what
they promise over every input, every run or every interleaving.

| modules | what they model |
|---|---|
| `Candidate`, `CandidateHistory`, `CandidateSteps`, `CandidateCopies`, `RecordLock` | the durable record of a candidate: its transactions, the shape of any history of them, their steps under a mutex and a file lock with crashes, and the copies callers hold |
| `EvidenceNames`, `EvidenceIndex`, `EvidenceBuild` | the evidence index: what each name in a directory is, when a split stream is certified, and the loops that decide it |
| `Mailbox`, `Citation`, `Answerer` | the answerer: reading a listing, the citation scanner, and the list, model, list, post loop |
| `Rendezvous` | pending turns and their two one-slot channels |
| `LocalObjective`, `LocalApproval` | the local objective handshake with proposal approval: all connections at once as a state machine, and each end's own code |
| `Bus`, `Forwarder`, `SettleLoop`, `Settlement` (events in `Events`) | event delivery, the forwarder that stops without stealing events, and the settle loop |
| `AuthorityScope` | scope coverage against the resolution key |
| `Derived` | the recipe file, the future-only rule and coverage |
| `Wrappers`, `Text` | results, and the string operations the others share |

Where the source changes fields in place the model is a class with the same
fields, and each method is proved against a function or a step relation whose
properties are then proved as lemmas. Concurrent code is a state machine over
its atomic steps: a critical section, one system call, one channel operation,
one select. What a model, a validator, the network, the disk, the kernel or a
clock answers is a parameter, or a method whose contract is all its callers
may assume (`Answerer.Outside`, `LocalApproval.Machine`,
`Rendezvous.Registry.Others`). Such an environment keeps its own log of what was
done to it, and the contracts of the code speak of that log.

## Where the code and its comments differ

The model follows the code.

- `Close` in `internal/control/rendezvous.go:134` remembers every consumed turn,
  abandoned ones too, although its comment speaks of answered turns only.
- `AbandonSession` returns how many turns it listed, not how many it woke
  (`Rendezvous.CountIsOnlyABound`); the two agree exactly when nobody else ended
  the waiting of a listed turn in between.
- A comment in `cmd/sensei-code/run.go:240-243` has everything the invocation
  published waiting when it ended. The bus drops what a full buffer has no room
  for, an ending too, and the exit is then "failed"
  (`Settlement.FullBufferLosesTheEnding`).
- `writeRecord` can fail after its rename, so an error does not mean that the
  record is unchanged (`internal/candidate/identity.go:458-461`).
- `Save` does not protect `BaseSHA`, and `Establish` reads outside the lock: two
  overlapping establishments at different heads move the base
  (`CandidateCopies.OverlappingEstablishesMoveTheBase`).
- Equality of `Key` and mutual coverage differ for a NUL in a condition or in a
  file name and for a file named like the empty-scope marker.
- `strconv.Atoi` saturates on a piece number no int holds and its error is
  dropped, so the numbers of a piece are read up to the largest int.
- `Validate` in `internal/derived/write.go:112-152` wants paths inside the tree and
  looks for `../`, so a path whose last part is `..` passes
  (`Derived.DotsAtTheEndAreRecorded`).
- Recipe identities join their terms with a character the terms may hold
  (`Derived.SeparatorCollides`).
- `json.Decoder.More` lets trailing text pass that starts with a closing brace
  or bracket, so "trailing content is refused" holds for other text only
  (`LocalApproval.ClosingBracketIsNotTrailing`).

## Model

| member | source | states |
|---|---|---|
| `CandidateSteps.InterleavingRefinesTransactions` | internal/candidate/identity.go:303-315 | every interleaving of lock, load, check, rename, sync, unlock, time-out and process death of all writers in all processes ends in the record that some run of whole transactions ends in |
| `CandidateSteps.StepRefines` | internal/candidate/identity.go:429-462 | each single step of any call is either invisible or exactly one transaction, which takes effect at its rename |
| `CandidateSteps.OneHolder` | internal/candidate/lock_unix.go:34-52 | at most one call over all processes is between reading and releasing a record |
| `CandidateSteps.AnswerIsOneTransaction` | internal/candidate/identity.go:303-315 | a call that reaches its answer is the last event of the interleaving's history, the events before it leave the very record it read, and what it did to that record is its transaction |
| `CandidateSteps.CrashLeavesOldOrNew` | internal/candidate/identity.go:429-462 | a death between lock and unlock leaves exactly the record before the interrupted transaction or exactly the one after it, and frees the lock |
| `CandidateSteps.OthersSurviveACrash` | internal/candidate/lock_unix.go:16-23 | the death of one process takes neither the lock nor the knowledge of a call in another |
| `CandidateSteps.InterleavedHistoryIsRounds` | internal/candidate/identity.go:484-550 | over every interleaving, crashes included, the successful protected operations are rounds of one invocation each and account for the execution in flight |
| `RecordLock.LockRecord` | internal/candidate/lock_unix.go:24-53 | the lock is returned exactly when the first attempt that does not retry succeeds; the deadline is looked at after a failed attempt only, bounds the number of attempts, and the file is left open exactly when the lock is held |
| `RecordLock.LastTryOnce` | internal/candidate/lock_unix.go:35-52 | that attempt is unique, so the answer is a function of what flock and the clock say |
| `Candidate.ErrorMeansOldOrNew` | internal/candidate/identity.go:429-462 | an error means the record is unchanged or already new, never a third one; it is new only when syncing the directory failed after the rename |
| `Candidate.LoadIs` | internal/candidate/identity.go:236-259 | a record is found only as its own task's, with a base; absent only when there is no file |
| `Candidate.ValidIs` | internal/candidate/disposition.go:124-147 | a resolution may be recorded exactly when it is a known disposition with a reason that keeps the checkout or names the base and the work, or that there was none |
| `CandidateHistory.TransactIsAnEvent` | internal/candidate/identity.go:303-315 | every fault of a transaction is either the whole write or none of it |
| `CandidateHistory.NoStaleCopyMatters` | internal/candidate/identity.go:328-365 | in every run, with any stale copies saved, the execution on record is the one that the protected operations alone account for |
| `CandidateHistory.StepKeepsAccount` | internal/candidate/identity.go:357-416 | no ordinary write puts an execution in flight, drops one or alters its baseline |
| `CandidateHistory.SettledStaysSettled` | internal/candidate/identity.go:523-550 | after an invocation is settled only a BeginExecution of it puts it back in flight |
| `CandidateHistory.OrdinaryWritesKeepTheExecution` | internal/candidate/identity.go:379-416 | while an execution is in flight every ordinary write keeps it exactly, and its baseline changes only by NoteBaseline of that invocation |
| `CandidateHistory.ProtectedHistoryIsRounds` | internal/candidate/identity.go:484-550 | from a settled record the successful protected operations are Begin I, any NoteBaseline I, Settle I, repeated, cut off by at most one Quarantine |
| `CandidateHistory.MarkStep` | internal/candidate/identity.go:379-401 | a protected operation succeeds only where the record admits it, and leaves a record that admits only what may follow it |
| `CandidateHistory.QuarantineIsFinal` | internal/candidate/disposition.go:224-259 | after a quarantine the execution in flight and the resolution never change again and no protected operation succeeds |
| `CandidateHistory.OnlyQuarantineExecutionQuarantines` | internal/candidate/disposition.go:165-259 | no ordinary write, Resolve included, makes a record quarantined |
| `Candidate.RecordStore.WriteRecord` | internal/candidate/identity.go:429-462 | the record is the old one or the new one, and success means the new one |
| `Candidate.RecordStore.Save` | internal/candidate/identity.go:328-345 | a save takes effect exactly when it carries the execution on record and neither drops, alters nor introduces a quarantine; then the record is the saved one |
| `Candidate.RecordStore.Resolve` | internal/candidate/disposition.go:165-215 | a success records the resolution given, field by field, with its time and its base filled in only where they were missing, in the identity on record, or the caller's where there is none, and changes nothing else; it succeeds exactly for a valid resolution other than a quarantine, over a settled record |
| `Candidate.RecordStore.BeginExecution` | internal/candidate/identity.go:484-517 | an execution starts exactly on a record with none in flight and no quarantine, and then that record carries the execution given, its start filled in where it was missing, and is otherwise unchanged |
| `Candidate.RecordStore.NoteBaseline` | internal/candidate/identity.go:379-401 | a baseline is noted exactly for the invocation in flight, and nothing else of the record changes; noting the same one again writes nothing |
| `Candidate.RecordStore.SettleExecution` | internal/candidate/identity.go:523-550 | exactly the invocation in flight is settled, never on a quarantined record, and nothing but the execution goes |
| `Candidate.RecordStore.QuarantineExecution` | internal/candidate/disposition.go:224-259 | a quarantine is recorded once, with the reason and evidence given and no removal, keeps an execution in flight and the rest of the record, and answers with the quarantined record |
| `Candidate.RecordStore.BindGraph` | internal/candidate/identity.go:621-625 | binding graph commits is an ordinary save of the caller's copy |
| `Candidate.RecordStore.Establish` | internal/candidate/identity.go:572-615 | without overlap a recorded candidate is handed back as it is or refused because its base moved; a new one is recorded exactly when the checkout is clean at a head and the write succeeds; a repository that cannot tell its head or its cleanness is a refusal of its own, and each refusal comes in the order of the questions |
| `CandidateCopies.BaseIsImmutable` | internal/candidate/identity.go:572-615 | with copies that all come from this API a recorded base never changes when establishments overlap at one head only, and so whenever they do not overlap |
| `CandidateCopies.BaseStaysIff` | internal/candidate/identity.go:572-615 | a run keeps a recorded base if and only if no copy and no establishment whose save took effect carried another one, however calls overlap |
| `CandidateCopies.StepMovesBaseIff` | internal/candidate/identity.go:328-345 | one call moves a recorded base exactly when the identity it saves carries another; transactions and resolutions never do |
| `CandidateCopies.EstablishReturnsTheBase` | internal/candidate/identity.go:572-615 | any two establishments of such a run that do not refuse return one base, the recorded one |
| `CandidateCopies.RemovalsKeepEvidence` | internal/candidate/disposition.go:124-215 | every removal on record names its base and the work's shape, or that there was none, however calls overlap |
| `CandidateCopies.OverlappingEstablishesMoveTheBase` | internal/candidate/identity.go:573-611 | two establishments that both found no record run to the end without an error, and the second overwrites the base the first recorded and returned; harmless exactly at one head |
| `EvidenceNames.PartOfIsTheLongest` | cmd/corpus/evidence.go:92-103 | a name is a stream or claims to be a piece of one, never both, and the longest qualifying prefix wins |
| `EvidenceNames.ComputePartOf` | cmd/corpus/evidence.go:92-103 | the loop finds that prefix |
| `EvidenceNames.SequenceGrammar` | cmd/corpus/evidence.go:106-118 | every tail of the form digits, -of-, digits, three or more each, is read as those two numbers |
| `EvidenceNames.SequenceGrammarOnly` | cmd/corpus/evidence.go:106-118 | nothing else is read as a sequence |
| `EvidenceNames.OutOfRangeIsMalformed` | cmd/corpus/evidence.go:106-118 | piece 0, or one numbered beyond the total it declares, claims to be a piece of its stream and is a malformed one |
| `EvidenceNames.StreamNames` | cmd/corpus/evidence.go:73-78 | every name in .log is a stream, and one in .jsonl exactly unless it ends in .receipts.jsonl |
| `EvidenceNames.StreamNamesOnly` | cmd/corpus/evidence.go:73-78 | nothing else is a stream |
| `EvidenceNames.BaseIs` | cmd/corpus/evidence.go:83-85 | the base of a stream is what is left of its name without .log, without .jsonl, and without both where it carries both |
| `EvidenceNames.OwnersAre` | cmd/corpus/evidence.go:128-157 | a name belongs to a stream exactly when it extends that stream without its extension, with no marker behind, and no longer stream name does |
| `EvidenceNames.ArtifactOwners` | cmd/corpus/evidence.go:128-157 | the streams an artifact belongs to are those with the longest base the name extends, each once, with ties kept |
| `EvidenceNames.PieceIsNoArtifact` | cmd/corpus/evidence.go:107-157 | a well-formed piece is never an artifact of any set of streams; only a malformed one can be |
| `EvidenceNames.PieceReads` | cmd/corpus/evidence.go:62-118 | the zero-padded name of piece k of n is read back as k of n of that stream, for every n an int holds |
| `EvidenceIndex.FilesAreEvidence` | cmd/corpus/evidence.go:206-222 | a success of Files is never empty, and each file it returns has the role of the whole stream or of a piece of it, never of an artifact |
| `EvidenceIndex.CertifiedOnce` | cmd/corpus/evidence.go:206-327 | a listing certifies at most one list of files for a stream |
| `EvidenceIndex.IndexIgnoresOrder` | cmd/corpus/evidence.go:228-327 | the roles and the files of every stream are the same for every permutation of the names and every order in which maps are read |
| `EvidenceIndex.SplitRoundTrip` | cmd/corpus/evidence.go:206-327 | splitting a stream into n padded pieces and indexing them in any order gives the pieces back in order 1..n, above 999 too |
| `EvidenceIndex.SharedBaseRefusesBoth` | cmd/corpus/evidence.go:261-275 | while an artifact named from what two streams share is listed, neither has files, be they whole or in pieces |
| `EvidenceIndex.LogAndJsonlShare` | cmd/corpus/evidence.go:120-127 | so `A.run` beside `A.log` and `A.jsonl` refuses both |
| `EvidenceIndex.LoneStreamIsRead` | cmd/corpus/evidence.go:206-222 | a whole stream of which nothing claims to be a piece, and that shares its base with no other, is read |
| `EvidenceIndex.TruncatedIsRefused` | cmd/corpus/evidence.go:309-325 | pieces of a split stream in any order, one of them missing, give no files |
| `EvidenceIndex.OtherClaimsRefuse` | cmd/corpus/evidence.go:290-307 | a stream listed whole beside a piece of it, or in pieces beside a malformed one, has no files |
| `EvidenceIndex.IdentityNeedsAFile` | cmd/corpus/evidence.go:234-246 | a malformed piece invents no stream |
| `EvidenceIndex.PieceGivesIdentity` | cmd/corpus/evidence.go:234-246 | one well-formed piece makes its stream one of the listing |
| `EvidenceBuild.Index.Build` | cmd/corpus/evidence.go:228-327 | each name gets its one role, and Files of a stream succeeds exactly for the whole file alone or for all n pieces 1..n, each declaring n, with no other claim and no shared artifact |
| `EvidenceBuild.Index.Files` | cmd/corpus/evidence.go:206-222 | what is read of the index is that certificate |
| `EvidenceBuild.Index.ClassifyAll` | cmd/corpus/evidence.go:248-287 | after the classifying loop every stream's entry, claims and malformed names are those of the names read |
| `EvidenceBuild.Index.CertifyClaims` | cmd/corpus/evidence.go:294-325 | the certifying loop decides each stream by its own claims, in any order of the map |
| `EvidenceBuild.Index.RefuseMalformed` | cmd/corpus/evidence.go:290-293 | one malformed piece refuses its stream and no other |
| `EvidenceBuild.Dedupe` | cmd/corpus/evidence.go:338-348 | the stream names are kept, each once |
| `EvidenceBuild.CheckPieces` | cmd/corpus/evidence.go:307-324 | the loop over sorted pieces finds a problem exactly when they are not 1..n each declaring n |
| `EvidenceBuild.OrderUnique` | cmd/corpus/evidence.go:299-302 | sorting by number has one result when the pieces are 1..n, although the sort is not stable |
| `EvidenceBuild.SettledIndexes` | cmd/corpus/evidence.go:228-327 | the maps at the end of the loops say what the certificate says, in both directions |
| `AuthorityScope.NormalizeScope` | internal/authority/resolution.go:376-389 | the loop yields the scope's distinct trimmed non-blank names, sorted |
| `AuthorityScope.NormalizedShape` | internal/authority/resolution.go:376-389 | sorted, without duplicates, and exactly those names |
| `Text.LeqIsLexicographic` | internal/authority/resolution.go:387 | the order names are sorted in: at the first difference the smaller character decides, and a beginning comes first |
| `Text.TrimSpaceRemoves` | internal/authority/resolution.go:380 | trimming takes white space off both ends and nothing else |
| `Text.AsciiSpace` | internal/authority/resolution.go:380 | which of the ASCII characters that is |
| `AuthorityScope.ComputeCovers` | internal/authority/resolution.go:353-373 | the loops decide coverage: same condition, and the plan inside the scope, an unscoped side matching only an unscoped one |
| `AuthorityScope.CoversThePlan` | internal/authority/resolution.go:353-373 | an answer covers a plan exactly when the trimmed conditions are equal, each file of the plan is one of the scope up to white space, and both or neither name a file |
| `AuthorityScope.CoversReflexive` | internal/authority/resolution.go:353-373 | a resolution covers its own question |
| `AuthorityScope.CoversTransitive` | internal/authority/resolution.go:353-373 | coverage is transitive |
| `AuthorityScope.ScopeSpellingIrrelevant` | internal/authority/resolution.go:317-389 | another order, blank or repeated entries put in or taken out, and other white space around names change neither coverage nor key |
| `AuthorityScope.KeyEqualIffMutuallyCovering` | internal/authority/resolution.go:317-373 | without NUL, two keys are equal exactly when each side covers the other, or one is unscoped and the other's only file is spelled like the empty-scope marker |
| `AuthorityScope.KeyIsTheQuestion` | internal/authority/resolution.go:317-373 | with no such file, exactly when each covers the other |
| `AuthorityScope.NulInConditionCollides` | internal/authority/resolution.go:329-331 | a NUL in a condition gives two questions that do not cover each other one key |
| `AuthorityScope.NulInNameCollides` | internal/authority/resolution.go:317-326 | a NUL in a file name gives two scopes that do not cover each other one key |
| `AuthorityScope.MarkerFileCollides` | internal/authority/resolution.go:317-326 | so does a file spelled like the marker |
| `Derived.RelatedIsContainment` | internal/derived/write.go:173-181 | comparing paths with a slash appended is containment at path boundaries |
| `Derived.IdentityIgnoresProvenance` | internal/derived/write.go:71-103 | who wrote a question, when and why is no part of its identity |
| `Derived.IdentityIsTheQuestion` | internal/derived/write.go:71-103 | two recipes in lower case whose terms hold no separator have one identity exactly when they are of one kind and ask about the same things, with the same paths in any order |
| `Derived.SeparatorCollides` | internal/derived/write.go:71-103 | a separator inside a term gives two different questions one identity |
| `Derived.CleanIs` | internal/derived/write.go:105 | cleaning takes off white space, then slashes, at both ends only |
| `Derived.RecordableIs` | internal/derived/write.go:118-161 | a question may be recorded exactly when it has every term of its kind, every path is relative with no part but the last ending in two dots, and its directory, or else its owner, contains or lies in that of a file of the region |
| `Derived.RecordedClimbsAtTheEndOnly` | internal/derived/write.go:146-152 | no recorded path has a part `..`, unless it is the last one |
| `Derived.DotsAtTheEndAreRecorded` | internal/derived/write.go:146-152 | any question that may be recorded may be with the path `..` added to those it searches |
| `Derived.RecipeFile.Append` | internal/derived/write.go:189-237 | refused, not read, already asked, added at the end or not written, for every state of the file and every way its write may end; what is added is the question as asked, with its provenance and a time; the file's other contents stay |
| `Derived.AppendsKeepTheRecord` | internal/derived/write.go:189-237 | after any sequence of appends the file can be read if and only if no write stopped short, and then the earlier entries are a prefix, no identity occurs twice if none did, and the rest of the file is unchanged |
| `Derived.AppendIsForTheFuture` | internal/derived/write.go:189-260 | a recorded question counts for every task but the one that wrote it |
| `Derived.FutureOnly` | internal/derived/write.go:239-260 | for any deterministic revalidator no run of appends by a task that leaves the file readable changes that task's own anchors |
| `Derived.ExcludingTask` | internal/derived/write.go:248-260 | the loop drops exactly the entries the task wrote, keeping the order |
| `Derived.AnchorsFor` | internal/derived/derived.go:330-350 | one result per recipe, and the anchors of those that derived |
| `Derived.AnchorsAreDerived` | internal/derived/derived.go:330-350 | an anchor is returned exactly when some recipe derived it |
| `Derived.CoveredIs` | internal/derived/derived.go:354-372 | a file is covered exactly by an anchor of the same world that lists it, and in no world by none |
| `Derived.CoveredFiles` | internal/derived/derived.go:354-372 | the planned files are split into two sorted lists, covered and not, each as often as planned |
| `Derived.CoverageDetermined` | internal/derived/derived.go:354-372 | there is only one such split, so equal anchors give equal coverage |
| `Derived.OwnAppendsKeepCoverage` | internal/derived/derived.go:354-372 | what a task's plan counts as covered and as uncovered is the same list before and after any run of its own appends that leaves the file readable |
| `Citation.ReadsExactlyCitations` | internal/answerer/answerer.go:410-446 | at each position the greedy scanner reads a citation exactly when one of the grammars has one starting there, and what it reads is one |
| `Citation.CitationArtifact` | internal/answerer/answerer.go:410-446 | empty exactly when no position starts a citation, else the contiguous text of a citation at the leftmost such position, with no index out of range |
| `Citation.CitationIs` | internal/answerer/answerer.go:404-446 | a citation is a text of one of the four written forms, wherever it stands |
| `Citation.DigitRunFrom` | internal/answerer/answerer.go:456-462 | the whole run of digits |
| `Citation.LetterRunFrom` | internal/answerer/answerer.go:464-470 | the whole run of letters |
| `Mailbox.ReadState` | internal/answerer/mailbox.go:84-111 | one pass over the comments finds exactly the standing requests, in order, the replies, the withdrawals, the last request of each task and the misrouted ones |
| `Mailbox.AdvanceDescribes` | internal/answerer/mailbox.go:84-111 | one comment more keeps that description |
| `Mailbox.LastForTaskGrows` | internal/answerer/mailbox.go:100-111 | which request is last for its task, after one comment more |
| `Mailbox.IsLive` | internal/answerer/mailbox.go:116-134 | live exactly when the listing shows the request present unchanged, unanswered, not withdrawn and last for its task |
| `Mailbox.IsAnswered` | internal/answerer/mailbox.go:138-145 | answered exactly when some reply of the responder answers it |
| `Mailbox.LiveIs` | internal/answerer/mailbox.go:116-145 | live means: a comment of the requester asks it, in the same bytes, for the one role whose parser accepts them; no reply of the responder answers it; the requester did not withdraw it; and no later request is for its task |
| `Mailbox.MisroutedIs` | internal/answerer/mailbox.go:84-111 | misrouted is what asks for another mailbox |
| `Mailbox.List` | internal/answerer/mailbox.go:187-209 | while others only add comments, the listing is the whole conversation in order as of its last page, or an error, never a shorter list; a still one is listed whole exactly when it has fewer than 20000 comments and every page is read |
| `Mailbox.DeletionHidesAComment` | internal/answerer/mailbox.go:190-209 | a comment deleted between two pages hides another one that is still in the conversation |
| `Answerer.ProtocolViolation` | internal/answerer/answerer.go:388-398 | refused exactly when some line opens with the envelope namespace or a citation occurs |
| `Answerer.Prepare` | internal/answerer/answerer.go:300-377 | a body is ready exactly when the output is clean and conforms and its rendered reply is bound to the request and within size |
| `Answerer.SendableIs` | internal/answerer/answerer.go:300-377 | a body may be sent exactly when the words are clean, satisfy the contract of the role, are rendered to this body as this role's reply, which the bridge takes for its answer, behind a non-empty envelope that a review's request embeds, within 65536 bytes |
| `Answerer.WritesEnvelopeIs` | internal/answerer/answerer.go:388-393 | some line is spaces, tabs, carriage returns and byte-order marks, and then the envelope namespace |
| `Answerer.PostedByItsKind` | internal/answerer/answerer.go:69-100 | in every lawful log, what is posted for a body the architecture parser accepts is the architecture reply to it, of words the architecture contract admits; likewise for a review; nothing is posted for a body both parsers accept, or neither |
| `Answerer.AnsweredIsNotLive` | internal/answerer/answerer.go:330-343 | while a reply to a request body stands in the mailbox, no request with that body is live |
| `Answerer.Answerer.Answer` | internal/answerer/answerer.go:300-356 | the outside sees the model asked once, then, exactly when its words may be sent, one listing, then, exactly when that listing shows the request live, one post of those words; the run goes on exactly when nothing failed and the reply is known to stand |
| `Answerer.Answerer.PostIfLive` | internal/answerer/answerer.go:328-354 | one listing and then at most one post, decided by that listing |
| `Answerer.TurnKeepsOnePerBody` | internal/answerer/answerer.go:328-354 | such a turn never posts for a body to which this process posted before, or to which any process before left an answer |
| `Answerer.Answerer.TryEach` | internal/answerer/answerer.go:286-293 | what the outside sees is a whole turn, model, listing and post, for each live request of the listing in order, up to the first that the run cannot go on past |
| `Answerer.Answerer.Once` | internal/answerer/answerer.go:268-295 | a pass is one listing followed by those turns for what it shows live, and reports exactly the misrouted requests not yet reported; a listing that fails ends the run |
| `Answerer.PassAsksTheLive` | internal/answerer/answerer.go:286-293 | a pass asks the model about nothing but requests its listing shows live, and about all of them when it goes through |
| `Answerer.Answerer.ReportMisrouted` | internal/answerer/answerer.go:280-285 | each misrouted comment is reported once over all passes of a process |
| `Answerer.Answerer.Run` | internal/answerer/answerer.go:242-265 | a run is passes of this form, none after one that failed; with anything arriving at any step, the outside sees at most one post per request body, each right after a listing, read after the model spoke those words, that shows its request live |
| `Answerer.Restarts` | internal/answerer/answerer.go:239-265 | over any sequence of processes, each starting with nothing but the mailbox, that stays so within each, and no process posts for a body to which an earlier one left an answer |
| `Answerer.AtMostOneReply` | internal/answerer/answerer.go:328-354 | so over all processes at most one post leaves a comment of the responder that answers one request body, and no post for that body follows it |
| `Rendezvous.AtMostOneValue` | internal/control/rendezvous.go:110-215 | over all interleavings at most one value ever enters a turn's two channels, and nothing replaces it |
| `Rendezvous.SendFindsRoom` | internal/control/rendezvous.go:179-180 | the send under the lock meets two empty channels, so it never blocks |
| `Rendezvous.SuccessIsTheAskedParty` | internal/control/rendezvous.go:152-182 | a submission succeeds exactly when the turn is open, unconsumed and unexpired and the principal, session and role are those recorded |
| `Rendezvous.RefusalsTell` | internal/control/rendezvous.go:152-182 | no such turn, consumed and expired are each told exactly when they are so, in this order |
| `Rendezvous.AnswerWaits` | internal/control/rendezvous.go:65-75 | an accepted answer stays in its channel, beside an empty failure channel, until the runner takes it |
| `Rendezvous.ClosedIsRemembered` | internal/control/rendezvous.go:130-143 | a remembered turn stays remembered while no Close finds it older than ten minutes |
| `Rendezvous.AbandonedThenClosedReadsAsAnswered` | internal/control/rendezvous.go:130-143 | an abandoned turn is remembered too: a later submission is told the turn was consumed |
| `Rendezvous.StepIsLater` | internal/control/rendezvous.go:110-215 | no critical section alters a turn's record, takes back a value or reopens a turn |
| `Rendezvous.Registry.OpenTurn` | internal/control/rendezvous.go:110-125 | registers a fresh turn with two empty channels; the party that was asked can answer it at each time before now plus the time to live, and at none from then on |
| `Rendezvous.Registry.CloseTurn` | internal/control/rendezvous.go:130-143 | removes the turn and no other, remembers it if consumed, and forgets exactly the memories older than ten minutes, in any map order |
| `Rendezvous.Registry.SubmitAnswer` | internal/control/rendezvous.go:152-182 | the verdict and the new registry are those of the atomic step |
| `Rendezvous.Registry.AbandonTurn` | internal/control/rendezvous.go:186-198 | wakes an open unconsumed turn and leaves every other alone |
| `Rendezvous.Registry.AbandonSession` | internal/control/rendezvous.go:202-215 | with anything happening between its lock holds, all the call does is abandon each listed turn once with this cause; it wakes, with the cause, exactly the listed turns whose waiting nobody else ended first, so its count is the number woken if and only if nobody did; no listed turn waits afterwards |
| `Rendezvous.LostIsByAnEntry` | internal/control/rendezvous.go:202-215 | a listed turn is missed by the call exactly when some critical section of another goroutine ended its waiting |
| `Rendezvous.CountIsOnlyABound` | internal/control/rendezvous.go:202-215 | a submission between the two phases leaves one turn counted and none woken |
| `Rendezvous.AbandonedIsSettled` | internal/control/rendezvous.go:186-198 | an abandoned turn is consumed or closed from then on, in any run |
| `Rendezvous.Registry.Waiting` | internal/control/rendezvous.go:219-234 | exactly the open, unconsumed, unexpired turns of the task |
| `LocalObjective.TokenSpentLast` | cmd/sensei-code/proposal.go:172-218 | a receipt has one connection behind it, on which the peer was authorised, each end accepted the other's protocol and the precheck passed, in this order, before the token was spent |
| `LocalObjective.SentAtMostOnce` | cmd/sensei-code/proposal.go:214-226 | over the whole history a proposal's objective is sent at most once |
| `LocalObjective.BeginGrants` | internal/ghwebhook/proposal.go:316-345 | the token is granted exactly for a nonce that is not blank, a proposal that checks out, no receipt yet and a write that is done; a crashed write spends it too |
| `LocalObjective.CompleteIsOfTheAttempt` | internal/ghwebhook/proposal.go:349-377 | a completion succeeds exactly for the attempt on record, its nonce and its proposal's digest, with a task and a provenance, and records these trimmed; for any other nonce nothing changes |
| `LocalObjective.AcceptedCompletes` | cmd/sensei-code/proposal.go:226-232 | in every reachable world an approver that was told of a task holds the attempt on record, so its completion succeeds when a provenance came with the task and the write is done |
| `LocalObjective.OneTaskPerConnection` | internal/control/local.go:228-328 | each connection creates at most one task, for an authorised peer, whose objective is exactly what was said on it: for a proposal, the stored bytes, sent before, whose digest the receipt holds |
| `LocalObjective.ReceiptNamesTheTask` | internal/ghwebhook/proposal.go:349-377 | a completed receipt names the task the server created for that proposal |
| `LocalObjective.RefusedBeforeTheTokenSpendsNothing` | cmd/sensei-code/proposal.go:180-213 | attempts that all stopped before the token leave no receipt |
| `LocalObjective.DifferentProtocolsSpendNothing` | internal/control/local.go:366-417 | ends that speak different protocols part before the client is authorised |
| `LocalObjective.SendingSpends` | cmd/sensei-code/proposal.go:214-226 | whatever objective an approving client puts on the wire is the stored one, and its token was spent before |
| `LocalObjective.SpentIsRefused` | internal/ghwebhook/proposal.go:334-340 | a spent proposal is refused: nothing is written, and the connection can send nothing any more |
| `LocalObjective.StepKeepsInv` | internal/control/local.go:228-485 | every step of either end, the store or the network keeps the log of every connection a beginning of the one safe order |
| `LocalApproval.ServeLocalConn` | internal/control/local.go:228-328 | the handler's replies and submissions are those of the server's moves; it submits a well-formed non-blank objective that nothing trails, of the owner's own process at a terminal and no descendant, in a new enough protocol; a second value, another user, a descendant or a peer without a terminal submits nothing |
| `LocalApproval.ServedIs` | internal/control/local.go:228-328 | the server's three moves, as the replies they send |
| `LocalApproval.DialLocalObjective` | internal/control/local.go:366-417 | greets on one new connection and hands it over exactly when the first reply said ready, without an error, in a new enough protocol; otherwise closes it |
| `LocalApproval.LocalConnection.Submit` | internal/control/local.go:436-485 | one objective per connection, judged trimmed and sent as it is; success exactly when the reply that came back names a task |
| `LocalApproval.ProposalStore.BeginApproval` | internal/ghwebhook/proposal.go:316-345 | grants once, exactly then; the receipt is created exclusively with the digest and the trimmed nonce, a failed write may or may not have left it, and no other receipt changes |
| `LocalApproval.ProposalStore.CompleteApproval` | internal/ghwebhook/proposal.go:349-377 | succeeds exactly for the attempt with this nonce at this proposal, with a task and a provenance and a write that is done; then the receipt has exactly these, trimmed; any other nonce changes nothing |
| `LocalApproval.ApproveObjectiveProposal` | cmd/sensei-code/proposal.go:172-239 | whatever others do in between, what this process does is the beginning of hello, readiness, precheck, token, objective, answer, receipt on one connection, which it then closes; it stops early only for the reason given, and after an answer that names a task it succeeds exactly when a provenance came with it and the last write is done |
| `LocalApproval.ObtainGrant` | cmd/sensei-code/proposal.go:194-217 | precheck, nonce and token in this order, each only after the one before it succeeded |
| `LocalApproval.SubmitApproved` | cmd/sensei-code/proposal.go:219-232 | from a spent token on: the stored objective goes out once, and an acceptance that names a task is recorded exactly when it came with a provenance and the write is done |
| `LocalApproval.OthersKeepClient` | internal/control/local.go:436-485 | no run of anybody else changes what a client holds of its connection |
| `LocalApproval.MachineIsReachable` | cmd/sensei-code/proposal.go:172-239 | what the approving code reaches is a state of the world of all connections, so that every property of those states holds of it |
| `LocalApproval.ClosingBracketIsNotTrailing` | internal/control/local.go:299-305 | an objective followed by text that begins with a closing brace or bracket is accepted like one that nothing follows |
| `Bus.RunsAreSafe` | internal/event/bus.go:25-78 | over every interleaving of publishers, subscribers and cancels no send reaches a closed channel and none is closed twice |
| `Bus.DeliveriesAndDropsAddUp` | internal/event/bus.go:68-85 | deliveries plus Dropped equal the sum of subscriber counts over all publishes |
| `Bus.UngrownCountMeansComplete` | internal/event/bus.go:80-85 | if Dropped did not grow since a subscription, received plus buffered events are all events published since, each once, and in order when publishes did not overlap |
| `Bus.UngrownSinceSubscribing` | internal/event/bus.go:25-85 | the same of any run that begins with a subscription, whose capacity is what it asked for and one at least |
| `Bus.NextKeepsDelivering` | internal/event/bus.go:25-78 | each publish due to a subscriber is at every moment in exactly one place: got, missed or still owed |
| `Bus.EventBus.SubscribeChannel` | internal/event/bus.go:25-35 | a fresh open channel of at least one slot |
| `Bus.EventBus.CancelSubscription` | internal/event/bus.go:36-43 | closes and removes once, any number of calls later |
| `Bus.EventBus.Publish` | internal/event/bus.go:68-78 | in whatever order subscribers are visited, each with room has the event at its end, each without is counted, and nothing else changes |
| `Forwarder.TakenIsForwarded` | cmd/sensei-code/run.go:247-290 | in every interleaving what was taken is what was forwarded, in order, plus at most one event, and nobody else saw it |
| `Forwarder.EndedStreamIsWhole` | cmd/sensei-code/run.go:259-290 | with no halt and no stop a closed stream carried everything that was there when the invocation ended |
| `Forwarder.StoppedTakesNothing` | cmd/sensei-code/run.go:286-289 | after the exit that stop waits for, nothing more is taken or forwarded |
| `Forwarder.StopReturns` | cmd/sensei-code/run.go:263-289 | once stopped the forwarder always has a step and each one brings the exit closer, so stop does not hang on a consumer that left |
| `SettleLoop.OutcomeIgnoresOthers` | cmd/sensei-code/run.go:374-454 | exit code and engine calls are those of the stream without other tasks' events, whenever the deadline comes |
| `SettleLoop.EveryQuestionIsAccountedFor` | cmd/sensei-code/run.go:426-447 | at most one answer is delivered, it is the person's, and every other question read before the ending or the deadline is offered for deferral exactly once |
| `SettleLoop.UnofferedAnswerIsNeverGiven` | cmd/sensei-code/resume.go:233-248 | an answer no question offers never reaches the engine |
| `SettleLoop.OfferedAnswerIsGiven` | cmd/sensei-code/resume.go:204-229 | whenever a question before the ending offers the person's option, the engine is called with it |
| `SettleLoop.TheEngineDecidesTheEnding` | cmd/sensei-code/run.go:464-495 | the first ending the engine emits decides the code, whenever the deadline is noticed; a stop reads as awaiting authority exactly when an earlier deferral was accepted; no ending is failed on a closed stream and timed out after a deadline |
| `SettleLoop.EachEndingHasItsCode` | cmd/sensei-code/run.go:464-495 | the code is that of the first own ending, whatever was deferred; for a stop it is awaiting authority exactly when a deferral was accepted, and stopped otherwise |
| `SettleLoop.ZeroMeansCompleted` | cmd/sensei-code/run.go:464-468 | the exit code is 0 exactly when the first own ending is a completion |
| `SettleLoop.OnlyAStopSharesItsCode` | cmd/sensei-code/run.go:464-495 | two endings of different kinds share a code only if one is a stop and the other awaits authority |
| `SettleLoop.NoEndingNoSuccess` | cmd/sensei-code/run.go:346-412 | without an own ending a stream that closes has failed and a deadline has timed out |
| `SettleLoop.HumanAnswer.AnswerAuthority` | cmd/sensei-code/resume.go:204-229 | answered exactly when not spent, the live question offers the option and the engine takes it; spent only then |
| `SettleLoop.HumanAnswer.LiveQuestionOffers` | cmd/sensei-code/resume.go:233-248 | an unreadable payload offers nothing |
| `SettleLoop.DrainUntilTerminal` | cmd/sensei-code/run.go:346-371 | the code of the first own ending, or a time-out |
| `SettleLoop.StreamUntilSettled` | cmd/sensei-code/run.go:374-454 | the loop's code and calls are the outcome those theorems are about |
| `Settlement.UnsettledStreamHadNoEnding` | cmd/sensei-code/run.go:225-235 | a stream that closed unsettled, without halt or stop, carried no ending that had entered the subscription when the invocation ended |
| `Settlement.ForwardingKeepsTheEnding` | cmd/sensei-code/run.go:225-235 | the consumer settles as it would have on everything that ever arrived |
| `Settlement.PublishedEndingIsRead` | cmd/sensei-code/run.go:237-246 | without halt or stop the consumer reads the ending published before the invocation ended if and only if one published while the subscription stood was not dropped, whatever arrives later; if Dropped has not grown since subscribing, none was |
| `Settlement.EndingEntersUnlessMissed` | internal/event/bus.go:68-85 | an ending enters the subscription exactly unless each one published was dropped for want of room |
| `Settlement.FullBufferLosesTheEnding` | cmd/sensei-code/run.go:259-285 | for a subscription of any capacity, the 512 of every invocation included: when as many events that are no ending precede it and nobody reads, the published ending is dropped, the invocation ends, all that entered is read, and the exit code is failed |

## Left out

- HTTP, Unix sockets, git, process launching, flock and file system calls: only their effect is modelled (an exclusive lock, an atomic replace, a request and its reply, a listing).
- JSON: assumed to round-trip the modelled values; `sameJSON` is equality, and a message that does not decode is one case.
- The platforms without a cross-process lock, where no confined execution is bound to a record.
- `candidate.List` and `Render`, the CLI around every core, banners, rendering and help text.
- CandidateCopies.BaseIsImmutable: needs establishments of one task to overlap at one head only, because the code does not serialize them; `CandidateCopies.BaseStaysIff` says for every run when the base stays.
- EvidenceBuild.Index.Build: says whether a stream has a problem, not the wording of `Problem`.
- `discover`, `openLog` and the record extraction of `cmd/corpus/main.go`: they only carry the listing to the index and the files back; the directory prefix put before each file is not modelled.
- `sort.Slice` and `sort.Strings` are insertion sorts here; nothing relies on more than a sorted permutation.
- Strings are sequences of characters, bytes in `Citation` and `Answerer`.
- `strings.ToLower`, `filepath.Dir`, `strings.EqualFold`, SHA-256 digests, revalidators, model calls, validators and the bridge's callbacks are arbitrary functions or arbitrary answers.
- Mailbox.List: others may add comments between two pages of one listing, not edit or delete them; `Mailbox.DeletionHidesAComment` shows what a deletion does.
- Answerer.Answerer.Run: assumes that nobody but the responder removes the responder's replies and that no comment is deleted while one listing is read; a post lands before its call ends or never. The lock file that keeps a second process out is not modelled.
- Answerer.Restarts: takes all processes to be configured alike, and one to start only when the one before has ended.
- `subjectFiles`, which cleans names as scopes are cleaned, and the CLI revalidator.
- Rendezvous.AnswerWaits: an accepted answer may still be missed by a runner that timed out; nothing is claimed about what the runner does with it.
- LocalObjective.StepKeepsInv: a connection's deadline and the bound on a message are steps that may happen at any time, not clock readings or byte counts; the direct submission command is one of the strangers, which may say anything.
- A proposal file altered on disk after it was recorded.
- Rendezvous.Registry.Waiting: a set, because the source's list has the order of a Go map.
- The bus: subscriber ids and the drop counter do not wrap around.
- SettleLoop.StreamUntilSettled: not what is printed, nor how long the grace is; where the deadline and the grace fall in the stream is arbitrary.
- `selectAuthorityResume`, `loadContainment`, `admitLegacyAnswer` and the other selectors of `cmd/sensei-code/resume.go`: pure choices over one record, without state or loops that matter.
- `Persist` and its classification of failures in `internal/authority/resolution.go`: a call whose error text is looked up in a table.
