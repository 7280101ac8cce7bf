# SANE recovery protocols, verified

This project models the parts of SANE that have to be right when an outcome is unknown: a request whose
answer was lost, a page that was reloaded, a tab that died between two writes, a plugin that crashed
between two awaits. For each it proves that nothing is lost, repeated or overwritten, or says exactly
when that fails.

Every protocol is written twice. Pure functions on values say what one stretch of code between two awaits
does; classes with the source's own fields do the same step by step. Their methods compute what the function
says, keep the object valid, and promise their caller what becomes of the user's text, of the locks, of what
is queued or of what waits to be saved. What the source promises is proved about the functions, over whole
runs in which the environment picks every interleaving, failure and crash.

| module | what it models |
|---|---|
| `AsideProtocol` | the draft owner of asides: reads, edits, saves, lifecycle changes, creation, storage |
| `AsideInvariants`, `AsideRuns` | what every step keeps; runs of suspended calls; the mutation locks |
| `AsidePersistence`, `AsideRecovery` | crashes; unsaved text, operations and creations over whole runs |
| `AsideProvenance`, `AsideServer` | the owner against a revision-checked, request-idempotent server |
| `AsideShows`, `AsideSends`, `AsideStored` | what the user sees, what is sent and what is stored after each stretch of the owner's code, field by field |
| `AsideProgress` | ways out of every state that an aside can get into |
| `AsideFreshness` | stale marks against listed revisions |
| `AsideRoute`, `AsideStore` | one request on its way through the server behind it, with every refusal and its code; and what the store makes of it |
| `AsideRejection`, `AsideDoubt`, `AsideFinality` | definite rejections, unknown outcomes, and what the owner can know when a request is rejected |
| `AsideReachable` | rejections in doubt, reached from a new page |
| `AsideCreation` | creations against a server that replays their receipts |
| `AsideReplacement`, `AsideCreationFinality`, `AsideCreationReachable` | replacing a rejected creation: what may still be made, what the owner can know, and doubt reached from a new page |
| `AsideCalls`, `AsideSession`, `AsidePage` | the owner as the object it is; a page that calls it and hands it the answers |
| `AdmissionRecovery` | settlement of one admission record as a join |
| `AdmissionLedger`, `AdmissionLedgerSafety`, `AdmissionLedgerRuns`, `AdmissionLedgerBudget` | the ledger that tabs share: plans, exclusion, survival, budget |
| `AdmissionEvidence`, `AdmissionLedgerRetention`, `AdmissionLedgerAnswers` | which evidence counts, what may be given up, and what each operation answers |
| `AppAdmissionLedger` | one tab's ledger object with its cache, over shared storage |
| `CompactionWindow`, `CompactionRuns`, `CompactionContext` | restoring recorded context after a compaction |
| `CompactionDispatch`, `CompactionMeaning` | which requests of a compacted session are sent; what a configuration and a crash change; how texts are divided |
| `ExecutionBinding`, `ExecutionOperations`, `ExecutionPolicy` | binding a native session to an execution; permissions; the ancestry walk |
| `ExecutionSurvivors` | configurations that outlive a reload of the plugin |
| `ExecutionMeaning` | a configuration from its beginning to its end, await by await |
| `DemoJournal`, `DemoJournalOwner` | the demo journal, its failures and its strict reader |
| `DemoJournalBinding` | what a complete journal holds together, and what its owner refuses |
| `CanonicalJson`, `CanonicalText` | the canonical text by which the journal compares values, and what it looks like |
| `PathToken` | `@path` insertion and parsing |
| `PathMeaning` | safe paths as lists of names, tokens as what they ask for |
| `InputQueue`, `HostBrowser` | coalescing of host browser input; tab states, frames and readiness |
| `InputDelivery`, `HostBrowserMeaning` | when input is delivered or dropped; what each message does to a viewer |
| `CatalogStore`, `CatalogNavigation`, `CatalogOperations` | hydration and bookmark saving; which navigations are sent; the store as the object it is |
| `CatalogMeaning` | what each response does to the store |

Awaits are step boundaries: a suspended call is a task, and a run is any sequence of calls and answers.
The clock, random identities, the network, browser storage, the file system and SHA-256 are parameters of
the steps. Fresh identities are unused ones; digests are injective; the Web Lock makes one ledger operation
at a time.

## Where the code falls short of its promise

Each of these is a proved fact, with a concrete input and with the exact condition beside it.

* A definite rejection of an aside save is treated as final, but an earlier attempt whose answer was lost
  may still arrive and be committed afterwards (`AsideRejection.RejectionIsNotAlwaysFinal`); and if storage
  refuses the write that drops the operation, the next page brings it back, and even the only attempt of a
  request may be repeated and committed (`AsideRejection.FirstRejectionIsNotAlwaysFinal`). Exactly when, seen
  from outside: `AsideRejection.RejectionIsFinalIff`; for a first attempt:
  `AsideFinality.FirstRejectionIsFinalIff`; as far as the owner can see: `AsideFinality.RejectionInDoubtIff` and
  `AsideReachable.DoubtIsReachedIff`.
  A conflict answer is always final (`AsideServer.ConflictIsFinal`).
* A creation may be replaced once it was definitely rejected, but an earlier attempt of it whose answer was
  lost may still arrive, and then the aside is there twice (`AsideReplacement.DefinitelyRejectedAndMade`); and
  if storage refuses the writes, the next page brings the replaced creation back and sends it again, so that
  even one that was rejected at its only attempt is made (`AsideReplacement.RejectedOnceAndMade`). Exactly when,
  seen from outside: `AsideReplacement.MayBeMadeIff`; after the rejection of a first attempt:
  `AsideCreationFinality.FirstRejectionIsFinalIff`; as far as the owner can see:
  `AsideCreationFinality.ReplacedInDoubtIff` and `AsideCreationReachable.DoubtIsReachedIff`.
* The ledger hands an absent lookup on under the whole envelope, which is not the shape of a key, so
  settling a request that nothing is known about is always refused (`AdmissionLedgerBudget.AbsenceIsRefused`;
  exactly when it is accepted: `AdmissionLedgerBudget.RelayedTakenInIff`).
* A record that was reserved already terminal and still uncertain takes one byte more when it is settled
  (`AdmissionLedgerBudget.DoubtfulGrows`; exactly when: `AdmissionLedgerBudget.SettlingGrowsIff`).
* The context hook looks at readiness only of a session that is bound, and a first configuration binds only
  after its first await. Until then, and after that await failed, an ordinary request goes on although the
  session counts as being configured (`ExecutionBinding.FirstConfigurationIsOpen`; exactly who is let in:
  `ExecutionBinding.LetInIff`; exactly how long: `ExecutionBinding.OrdinaryLetInIff`).
* A native request that passed the first check of the context hook goes on while its binding is being
  reconfigured (`ExecutionBinding.OvertakenPasses`; exactly when it goes on under its own binding:
  `ExecutionBinding.PassesUnderItsOwnIff`).
* Nothing in the plugin ends a configuration that is suspended when the plugin is loaded again. Unless the
  host aborts it, it may store its ready binding after the session was configured anew
  (`ExecutionSurvivors.OldCallOverwrites`; exactly which steps disturb: `ExecutionSurvivors.SoundIff`; without
  one nothing is wrong, and after one something is: `ExecutionSurvivors.ReadyUnlessDisturbed` and
  `ExecutionSurvivors.DisturbedGoesWrong`).
* A frame is drawn, and opens the input, for any document of its generation: when the page navigates while a
  frame of the old document is in hand, the old picture counts as ready
  (`HostBrowser.OldPictureCountsAsReady`; exactly when: `HostBrowser.SoundIff` and `HostBrowser.GoesWrongIff`).
* With the caret behind the closing quote, a quoted path that ends in a space and an `@` is not found again
  (`PathToken.BehindTheQuoteIsNotAlways`; exactly when: `PathToken.BehindTheQuote`).
* Any failed bookmark save, not only a conflict, gives up a newer navigation that waits
  (`CatalogNavigation.FailureLosesNavigation`; exactly when: `CatalogNavigation.NewestIsKeptIff`).
* A navigation made before a hydration starts is left waiting by that hydration, and is never sent
  (`CatalogNavigation.RiskyGetsStuck`; exactly when: `CatalogNavigation.StuckIff` and
  `CatalogNavigation.SentIff`).

## Model

| member | source | states |
|---|---|---|
| AsideProtocol.ErrorResponse | packages/sane-app/frontend/aside-client.ts:120-138 | only the listed status and code pairs prove that nothing was committed; lost access, server failures and interrupted requests leave the outcome unknown, and one pair is a conflict |
| AsideRoute.DefiniteWasNotDone | packages/sane-app/src/aside-routes.ts:45-88 | whatever stage of route, service and store refuses a request, and whenever access is lost meanwhile: an answer that the owner takes for a proof is one, the request was not done, at this attempt or before |
| AsideRoute.DefiniteIff | packages/sane-app/frontend/aside-client.ts:120-138 | and it takes for one exactly the refusals of the request, its aside, its source or the budget that are told, and for a conflict exactly another request than the one done under its identity or than the aside allows now |
| AsideRuns.StepKeeps | packages/sane-app/frontend/aside-client.ts:338-562 | for every aside and every move: well-formedness, dirty exactly if the text differs from the record, records and references never fall back, pinned text changes only by an edit or an explicit reload, a conflict ends only by an explicit reload, an operation keeps its payload until acknowledged or definitely rejected |
| AsideRuns.StepInv | packages/sane-app/frontend/aside-client.ts:257-562 | every move, a crash included, keeps all asides well formed, everything in storage acceptable to the next page, every mutation lock with exactly one holder that owns the shown operation, and at most one creation in flight |
| AsideRuns.RunInv | packages/sane-app/frontend/aside-client.ts:257-562 | the same over every run |
| AsideRuns.OnlyTheHolderUnlocks | packages/sane-app/frontend/aside-client.ts:509-513 | a move that does not wake the holder of a mutation lock leaves it the lock and its operation: an older call never releases a newer lock |
| AsideInvariants.MergeAt | packages/sane-app/frontend/aside-client.ts:338-367 | taking any admissible record in keeps every aside well formed and gives up no pinned text, conflict or operation, restored entries included; what is shown then is in `AsideShows.NewerShows` and `AsideShows.RestoredShows` |
| AsideInvariants.ReadFinishAt | packages/sane-app/frontend/aside-client.ts:368-390 | a finished read keeps everything, except that an explicit reload of this aside may replace its text |
| AsideInvariants.EditAt | packages/sane-app/frontend/aside-client.ts:416-423 | an edit changes only the text of its own aside, keeps a conflict and an operation, and never lowers the edit counter |
| AsideInvariants.ReconcileAt | packages/sane-app/frontend/aside-client.ts:498-503 | sending again keeps the payload and everything else |
| AsideInvariants.PerformReplyAt | packages/sane-app/frontend/aside-client.ts:509-562 | an answer to a sent operation ends it only if it is a conflict, a definite rejection, or an acknowledgement that contradicts the retained record, and in no case loses text |
| AsideInvariants.FinishAt | packages/sane-app/frontend/aside-client.ts:551-560 | the end of a call retires exactly its own acknowledged operation, and a newer record under unsaved text becomes a conflict |
| AsideInvariants.CreateReplyAt | packages/sane-app/frontend/aside-client.ts:436-476 | an answer to a creation, historical receipts included, never overwrites a draft or a restored entry |
| AsideShows.NewerShows | packages/sane-app/frontend/aside-client.ts:353-366 | under a newer record, a text that nothing local holds is the record's, clean and without a conflict; any other stays, is unsaved exactly if it differs, and becomes a conflict if it was unsaved and is not being sent; operation, edit counter and error stay |
| AsideShows.FollowingIsNotSaved | packages/sane-app/frontend/aside-client.ts:359-366 | so a text that nobody typed is never up for saving over what somebody else saved |
| AsideShows.OlderShows | packages/sane-app/frontend/aside-client.ts:353-358 | a record that is no newer changes nothing that is shown, and is refused exactly if it contradicts what is known of its revision |
| AsideShows.UnknownShows | packages/sane-app/frontend/aside-client.ts:363-366 | the first record of an aside shows as it is |
| AsideShows.RestoredShows | packages/sane-app/frontend/aside-client.ts:340-350 | the record of an aside that storage brought back is refused exactly if it predates it or contradicts what is known; otherwise what was edited, in conflict or being saved stays, anything else follows the record, and unsaved text that is not being sent is a conflict under a newer one |
| AsideShows.MergeTouches | packages/sane-app/frontend/aside-client.ts:338-367 | a record concerns its own aside alone, and nothing else of the owner |
| AsideShows.MergeLearns | packages/sane-app/frontend/aside-client.ts:338-367 | list and retained reference move to the newest revision seen, and never back |
| AsideShows.ReloadShows | packages/sane-app/frontend/aside-client.ts:377-380 | a reload that may drop the text shows exactly the record, clean, without conflict, operation or error |
| AsideShows.ReadShows | packages/sane-app/frontend/aside-client.ts:381-383 | any other read that is taken in shows what taking in its record does; its mark goes exactly if the record is no older than the shown and the listed one, and the read says whether a mark is left |
| AsideShows.ReloadMarks | packages/sane-app/frontend/aside-client.ts:377-383 | the same of a reload |
| AsideShows.FailedReadShows | packages/sane-app/frontend/aside-client.ts:384-389 | a read that is not taken in changes no text, conflict, operation, mark or lock, and leaves a failed read exactly while access is current |
| AsideShows.ReferenceShows | packages/sane-app/frontend/aside-client.ts:241-251 | a read for a shared reference shows the same, and its failure is nobody's |
| AsideSends.EditExactly | packages/sane-app/frontend/aside-client.ts:416-423 | which text shows after an edit, that it is unsaved exactly if it differs from the record, and which error stays |
| AsideSends.SaveExactly | packages/sane-app/frontend/aside-client.ts:477-486 | a save goes out exactly for unsaved text of an open, current aside without a conflict, an open operation or a request on its way, and carries that text against the shown revision |
| AsideSends.SetLifecycleExactly | packages/sane-app/frontend/aside-client.ts:487-497 | a lifecycle change goes out exactly to another state of an aside that is not discarded, under the same conditions |
| AsideSends.StaleFirst | packages/sane-app/frontend/aside-client.ts:477-488 | of a stale aside nothing is sent before it is read |
| AsideSends.FollowsExactly | packages/sane-app/frontend/aside-client.ts:477-497 | after that read a save follows only if nothing was typed meanwhile, and either only if the read found the aside current |
| AsideSends.ConfirmedShows | packages/sane-app/frontend/aside-client.ts:515-533 | a confirmed request shows its record or the newer one that is known; text that the user has stays, unsaved exactly if it differs, and in conflict exactly if it differs from a newer one |
| AsideSends.FinishExactly | packages/sane-app/frontend/aside-client.ts:553-560 | then exactly its lock and its own operation go, and unsaved text under a record newer than the confirmed one is a conflict |
| AsideSends.UnconfirmedShows | packages/sane-app/frontend/aside-client.ts:534-552 | what each refusal does: a conflict ends the operation, shows a conflict and reads the aside; a definite rejection ends it; anything else leaves it, of unknown outcome; the text stays in all of them |
| AsideSends.ContradictedShows | packages/sane-app/frontend/aside-client.ts:522-538 | a confirmation that contradicts what is known of its revision ends the request and leaves a failed read |
| AsideSends.ListExactly | packages/sane-app/frontend/aside-client.ts:397-415 | a list is taken in exactly if it is of the newest request, of this access, and agrees with every source; it moves each aside to its newest revision and marks exactly those that are newer than what is shown |
| AsideSends.OpenExactly | packages/sane-app/frontend/aside-client.ts:391-396 | opening selects an aside, and reads it exactly if that is asked for or what is shown is missing or stale |
| AsideSends.RefreshExactly | packages/sane-app/frontend/aside-client.ts:397-401 | a request for the list makes every earlier one obsolete, and losing access every read that is on its way |
| AsideStored.CreateExactly | packages/sane-app/frontend/aside-client.ts:424-435 | a creation goes out exactly if the user may create, none is on its way, and the last one, if it is still there, was definitely rejected |
| AsideStored.RetryExactly | packages/sane-app/frontend/aside-client.ts:436-442 | the creation that there is goes out again, unchanged, exactly if it is not on its way |
| AsideStored.NotMadeExactly | packages/sane-app/frontend/aside-client.ts:471-475 | an answer that does not show the aside as it was asked for keeps the creation: replaceable exactly if it was definitely rejected, otherwise of unknown outcome; nothing else that is shown changes |
| AsideStored.MadeExactly | packages/sane-app/frontend/aside-client.ts:451-470 | one that does ends it, shows the aside unless storage had it, selects it unless another one was opened meanwhile, and marks and reads again exactly one that may be an old receipt or is listed as newer |
| AsidePersistence.RestoredDraftIsTheSame | packages/sane-app/frontend/aside-client.ts:257-390 | for any aside among others: its draft is in storage after a publish, a page restored from it accepts it, and the read of its record at its revision gives back the text, the conflict and the operation, now uncertain, and leaves the other asides alone |
| AsidePersistence.CrashKeepsLocal | packages/sane-app/frontend/aside-client.ts:257-321 | a page restored from up-to-date storage has to recover exactly what the old page had |
| AsidePersistence.NewPageOk | packages/sane-app/frontend/aside-client.ts:257-296 | every content of storage, with entries and a creation that are skipped or contradict themselves, starts a run of the invariant, and is up to date |
| AsidePersistence.RestoredCreation | packages/sane-app/frontend/aside-client.ts:281-295 | where storage has the creation that memory has, it comes back with its request, target and text, replaceable exactly if it was no longer in flight and its rejection was definite |
| AsidePersistence.StepDurable | packages/sane-app/frontend/aside-client.ts:297-321 | where storage takes the writes, it is up to date after every move |
| AsideStored.PublishExactly | packages/sane-app/frontend/aside-client.ts:297-321 | what a write to storage puts there: each draft that must not be lost and each entry not shown yet, field by field, with the creation; it is cleared exactly if there is none of these, and a refused write leaves it |
| AsideStored.RestoreExactly | packages/sane-app/frontend/aside-client.ts:257-296 | what a new page takes back from any content: exactly the legible entries, with operations of unknown outcome, and the creation, replaceable exactly if it was known to be definitely rejected |
| AsideRecovery.RunDurable | packages/sane-app/frontend/aside-client.ts:257-321 | the same over every run |
| AsideRecovery.UnsavedTextSurvives | packages/sane-app/frontend/aside-client.ts:338-390 | over any run whose crashes find the unsaved text in storage, text that is dirty, in conflict or being saved is still local, or the server's record has had exactly that text, unless the user typed over it or explicitly reloaded |
| AsideRecovery.CrashKeepsIff | packages/sane-app/frontend/aside-client.ts:257-321 | a crash keeps the unsaved text, and the unresolved operation, exactly if storage has it |
| AsideRecovery.LostOverStaleStorage | packages/sane-app/frontend/aside-client.ts:297-321 | concretely: storage refuses the write of an edit, the page dies, and the text is gone |
| AsideRecovery.WritesBack | packages/sane-app/frontend/aside-client.ts:297-321 | as long as storage takes the writes, every crash finds the text, the operation and the creation in it |
| AsideRecovery.OperationSurvives | packages/sane-app/frontend/aside-client.ts:498-562 | over any run with lost answers, reconciles, and crashes that find it in storage, an unresolved operation keeps its request identity, expected revision and contents until it is retired |
| AsideRecovery.CreationSurvives | packages/sane-app/frontend/aside-client.ts:424-476 | over any run whose crashes find it in storage, a creation of unknown outcome keeps its identity, target and text, and no call replaces it, until it is acknowledged or definitely rejected |
| AsideCreation.NextOk | packages/sane-app/frontend/aside-client.ts:424-476 | one step of owner, server and network keeps: every creation held in memory or storage was issued, every attempt carries what was issued, and every receipt has one aside with what was asked for |
| AsideCreation.CreatedAtMostOnce | packages/sane-app/src/aside-store.ts:232-259 | in every run from a new page each creation makes one aside at most, however often it is retried, restored or answered late, and that aside has the text and target that the user asked for |
| AsideCreation.AcknowledgedWasMade | packages/sane-app/frontend/aside-client.ts:451-468 | a creation is given up as acknowledged only once exactly it was made |
| AsideReplacement.MayBeMadeIff | packages/sane-app/frontend/aside-client.ts:281-435 | in any world, the aside of a creation is made in some continuation exactly if it is made already, or an attempt has yet to arrive, or the owner still has it in memory or storage; so of one that was replaced in memory, exactly if it is made, an attempt is on its way, or storage still has it |
| AsideReplacement.DefinitelyRejectedAndMade | packages/sane-app/frontend/aside-client.ts:424-476 | a concrete run: lost answer, retry, definite rejection, a new creation in its place, and then both are made |
| AsideReplacement.RejectedOnceAndMade | packages/sane-app/frontend/aside-client.ts:297-321 | a concrete run without a lost answer: the only attempt is definitely rejected, storage refuses the writes, a new creation takes its place and is made, the page dies, and the next one sends the first again, which is made too |
| AsideCreationFinality.DoubtNext | packages/sane-app/frontend/aside-client.ts:424-476 | over every step of owner, server and network, an attempt of a creation that shows no failure is the only one, one that shows a failure repeats another, and what was made for the owner was made by an attempt that is answered |
| AsideCreationFinality.FirstRejectionIsFinalIff | packages/sane-app/frontend/aside-client.ts:469-476 | over every run from a new page, a creation whose first attempt was definitely rejected and that is not sent again while the owner has it was not made, and once memory no longer has it, is made in some continuation exactly if storage still has it |
| AsideCreationFinality.ReplacedInDoubtIff | packages/sane-app/frontend/aside-client.ts:424-435 | some world with the same owner makes the rejected and replaced creation afterwards exactly if the rejected attempt was not the first or storage still has the creation |
| AsideCreationReachable.DoubtIsReachedIff | packages/sane-app/frontend/aside-client.ts:281-476 | over every run from a new page, a creation that was definitely rejected and then replaced is in doubt exactly if some run from a new page leads to the same and goes on to make it: the same creation and replacement, rejected at the first attempt or not, with storage having it or not |
| AsideFreshness.StepFresh | packages/sane-app/frontend/aside-client.ts:252-256 | an aside that is listed and not marked stale is held at its listed revision or a newer one, after every move |
| AsideFreshness.RunFresh | packages/sane-app/frontend/aside-client.ts:397-415 | the same over every run |
| AsideFreshness.SendsAreFresh | packages/sane-app/frontend/aside-client.ts:477-497 | a new save or lifecycle change rests on the newest revision listed, unless it waited for a read and the aside was marked stale again after that read ended |
| AsideProvenance.StepFrom | packages/sane-app/frontend/aside-client.ts:338-562 | one move brings in only the record of its answer and the operation it sends, in memory and in storage |
| AsideProvenance.StepSends | packages/sane-app/frontend/aside-client.ts:477-503 | what a move sends is the operation the draft holds, or a new one under a fresh identity against the draft's own revision, with its unsaved text or another state |
| AsideServer.ProcessOk | packages/sane-app/src/aside-store.ts:232-277 | the server commits one request at most once, only at its expected revision, and changes nothing it ever had |
| AsideServer.HopelessStays | packages/sane-app/src/aside-store.ts:261-270 | a request that the server refuses at its revision it refuses forever, whatever others do |
| AsideServer.NextOk | packages/sane-app/frontend/aside-client.ts:477-562 | one step of owner, server, network and other clients keeps: every held record is the server's, every held operation was issued for its aside, every receipt has exactly what was issued |
| AsideServer.FreshPageOk | packages/sane-app/frontend/aside-client.ts:164-175 | a new page without storage is a start of such runs, with any server |
| AsideStore.RequestExactly | packages/sane-app/src/aside-store.ts:261-277 | one request at the store: rejected if there is no aside; answered as before if it was done before, and a conflict if its identity was another's; otherwise done exactly at its revision in a state that allows it, with one more revision and a receipt |
| AsideStore.AgainTheSame | packages/sane-app/src/aside-store.ts:232-238 | a request that comes again is answered the same and does nothing |
| AsideStore.OneWriterWins | packages/sane-app/src/aside-store.ts:261-277 | once a request was done, every other one of its revision is a conflict |
| AsideStore.CreationExactly | packages/sane-app/src/aside-store.ts:239-259 | the same of creations, which make one aside each |
| AsideStore.OthersWrite | packages/sane-app/src/aside-store.ts:261-277 | so it is with what other clients ask for, which changes nothing of the owner or of what is on its way |
| AsideServer.AppliedAtMostOnce | packages/sane-app/frontend/aside-client.ts:498-562 | in every run each request is committed at most once, and then as exactly the revision after the one the user saw, with the user's contents |
| AsideServer.HoldsServerRecords | packages/sane-app/frontend/aside-client.ts:338-390 | every record shown is one that the server had, and no operation rests on a revision it never had |
| AsideServer.NeverInconsistent | packages/sane-app/frontend/aside-client.ts:219-224 | with an honest server no record contradicts the retained one of its revision |
| AsideServer.AcknowledgedWasApplied | packages/sane-app/frontend/aside-client.ts:517-521 | an operation counts as acknowledged only once exactly it was committed |
| AsideServer.ConflictIsFinal | packages/sane-app/frontend/aside-client.ts:540-545 | after a conflict answer the save is never committed, whatever attempt of it is still on its way |
| AsideServer.DroppedMayCommit | packages/sane-app/frontend/aside-client.ts:546-548 | an operation that neither memory nor storage has any more is committed in some continuation exactly if it is committed already, or an attempt has yet to arrive and the server would take it |
| AsideProgress.SaveGetsThrough | packages/sane-app/frontend/aside-client.ts:477-562 | from any world of these runs, unsaved text of an open, current aside that nobody else wrote to can be saved: the server then has exactly that text as its next revision, and the aside shows it with nothing open |
| AsideProgress.ReconcileGetsThrough | packages/sane-app/frontend/aside-client.ts:498-562 | a request of unknown outcome can be sent again and is then over, whether it was done before, is done now, or conflicts |
| AsideProgress.ReloadGetsThrough | packages/sane-app/frontend/aside-client.ts:504-508 | without an open operation a reload brings the server's record, whatever was typed or is in conflict |
| AsideProgress.ReferenceGetsThrough | packages/sane-app/frontend/aside-client.ts:241-251 | an aside that is only referred to can be shown as the server has it, and without access nothing is asked |
| AsideProgress.NeverStuck | packages/sane-app/frontend/aside-client.ts:397-562 | no aside is ever stuck: from any world of these runs, whatever it is in, some continuation brings it back to the server's record, clean, without a conflict, an operation or a lock |
| AsideRejection.RejectionIsFinalIff | packages/sane-app/frontend/aside-client.ts:546-548 | after any definite rejection, whether or not storage takes it in, some continuation has the save committed exactly if it is committed already, or an earlier attempt is on its way to a server that would take it, or storage still has the operation and the server would take it |
| AsideRejection.RejectionIsNotAlwaysFinal | packages/sane-app/frontend/aside-client.ts:120-138 | a concrete run: lost answer, reconcile, definite rejection, and then the first attempt is committed |
| AsideRejection.FirstRejectionIsNotAlwaysFinal | packages/sane-app/frontend/aside-client.ts:297-321 | a concrete run: the only attempt is definitely rejected, storage refuses the write, the page dies, and the next one reconciles the operation, which is committed |
| AsideDoubt.StepSure | packages/sane-app/frontend/aside-client.ts:498-562 | after every move, an operation whose request is not on its way is one of unknown outcome |
| AsideDoubt.RepeatsDoubt | packages/sane-app/frontend/aside-client.ts:498-503 | a reconcile sends only an operation of unknown outcome, and never while its request is on its way |
| AsideFinality.DoubtNext | packages/sane-app/frontend/aside-client.ts:477-562 | over every step of owner, server and network, a request that is sent without doubt is the only attempt of its identity, and one that is sent in doubt repeats another |
| AsideFinality.FirstRejectionIsFinalIff | packages/sane-app/frontend/aside-client.ts:546-548 | over every run from a new page, a request that repeated none and is definitely rejected is committed in some continuation exactly if storage refused to forget it and the server would take it; if storage took the write, the rejection is final |
| AsideFinality.RejectionInDoubtIff | packages/sane-app/frontend/aside-client.ts:546-548 | some world with the same owner commits the rejected request afterwards exactly if the request repeated one of unknown outcome or storage still has it, and the newest record that the owner retains is still the expected one, in a state that allows it |
| AsideReachable.ChangesNext | packages/sane-app/frontend/aside-client.ts:477-497 | over every step, each request that was issued asks for something else than the server's record at its expected revision |
| AsideReachable.DoubtIsReachedIff | packages/sane-app/frontend/aside-client.ts:546-548 | over every run from a new page, a definitely rejected request is in doubt exactly if some run from a new page leads to the same rejection and goes on to commit it: of the same request, first attempt or not, resting on the same newest record, with storage having it or not |
| AsideSession.AsideSession.constructor | packages/sane-app/frontend/aside-client.ts:257-296 | a new owner has exactly what storage holds and accepts, is valid, and has storage up to date |
| AsideCalls.CallKeeps | packages/sane-app/frontend/aside-client.ts:391-508 | any call keeps every aside valid, current and locked as it was, keeps everything the owner holds of each, but for the text that an edit is for, and leaves storage up to date where it takes the write |
| AsideCalls.WakeKeeps | packages/sane-app/frontend/aside-client.ts:338-562 | any answer to a suspended call does too, but for what the answer licenses: a reload that drops text, or the end of an operation |
| AsideCalls.PublishMeans | packages/sane-app/frontend/aside-client.ts:297-321 | whatever is written, the next page has of every aside exactly what this one had to recover |
| AsideCalls.ConfirmMeans | packages/sane-app/frontend/aside-client.ts:252-256 | a stale mark goes only from the aside that was read, held at its listed revision, so what is listed and not marked stays current |
| AsideCalls.FinishMeans | packages/sane-app/frontend/aside-client.ts:552-560 | the end of an acknowledged operation releases exactly its lock and retires exactly its operation, and keeps the text, the record and every other aside |
| AsideSession.AsideSession.RetainReference | packages/sane-app/frontend/aside-client.ts:219-224 | the newest record is retained; two contents of one revision are refused and change nothing |
| AsideSession.AsideSession.Merge | packages/sane-app/frontend/aside-client.ts:338-367 | the whole new state and whether it threw, for restored, new, older, same and newer records; a text that nothing local holds follows a newer record and is clean |
| AsideSession.AsideSession.ReadFinish | packages/sane-app/frontend/aside-client.ts:368-390 | the whole new state and the answer of a read; nothing is given up but the text of this aside, and only by a reload that may drop it |
| AsideSession.AsideSession.Edit | packages/sane-app/frontend/aside-client.ts:416-423 | the text shows exactly if the edit is allowed, the aside is open and the text valid; every other aside, and every operation and conflict, stays |
| AsideSession.AsideSession.Save | packages/sane-app/frontend/aside-client.ts:477-486 | a save that goes out takes a free lock, shows its operation, carries the text and revision of the draft, and rests on no superseded revision; a stale aside is read first and nothing else changes |
| AsideSession.AsideSession.SetLifecycle | packages/sane-app/frontend/aside-client.ts:487-497 | the same for a change of lifecycle |
| AsideSession.AsideSession.Reconcile | packages/sane-app/frontend/aside-client.ts:498-503 | what goes out is exactly the operation that the draft held, of unknown outcome, under a free lock |
| AsideSession.AsideSession.Reload | packages/sane-app/frontend/aside-client.ts:504-508 | a read that may drop text starts exactly if no operation is unresolved |
| AsideSession.AsideSession.PerformReply | packages/sane-app/frontend/aside-client.ts:515-562 | the whole new state for every answer; nothing is given up but the operation, and only by an answer that retires it |
| AsideSession.AsideSession.Resume | packages/sane-app/frontend/aside-client.ts:477-497 | what a save or lifecycle change does after its read keeps everything, but for the operation that an acknowledgement retires |
| AsideSession.AsideSession.Open | packages/sane-app/frontend/aside-client.ts:391-396 | no draft changes, and an aside that is opened without a read is held at its listed revision |
| AsideSession.AsideSession.ListReply | packages/sane-app/frontend/aside-client.ts:397-415 | a current, valid list marks what is newer stale and moves summaries forward; any other changes nothing shown; nothing held is given up |
| AsideSession.AsideSession.Summaries | packages/sane-app/frontend/aside-client.ts:326-330 | the merged summaries hold each aside once, at the newer of the known and listed revision |
| AsideSession.AsideSession.MarkStale | packages/sane-app/frontend/aside-client.ts:409-409 | exactly the listed asides that are newer than their draft become stale |
| AsideSession.AsideSession.ReferenceReply | packages/sane-app/frontend/aside-client.ts:241-251 | a shared reference read is merged, if access is still current, and gives nothing up |
| AsideSession.AsideSession.Create | packages/sane-app/frontend/aside-client.ts:424-435 | a creation goes out exactly if it may and its text is valid, as the only one in flight and the one that is kept for recovery; otherwise the pending one stays |
| AsideSession.AsideSession.RetryCreate | packages/sane-app/frontend/aside-client.ts:436-443 | the pending creation goes out again with its identity, target and text, exactly if none is in flight |
| AsideSession.AsideSession.CreateReply | packages/sane-app/frontend/aside-client.ts:451-475 | the whole new state, for a fresh and a historical acknowledgement and every failure; no aside gives anything up |
| AsidePage.Page.Handle | packages/sane-app/frontend/aside-client.ts:257-562 | whatever event reaches a page, its owner makes exactly the move of the runs, stays valid, keeps of every aside what the move does not license it to change, and leaves storage up to date |
| AsidePage.Page.Play | packages/sane-app/frontend/aside-client.ts:257-562 | over any number of events and crashes the object goes through a run, and no unsaved text that crashes find in storage is lost but by typing over it, by a reload, or because the server had it |
| AdmissionRecovery.SettlesToTheJoin | packages/sane-app/frontend/app-admission-recovery.ts:198-217 | any evidence in any order is taken in exactly if all of it is about this request and its terminal receipts agree; the result is the join, certain exactly if terminal, with envelope, draft key and stamps unchanged |
| AdmissionRecovery.OrderDoesNotMatter | packages/sane-app/frontend/app-admission-recovery.ts:196-217 | another order, or repeats, settle the same |
| AdmissionRecovery.SettledFrozen | packages/sane-app/frontend/app-admission-recovery.ts:145-167 | settling keeps the record valid and its frozen part, and never takes a terminal receipt back |
| AdmissionEvidence.TakenInIff | packages/sane-app/frontend/app-admission-recovery.ts:115-217 | evidence is taken in exactly if it is of this store, identity and payload, an admission is where a request of its kind may be admitted, and no final answer is contradicted |
| AdmissionEvidence.AdmittedLanded | packages/sane-app/frontend/app-admission-recovery.ts:113-129 | whatever was taken in, in whatever order: a request that counts as admitted is in the conversation and under the source it expected, and live input in the run it expected |
| AdmissionEvidence.ReadIff | packages/sane-app/frontend/app-admission-ledger.ts:53-74 | a stored entry is read exactly if it is bounded, of this store, under its own identity and with its own payload's hash, with room for a final answer if it still waits for one; and what it takes |
| AdmissionLedgerSafety.RetainedIsDrop | packages/sane-app/frontend/app-admission-ledger.ts:101-120 | retention removes only expirable, unprotected entries and keeps the rest in order |
| AdmissionLedgerSafety.RetainedTerminals | packages/sane-app/frontend/app-admission-ledger.ts:101-115 | at most 64 expirable records remain, however large the ledger was |
| AdmissionLedgerSafety.RetainedKeeps | packages/sane-app/frontend/app-admission-ledger.ts:110-110 | what is not expirable, or is being written, stays; which that is, record by record, is in `AdmissionLedgerRetention.RetainedMeans` |
| AdmissionLedgerRetention.RetainedMeans | packages/sane-app/frontend/app-admission-ledger.ts:90-115 | however full the ledger is, a request without a final answer stays, an admitted science message stays, and so does the record being written; nothing else does unless the bounds are kept, and within the bounds everything does |
| AdmissionLedgerRetention.RetainedIsShortest | packages/sane-app/frontend/app-admission-ledger.ts:101-120 | what goes is the oldest of the rejected requests and of the admitted ones that are no science message, as few as bring 256 records, 8,000,000 bytes and 64 of these into range |
| AdmissionLedgerRetention.ScienceStays | packages/sane-app/frontend/app-admission-ledger.ts:90-219 | over every run of several tabs, each operation cut off anywhere, an admitted science message keeps its receipt in the ledger until the user discards it |
| AdmissionLedgerRetention.ReservedIff | packages/sane-app/frontend/app-admission-ledger.ts:170-180 | a reservation is let in exactly if its identity is new, no request in doubt has its draft, its chain or its conversation, its record can be written, the bounds hold without giving up anything in doubt, and storage takes it |
| AdmissionLedgerAnswers.WriteExactly | packages/sane-app/frontend/app-admission-ledger.ts:126-152 | what a write gives up, oldest first: as many as the bounds take, and one more for each time that storage is full; when it succeeds; and that the record is written last |
| AdmissionLedgerAnswers.SettledKnows | packages/sane-app/frontend/app-admission-ledger.ts:186-205 | the answer of a settlement is what ledger, caller and evidence know together; what is known finally stays |
| AdmissionLedgerAnswers.SettledIff | packages/sane-app/frontend/app-admission-ledger.ts:186-205 | when a settlement is taken in, the restoring one included |
| AdmissionLedgerAnswers.DiscardIff | packages/sane-app/frontend/app-admission-ledger.ts:209-219 | the user may discard exactly a request with a final answer that the caller's record does not contradict, and then exactly it goes |
| AdmissionLedgerAnswers.ReadExactly | packages/sane-app/frontend/app-admission-ledger.ts:122-124 | a read answers with what stays and gives up the rest |
| AdmissionLedgerAnswers.FindFirst | packages/sane-app/frontend/app-admission-ledger.ts:188-188 | the record of a request is the first one in storage order |
| AdmissionLedgerAnswers.EraseIs | packages/sane-app/frontend/app-admission-ledger.ts:95-99 | a removal takes every item of its key and no other |
| AdmissionLedgerAnswers.StoreIs | packages/sane-app/frontend/app-admission-ledger.ts:131-134 | a write replaces the item of its key where it is, or adds one behind all others |
| AdmissionLedgerRuns.EventShape | packages/sane-app/frontend/app-admission-ledger.ts:126-219 | every operation removes only terminal records and then writes at most one, which conflicts with nothing in doubt or replaces its own request |
| AdmissionLedgerRuns.StepSafe | packages/sane-app/frontend/app-admission-ledger.ts:126-219 | every operation, cut off after any write, keeps one request in doubt at most per draft, per chain and per conversation, and keeps everything in doubt |
| AdmissionLedgerRuns.RunSafe | packages/sane-app/frontend/app-admission-ledger.ts:166-205 | the same over every run of several tabs |
| AdmissionLedgerRuns.DoubtSurvives | packages/sane-app/frontend/app-admission-ledger.ts:182-219 | a request in doubt stays, unchanged, until the ledger has its own correlated terminal receipt |
| AdmissionLedgerRuns.StorageFollows | packages/sane-app/frontend/app-admission-ledger.ts:76-88 | what storage holds after any operation decodes to exactly the state of these runs |
| AdmissionLedgerBudget.SettledFits | packages/sane-app/frontend/app-admission-ledger.ts:60-71 | an accepted record is never refused by the record limit when its receipt arrives, and takes no more than was reserved |
| AdmissionLedgerBudget.SettlingGrowsIff | packages/sane-app/frontend/app-admission-ledger.ts:60-72 | settling raises the reserved bytes exactly for a terminal record that was reserved as uncertain |
| AdmissionLedgerBudget.DoubtfulGrows | packages/sane-app/frontend/app-admission-ledger.ts:170-205 | a concrete record: an empty ledger takes it in, and its settlement raises the reserved total by one |
| AdmissionLedgerBudget.SettleNeverRaises | packages/sane-app/frontend/app-admission-ledger.ts:186-205 | a settlement that finds its record stays within the budget and never raises the reserved total |
| AdmissionLedgerBudget.RunBudget | packages/sane-app/frontend/app-admission-ledger.ts:101-205 | from an empty ledger, every run holds at most 256 records, 8,000,000 reserved bytes and 64 expirable records |
| AdmissionLedgerBudget.RelayedTakenInIff | packages/sane-app/frontend/app-admission-ledger.ts:199-201 | the second settlement succeeds exactly if the caller's record has a receipt that belongs to the stored request and contradicts none |
| AdmissionLedgerBudget.AbsenceIsRefused | packages/sane-app/frontend/app-admission-ledger.ts:199-201 | an absent lookup of any request in doubt without a receipt is refused and writes nothing, although it is sound |
| AppAdmissionLedger.AppAdmissionLedger.VerifiedRead | packages/sane-app/frontend/app-admission-ledger.ts:76-88 | whatever is cached, the answer is the decoding of the bytes in storage now |
| AppAdmissionLedger.AppAdmissionLedger.Retain | packages/sane-app/frontend/app-admission-ledger.ts:101-120 | the loop with its running counters removes the shortest storage-order prefix of expirable entries that brings all three bounds into range, or all of them; never a request in doubt or an admitted science message (`AdmissionLedgerRetention.RetainedMeans`) |
| AppAdmissionLedger.AppAdmissionLedger.SetItem | packages/sane-app/frontend/app-admission-ledger.ts:131-144 | each quota refusal costs the oldest expirable entry, until the write succeeds or none is left |
| AppAdmissionLedger.AppAdmissionLedger.Write | packages/sane-app/frontend/app-admission-ledger.ts:126-152 | storage and answer of one write, failed writes included |
| AppAdmissionLedger.AppAdmissionLedger.Read | packages/sane-app/frontend/app-admission-ledger.ts:122-124 | storage and answer of a read that prunes |
| AppAdmissionLedger.AppAdmissionLedger.Reserve | packages/sane-app/frontend/app-admission-ledger.ts:170-180 | storage and answer of a reservation |
| AppAdmissionLedger.AppAdmissionLedger.Settle | packages/sane-app/frontend/app-admission-ledger.ts:186-205 | storage and answer of a settlement, the restoring one included |
| AppAdmissionLedger.AppAdmissionLedger.RemoveTerminal | packages/sane-app/frontend/app-admission-ledger.ts:209-219 | storage and answer of an explicit discard |
| CompactionWindow.ReplayExtends | opencode/plugins/sane/compaction-context.ts:117-125 | over a history that only grew, every recorded restoration goes where it was |
| CompactionWindow.ReplayErases | opencode/plugins/sane/compaction-context.ts:117-125 | without its restorations the request is the native history |
| CompactionWindow.RestoreKeeps | opencode/plugins/sane/compaction-context.ts:113-140 | a request over a grown history is refused only at 64 versions, sends everything sent before, and ends its restorations with the configured one |
| CompactionWindow.AcceptedIff | opencode/plugins/sane/compaction-context.ts:117-122 | a window is accepted exactly if the native history still begins with what it was recorded after |
| CompactionWindow.PartsJoin | packages/sane-app/shared/compaction-context-contract.ts:24-35 | the parts of a text join to it, and bound its length |
| CompactionWindow.ValidTextFits | opencode/plugins/sane/compaction-context.ts:120-120 | no text that the codec takes is too long to be replayed |
| CompactionRuns.StepInv | opencode/plugins/sane/compaction-context.ts:64-142 | one step of a request, a configuration, a failed write or a crash keeps the window replayable and the dispatched requests prefixes of what it replays to |
| CompactionRuns.DispatchedIsAppendOnly | opencode/plugins/sane/compaction-context.ts:100-142 | over every run each dispatched request is a prefix of every later one, erases to its native history, and ends its restorations with its own binding's, which is bound to its agent (`CompactionDispatch.SentWhileBound`) |
| CompactionRuns.NeverRefusedForItsPrefix | opencode/plugins/sane/compaction-context.ts:113-128 | over every run a request is refused exactly at the limit with another context, never for its recorded prefix |
| CompactionRuns.CrashAfterWrite | opencode/plugins/sane/compaction-context.ts:137-141 | after a crash between the write of the window and the dispatch the same request sends the same |
| CompactionDispatch.DispatchesIff | opencode/plugins/sane/compaction-context.ts:94-142 | a step sends a request exactly if it is prepared and the session is bound to the agent that began it, by the very binding it was prepared with and by the selection |
| CompactionDispatch.PreparesIff | opencode/plugins/sane/compaction-context.ts:100-110 | none is prepared unless that was so when it began and still is |
| CompactionDispatch.BeginsUnderway | opencode/plugins/sane/compaction-context.ts:100-102 | a request of a session that is bound to its agent is underway from its beginning on |
| CompactionDispatch.SentWhileBound | opencode/plugins/sane/compaction-context.ts:94-142 | over every run, each request that was sent was begun by its agent and sent while the session was bound to that agent, by the binding whose context it carries |
| CompactionDispatch.GoesOn | opencode/plugins/sane/compaction-context.ts:100-142 | as long as binding and selection stay and nothing crashes, a request goes on until it is sent, unless the window is full or its write fails |
| CompactionDispatch.Dispatched | opencode/plugins/sane/compaction-context.ts:100-142 | and with room in the window it is sent once its awaits are answered |
| CompactionMeaning.ConfiguresExactly | opencode/plugins/sane/compaction-context.ts:63-92 | a context is stored, and becomes the current one, exactly if its agent is the selected one each time; no request, window or sent conversation changes |
| CompactionMeaning.CrashExactly | opencode/plugins/sane/compaction-context.ts:50-62 | after a crash the context that was stored last is the current one, and no request is underway |
| CompactionMeaning.PublicationOvertakes | opencode/plugins/sane/compaction-context.ts:86-90 | a configuration that becomes current is another object, and overtakes the request that is underway |
| CompactionMeaning.OvertakenIsNotSent | opencode/plugins/sane/compaction-context.ts:100-142 | every configuration that becomes current overtakes the request that is underway, even with the same context, and over every run that request is never sent |
| CompactionMeaning.BeginsExactly | opencode/plugins/sane/compaction-context.ts:100-111 | a request goes on as it is exactly if its history has a restoration of this compaction |
| CompactionMeaning.LoadsExactly | opencode/plugins/sane/compaction-context.ts:112-140 | the window is written before anything is sent, and a failed write leaves the old one and ends the request |
| CompactionMeaning.RefusedIff | opencode/plugins/sane/compaction-context.ts:115-128 | a window is refused exactly if it has more than 64 entries, if one of them does not fit into what those before it made, or if it is full and does not end in the context |
| CompactionMeaning.PartEndsExactly | packages/sane-app/shared/compaction-context-contract.ts:21-31 | a part has 8000 units, one less before a surrogate that begins a pair there, or ends with the text; never between the halves of a pair |
| CompactionMeaning.ValidTextBetween | packages/sane-app/shared/compaction-context-contract.ts:21-31 | every text of 1 to 255968 units is taken, and none that is empty or longer than 256000 |
| CompactionContext.Restorer.Replay | opencode/plugins/sane/compaction-context.ts:117-125 | the splicing loop computes the replay |
| CompactionContext.Restorer.Restore | opencode/plugins/sane/compaction-context.ts:100-142 | the request's messages and the stored window, when it succeeds and when it does not |
| ExecutionBinding.StepInv | opencode/plugins/sane/execution.ts:189-247 | every await of a configuration, with its effect or without, an abort, a crash or a reload keeps the binding invariant, whatever requests and checks go on |
| ExecutionBinding.ReadyMeansVerified | opencode/plugins/sane/execution.ts:208-246 | over every run whose reloads abort what was suspended, a durable ready binding means that the session has the agent and model read back for it, unless somebody else changed them since, and a ready binding in memory is the durable one |
| ExecutionBinding.ChangesUnderIntent | opencode/plugins/sane/execution.ts:216-237 | the plugin changes the session only while its intent is durable and is the current binding |
| ExecutionBinding.LetInIff | opencode/plugins/sane/execution.ts:257-269 | exactly who is let in: any ordinary agent if the session is not bound, else the bound one while the binding is ready and nothing is configuring |
| ExecutionBinding.NothingPassesWhilePending | opencode/plugins/sane/execution.ts:249-262 | of a session that is bound, no selection is answered, no prompt admitted and no request let in while the binding is pending or being configured |
| ExecutionBinding.OrdinaryLetInIff | opencode/plugins/sane/execution.ts:83-269 | over every run from an unbound session, reloads included, an ordinary request is let in exactly as long as the running instance found no durable binding when it was loaded and no configuration since got past its first await |
| ExecutionBinding.FirstConfigurationIsOpen | opencode/plugins/sane/execution.ts:208-269 | concretely: during the first await of the first configuration, and after it failed, an ordinary request goes on |
| ExecutionBinding.PassesUnderItsOwnIff | opencode/plugins/sane/execution.ts:257-268 | over every run, a request that was let in goes on unless a reload ends it, and under its own binding exactly if no configuration is running and those that ended since left that binding in force |
| ExecutionBinding.OnlyBeginningOvertakes | opencode/plugins/sane/execution.ts:208-212 | of all events, exactly the beginning of a configuration ends the time in which a binding is ready |
| ExecutionBinding.OvertakenPasses | opencode/plugins/sane/execution.ts:257-268 | a concrete run in which a request goes on under a binding that is no longer its own |
| ExecutionBinding.ReceiptMeansReady | opencode/plugins/sane/execution.ts:199-207 | a read-only configuration answers with a receipt only if its binding is in force now, durable, and the very one it found |
| ExecutionMeaning.ConfigurationBinds | opencode/plugins/sane/execution.ts:208-240 | with nothing in its way a configuration ends with its session as configured, and its binding stored, current and ready, whatever was configured before and whether or not old permissions had to be recovered |
| ExecutionMeaning.SucceedsExactly | opencode/plugins/sane/execution.ts:211-240 | what each await that succeeds changes, and which comes next |
| ExecutionMeaning.FailsExactly | opencode/plugins/sane/execution.ts:241-246 | a failure puts the active definitions back and leaves the binding as it is |
| ExecutionMeaning.CrashExactly | opencode/plugins/sane/execution.ts:83-98 | a new instance knows what is stored and nothing else |
| ExecutionMeaning.SelectsIff | opencode/plugins/sane/execution.ts:249-309 | when a selection is answered and when a prompt is let in |
| ExecutionMeaning.ChecksExactly | opencode/plugins/sane/execution.ts:199-206 | a read-only configuration is taken up exactly for a ready binding with nothing configuring it, and gets its receipt if nothing begins meanwhile |
| ExecutionMeaning.ChecksBackExactly | opencode/plugins/sane/execution.ts:202-206 | and gets none if the session is not as configured, or anything began or became current meanwhile |
| ExecutionMeaning.MatchesIff | opencode/plugins/sane/execution.ts:150-154 | when a session is as configured |
| ExecutionMeaning.BeginExactly | opencode/plugins/sane/execution.ts:198-210 | a configuration begins exactly if none is running for its session |
| ExecutionMeaning.OthersExactly | opencode/plugins/sane/execution.ts:150-154 | what somebody else does to the session changes nothing else |
| ExecutionMeaning.AskExactly | opencode/plugins/sane/execution.ts:257-263 | what becomes of a request at the first check of the context hook |
| ExecutionMeaning.ReadsBackExactly | opencode/plugins/sane/execution.ts:263-268 | it goes on, once, exactly if its session read back as the binding has it |
| ExecutionSurvivors.ReloadsExactly | opencode/plugins/sane/execution.ts:83-98 | a reload finds what is stored and leaves a suspended configuration behind; the end of the process leaves none |
| ExecutionSurvivors.SoundIff | opencode/plugins/sane/execution.ts:208-246 | with configurations that outlive a reload, exactly these steps take away what one instance keeps: an old one stores its intent or its ready binding over another that is current, or either switches the session away from what was read back |
| ExecutionSurvivors.ReadyUnlessDisturbed | opencode/plugins/sane/execution.ts:208-310 | over every run with any number of reloads that configurations outlive, without such a step: stored ready bindings mean what was read back, memory agrees with storage, and the session is changed under the stored intent |
| ExecutionSurvivors.DisturbedGoesWrong | opencode/plugins/sane/execution.ts:235-240 | after any such step one of these fails at once, or when one ready binding is stored that is on its way |
| ExecutionSurvivors.OldCallOverwrites | opencode/plugins/sane/execution.ts:237-310 | a concrete run: an old configuration stores its ready binding after the session was configured anew, for which it is selected |
| ExecutionOperations.ExecutionOperations.Configure | opencode/plugins/sane/execution.ts:198-210 | one configuration at a time per session, with the invariant kept in all of them and no other touched |
| ExecutionOperations.ExecutionOperations.Proceed | opencode/plugins/sane/execution.ts:211-240 | the whole new state of the session after each await, nothing of any other, and the invariant in all of them |
| ExecutionOperations.ExecutionOperations.Reject | opencode/plugins/sane/execution.ts:241-246 | a failure at any await puts the active definitions back and leaves the intent, changes nothing of any other session, and keeps the invariant in all of them |
| ExecutionOperations.ExecutionOperations.Setup | opencode/plugins/sane/execution.ts:83-98 | a new instance knows exactly what is durable, and activates what is ready, with the invariant in every session |
| ExecutionOperations.ExecutionOperations.Selected | opencode/plugins/sane/execution.ts:305-309 | a selection that is answered is durable and ready, and the native session still has it unless somebody else changed it; none is answered only if no binding is ready |
| ExecutionPolicy.AcceptedDecides | opencode/plugins/sane/execution.ts:44-50 | a permission list that is accepted decides every action as rendered, except that it denies where an appended native rule applies; what the rendered list decides is in `ExecutionPolicy.PolicyDecides` |
| ExecutionPolicy.AcceptedIff | opencode/plugins/sane/execution.ts:44-50 | a list is accepted exactly if it is the rendered one followed by denials of the browser or of its skill |
| ExecutionPolicy.PolicyDecides | opencode/plugins/sane/execution.ts:32-50 | what an accepted list decides: the browser is denied, its skill where the runtime appended so; otherwise the last authored rule that applies decides, and where none does, files outside and environment files are asked for, their examples and everything else allowed |
| ExecutionPolicy.BrowserIsDenied | opencode/plugins/sane/execution.ts:32-42 | no accepted list ever gives the browser |
| ExecutionPolicy.Ancestry | opencode/plugins/sane/execution.ts:270-287 | the walk ends on every finite graph and passes exactly if a delegated parent chain reaches the configured root |
| DemoJournal.RunInv | experiments/context-engine-demo/journal.ts:157-231 | under any failures the owner's expected bytes are exactly what it wrote successfully, in order, and a visible checkpoint binds exactly that |
| DemoJournal.CompleteMeansExact | experiments/context-engine-demo/journal.ts:235-297 | if the reader reports complete coverage, its events are exactly those written successfully, numbered, owner reference first, one submission at most and before its observations, and nothing had failed when the checkpoint was made |
| DemoJournalBinding.CompleteIff | experiments/context-engine-demo/journal.ts:235-297 | a journal reads as complete exactly if its files are the ones the checkpoint was made of, nothing failed, and its log is numbered, begins with the only owner reference, has one submission at most, which is the owner's, and every observation after it, with its transport hash and the owner's message and dispatch; a first observation of Claude Code only of the initial message and not of live input |
| DemoJournalBinding.RightfulIff | experiments/context-engine-demo/journal.ts:131-143 | the checks of owner and reader accept exactly such logs |
| DemoJournalBinding.PersistIff | experiments/context-engine-demo/journal.ts:197-207 | a submission with its observation is persisted exactly if both are the owner's and belong together, it is the submission there was, and the storage is intact and takes them |
| DemoJournalBinding.AppendIff | experiments/context-engine-demo/journal.ts:179-195 | what an append accepts of each kind of event, and what it writes |
| DemoJournalBinding.FailIff | experiments/context-engine-demo/journal.ts:208-213 | a reported failure is recorded, and sticks even if that cannot be written |
| DemoJournalBinding.SealIff | experiments/context-engine-demo/journal.ts:214-231 | a journal is closed exactly by a published checkpoint of intact files, which tells everything that had failed |
| DemoJournalBinding.FailureSticks | experiments/context-engine-demo/journal.ts:170-231 | once a failure is known, no run ends in a journal that reads as complete |
| DemoJournalBinding.FailuresOnce | experiments/context-engine-demo/journal.ts:170-173 | over every run each failure is told once |
| DemoJournalBinding.NewIsOpen | experiments/context-engine-demo/journal.ts:145-155 | a new journal is open, with the reference to its owner file and nothing else |
| DemoJournalBinding.TornExactly | experiments/context-engine-demo/journal.ts:157-169 | a write that breaks off leaves what it reached and counts for nothing, so that the next one finds the log changed |
| DemoJournalBinding.DecodesExactly | experiments/context-engine-demo/journal.ts:268-273 | the log is read line by line as far as whole lines are events, and counts as repaired exactly if anything is left |
| DemoJournal.CleanSealIsComplete | experiments/context-engine-demo/journal.ts:214-231 | a journal on which nothing failed reads as complete once it is sealed |
| DemoJournal.OtherLogsAreNot | experiments/context-engine-demo/journal.ts:292-293 | under one checkpoint only one log reads as complete |
| DemoJournal.DecodeEncode | experiments/context-engine-demo/journal.ts:270-273 | the log of whole events is read back exactly |
| DemoJournalOwner.Journal.WriteAll | experiments/context-engine-demo/journal.ts:103-110 | a series of short writes appends exactly what it reached |
| DemoJournalOwner.Journal.WriteEvents | experiments/context-engine-demo/journal.ts:157-169 | files and fields after an append, however it fails |
| DemoJournalOwner.Journal.Append | experiments/context-engine-demo/journal.ts:179-195 | the whole new state of an append, with its sticky failure |
| DemoJournalOwner.Journal.Persist | experiments/context-engine-demo/journal.ts:197-207 | the whole new state of a submission with its observation |
| DemoJournalOwner.Journal.Fail | experiments/context-engine-demo/journal.ts:208-213 | the whole new state of a recorded failure |
| DemoJournalOwner.Journal.Seal | experiments/context-engine-demo/journal.ts:214-231 | the whole new state of a seal, with the poison that follows a failed publication |
| DemoJournalOwner.CheckEvents | experiments/context-engine-demo/journal.ts:278-291 | the reader's loop accepts exactly the logs of `DemoJournalBinding.RightfulIff` and finds every observation in order |
| DemoJournalOwner.ReadDemoJournal | experiments/context-engine-demo/journal.ts:235-297 | complete exactly if nothing at all is wrong |
| CanonicalJson.CanonicalIffSame | experiments/context-engine-demo/journal.ts:42-47 | the canonical texts of two values are equal exactly if the values are the same up to the order of members, at any depth |
| CanonicalJson.QuotedApart | experiments/context-engine-demo/journal.ts:44-44 | a quoted string ends where it ends and determines the string |
| CanonicalJson.SortedSorts | experiments/context-engine-demo/journal.ts:44-44 | sorting puts the members in strictly increasing key order and loses none |
| CanonicalText.LessIff | experiments/context-engine-demo/journal.ts:44-44 | keys are in the order of the first unit in which they differ, and a key comes before its continuations |
| CanonicalText.NumberUnitIff | experiments/context-engine-demo/journal.ts:45-45 | numbers are written with digits, signs, points and exponents |
| CanonicalText.NamesExactly | experiments/context-engine-demo/journal.ts:45-45 | the three names are written as they are |
| CanonicalText.EscapesExactly | experiments/context-engine-demo/journal.ts:44-45 | which units of a string are escaped, and how |
| CanonicalText.QuotedIsEncodable | experiments/context-engine-demo/journal.ts:44-45 | whatever units a string has, its quoted form has no control character and no half of a surrogate pair |
| CanonicalText.CanonicalIsEncodable | experiments/context-engine-demo/journal.ts:42-46 | nor has any canonical text, so that it can be written as UTF-8 as it is |
| PathToken.InsertThenParse | packages/sane-app/frontend/chat-path-token.ts:8-51 | every safe path, inserted at the start or after white space, is found again with the caret at its end, whatever stands before it |
| PathToken.BehindTheQuote | packages/sane-app/frontend/chat-path-token.ts:12-30 | exactly when it is also found with the caret behind the closing quote |
| PathToken.BehindTheQuoteIsNotAlways | packages/sane-app/frontend/chat-path-token.ts:12-30 | a concrete path for which it is not |
| PathToken.PathToken | packages/sane-app/frontend/chat-path-token.ts:8-31 | the scan finds the last trigger whose safe token holds the caret |
| PathToken.TokenAt | packages/sane-app/frontend/chat-path-token.ts:15-28 | the token of one trigger, with its end, path, parent and query |
| PathToken.ValueSafe | packages/sane-app/frontend/chat-path-token.ts:3-7 | a safe path stays safe as a directory |
| PathMeaning.SafeIff | packages/sane-app/frontend/chat-path-token.ts:3-7 | a path is safe exactly if it is empty or a list of names joined by slashes, none empty, ., or .., and none with a backslash, quote or control character |
| PathMeaning.SafeTrailingIff | packages/sane-app/frontend/chat-path-token.ts:3-7 | and while it is being typed it may end in the slash of a directory |
| PathMeaning.CanonicalIff | packages/sane-app/frontend/chat-path-token.ts:32-37 | an absolute path is canonical exactly if it is the root or such a list of parts behind a slash; one slash at its end is taken off |
| PathMeaning.FindIff | packages/sane-app/frontend/chat-path-token.ts:8-31 | a token is found exactly if the caret is in one; it is the last of those, with the directory to look in and the beginning of the name to look for |
| PathMeaning.WhiteIff | packages/sane-app/frontend/chat-path-token.ts:9-21 | which characters are white space |
| PathMeaning.InsertedLooks | packages/sane-app/frontend/chat-path-token.ts:8-51 | an inserted directory is looked in next, and an inserted file is looked for where it is |
| PathToken.ExecutionPrefixIff | packages/sane-app/frontend/chat-path-token.ts:32-47 | the prefix is exactly the safe relative path that leads from the canonical root to the canonical directory |
| InputQueue.RunInv | packages/sane-app/frontend/browser-host-client.ts:213-229 | between clears, commands sent and queued are the enqueued ones in consecutive groups: a single command, a run of moves with its last, or a run of wheel turns with its sum; at most 64 wait |
| InputQueue.OnlyControlsJoin | packages/sane-app/frontend/browser-host-client.ts:110-111 | over every run, as long as control is being given up only control commands join, in their order |
| InputQueue.NothingIsLost | packages/sane-app/frontend/browser-host-client.ts:213-221 | wheel deltas are conserved, and keys, buttons and controls keep number and order |
| InputDelivery.EnqueueExactly | packages/sane-app/frontend/browser-host-client.ts:213-221 | a command that is let in is dropped, with everything that waits, exactly if 64 wait and it merges with none, or if what waits cannot go; otherwise it is to arrive behind everything else |
| InputDelivery.TickExactly | packages/sane-app/frontend/browser-host-client.ts:222-228 | when the timer fires the next command is sent, or everything is dropped exactly because it cannot be |
| InputDelivery.ReleaseExactly | packages/sane-app/frontend/browser-host-client.ts:243-243 | after control is given up the release is all that is to arrive, dropped exactly if it cannot go |
| InputDelivery.AcceptExactly | packages/sane-app/frontend/browser-host-client.ts:102-112 | a state drops the queue exactly if it makes it obsolete, and ends the giving up of control exactly if control is somebody else's |
| InputDelivery.TimerSendsAll | packages/sane-app/frontend/browser-host-client.ts:222-228 | as long as the socket takes it, the timer sends everything that waits, in order, and then stops |
| InputQueue.Viewer.EnqueueInput | packages/sane-app/frontend/browser-host-client.ts:213-221 | a command that is let in adds itself to the sums and to the discrete commands, coalesced or not, unless the queue is dropped; any other changes nothing; nothing is sent while the timer runs |
| InputQueue.Viewer.DrainInput | packages/sane-app/frontend/browser-host-client.ts:222-228 | unless the queue is dropped, what is sent and queued stays the same commands in the same order, and whatever waits has a timer that will send it |
| InputQueue.Viewer.ReleaseControl | packages/sane-app/frontend/browser-host-client.ts:243-243 | afterwards the release is all that is sent or queued and no input is let in, or the queue is dropped |
| HostBrowser.NeverOlder | packages/sane-app/frontend/browser-host-client.ts:102-112 | in whatever order states and frames come, a tab that does not go away never shows an older generation or document |
| HostBrowser.SoundIff | packages/sane-app/frontend/browser-host-client.ts:102-201 | exactly the events after which readiness no longer stands for the shown document, or a frame of another document of its generation is in hand or waits |
| HostBrowser.ReadyMeansDrawn | packages/sane-app/frontend/browser-host-client.ts:102-201 | over every run without such an event, ready means that the picture is of the shown generation and document |
| HostBrowser.GoesWrongIff | packages/sane-app/frontend/browser-host-client.ts:179-201 | a running tab becomes ready over the picture of another document by decodes alone exactly after such an event |
| HostBrowser.OldPictureCountsAsReady | packages/sane-app/frontend/browser-host-client.ts:179-201 | concretely: the page navigates while a frame is being decoded, and the input is open over the old picture |
| HostBrowser.FramesInOrder | packages/sane-app/frontend/browser-host-client.ts:153-201 | over every run, what an open socket received is what was acknowledged, then the frame in hand, then at most two that wait; a frame is acknowledged when it is decoded, drawn or not |
| HostBrowserMeaning.ReportExactly | packages/sane-app/frontend/browser-host-client.ts:102-112 | which states are taken, and what stays ready and drawn |
| HostBrowserMeaning.GreetExactly | packages/sane-app/frontend/browser-host-client.ts:149-151 | the first message says who this viewer is and is a state like any other, on an open socket alone |
| HostBrowserMeaning.ConnectExactly | packages/sane-app/frontend/browser-host-client.ts:163-178 | a new socket begins with nothing, and only where there is none |
| HostBrowserMeaning.CloseExactly | packages/sane-app/frontend/browser-host-client.ts:163-167 | without a socket nothing is connected, ready or waiting, and the tab stays shown |
| HostBrowserMeaning.DropsInputIff | packages/sane-app/frontend/browser-host-client.ts:102-112 | queued input is dropped exactly by a state that is taken and says that the tab does not run, is of another generation, or is controlled by somebody else |
| HostBrowserMeaning.ArriveExactly | packages/sane-app/frontend/browser-host-client.ts:153-156 | a frame is taken in hand or waits behind the others, and a third that waits breaks the socket |
| HostBrowserMeaning.DecodeExactly | packages/sane-app/frontend/browser-host-client.ts:179-201 | which frames are acknowledged and which are drawn, and that only a drawn one makes the tab ready |
| HostBrowserMeaning.AllAcknowledged | packages/sane-app/frontend/browser-host-client.ts:179-201 | as long as frames decode, every frame of an open socket is acknowledged, in order, and nothing is left |
| HostBrowserMeaning.OpenInputSees | packages/sane-app/frontend/browser-host-client.ts:207-210 | input is open exactly to a connected, ready viewer of a running tab that nobody else controls, and over every run that nothing upsets what is seen then is the document it goes to |
| HostBrowser.HostViewer.AcceptState | packages/sane-app/frontend/browser-host-client.ts:102-112 | no older state is taken, readiness survives only for the same document and target, queued input is dropped exactly if it has become obsolete, and control that is somebody else's is no longer being given up |
| HostBrowser.HostViewer.FrameArrives | packages/sane-app/frontend/browser-host-client.ts:153-156 | a frame joins behind everything received before it, or the socket breaks; what is to be drawn and acknowledged is otherwise the same |
| HostBrowser.HostViewer.FrameDecoded | packages/sane-app/frontend/browser-host-client.ts:179-201 | the frame in hand is done with, and acknowledged if it was decoded; the tab becomes ready only by a frame of its own generation, and a sound viewer stays sound |
| HostBrowser.HostViewer.SocketGone | packages/sane-app/frontend/browser-host-client.ts:163-167 | without a socket nothing is ready, nothing waits to be drawn and no input is queued |
| CatalogStore.HydrationKeepsNavigation | packages/sane-app/frontend/catalog.ts:92-111 | whatever happens in between, a hydration never replaces a navigation made after it started |
| CatalogStore.LaterNavigationWins | packages/sane-app/frontend/catalog.ts:151-163 | nor does a hydration or an opening that is already on its way |
| CatalogStore.EarlierResponsesChangeNothing | packages/sane-app/frontend/catalog.ts:40-150 | after an invalidation, whatever happens next, the response of any hydration, save, second read or opening from before it changes nothing |
| CatalogStore.SavesAreInOrder | packages/sane-app/frontend/catalog.ts:125-150 | in every run at most one bookmark save per epoch is in flight, and the bookmarks sent are navigations in order, none twice |
| CatalogMeaning.HydratedExactly | packages/sane-app/frontend/catalog.ts:92-111 | when the response of a hydration counts, and that it shows the bookmark exactly if nothing was navigated or opened since it started |
| CatalogMeaning.InvalidateExactly | packages/sane-app/frontend/catalog.ts:40-46 | an invalidation leaves behind whatever is on its way, and forgets what waits and what is ready, but not the position |
| CatalogMeaning.StartExactly | packages/sane-app/frontend/catalog.ts:56-81 | a hydration that starts interrupts any other and remembers where everything stands |
| CatalogMeaning.HydrateExactly | packages/sane-app/frontend/catalog.ts:92-97 | it asks the server exactly if it is current, the page is available, and nothing is loading or ready |
| CatalogMeaning.HydrationFails | packages/sane-app/frontend/catalog.ts:112-123 | one that failed only ends, and can be tried again if it still counted |
| CatalogMeaning.NavigateExactly | packages/sane-app/frontend/catalog.ts:125-131 | a navigation shows at once and takes the place of any that waited, with a timer if the store is ready |
| CatalogMeaning.OpenExactly | packages/sane-app/frontend/catalog.ts:151-152 | an opening that starts makes earlier ones and hydrations give way |
| CatalogMeaning.FireExactly | packages/sane-app/frontend/catalog.ts:132-137 | what waits is sent exactly if the store is ready and no save is on its way, against the revision that is known |
| CatalogMeaning.PutExactly | packages/sane-app/frontend/catalog.ts:138-140 | a save that succeeded makes room for the next, against the revision that it made |
| CatalogMeaning.PutFailsExactly | packages/sane-app/frontend/catalog.ts:141-149 | one that failed gives up what waits, and after a conflict the revision is read first |
| CatalogMeaning.RereadExactly | packages/sane-app/frontend/catalog.ts:145-149 | after that second read saves go on, against the revision it told if it told one |
| CatalogMeaning.OpenedExactly | packages/sane-app/frontend/catalog.ts:151-163 | what was opened is navigated to exactly if nothing came in between |
| CatalogMeaning.SavesAgainstNewest | packages/sane-app/frontend/catalog.ts:107-149 | a save that starts after a response of its epoch rests on the revision that this response told |
| CatalogNavigation.NewestIsKept | packages/sane-app/frontend/catalog.ts:125-149 | over every run in which no save fails and nothing is invalidated while a navigation waits, the newest navigation is the one that waits or the last one that was sent |
| CatalogNavigation.NewestIsKeptIff | packages/sane-app/frontend/catalog.ts:125-149 | and until the next navigation that holds exactly so long |
| CatalogNavigation.DroppedIff | packages/sane-app/frontend/catalog.ts:40-149 | what waits is dropped unsent by exactly an invalidation or the failure of a save of the epoch |
| CatalogNavigation.FailureLosesNavigation | packages/sane-app/frontend/catalog.ts:141-149 | concretely: while a save is on its way the user navigates on, the save fails with a server error, and the second navigation is neither waiting nor sent |
| CatalogNavigation.StuckIff | packages/sane-app/frontend/catalog.ts:107-111 | a navigation is left waiting in a ready store, with no timer and no save, exactly by a hydration that started after it |
| CatalogNavigation.SentIff | packages/sane-app/frontend/catalog.ts:107-149 | what waits in a ready store can still be sent in some continuation exactly if it is not so left |
| CatalogNavigation.NeverStuck | packages/sane-app/frontend/catalog.ts:56-149 | over every run in which no hydration starts while a navigation waits for the store to become ready, none is left |
| CatalogNavigation.RiskyGetsStuck | packages/sane-app/frontend/catalog.ts:56-111 | and whenever one does, its own response leaves it |
| CatalogOperations.Store.HydrateReplied | packages/sane-app/frontend/catalog.ts:92-124 | the position changes only to the response of a hydration that nothing was navigated after; what waits stays, left waiting exactly if the hydration started after it |
| CatalogOperations.Store.Flush | packages/sane-app/frontend/catalog.ts:132-137 | what is sent is the newest navigation, if it was not sent yet, and none is sent twice |
| CatalogOperations.Store.PutFailed | packages/sane-app/frontend/catalog.ts:141-149 | the position stays and nothing is sent; the newest navigation is lost exactly if one waited; after a conflict no save starts before the new revision is read |
| CatalogOperations.Store.Invalidate | packages/sane-app/frontend/catalog.ts:40-46 | afterwards no call that is on its way is of the current epoch, nothing waits to be saved, and the position stays |

## Left out

- AsideServer.Process: commits and replays saves and lifecycle changes; creations are in `AsideCreation`, and here a new aside simply appears.
- AsideSession.AsideSession.ListReply: the reads that a finished list starts are not returned; any read may start at any time in a run.
- AsideProtocol: requests for one record that share a fetch are separate reads; errors are shown or not, never worded; the writes of one stretch to storage all succeed or all fail; a storage content that does not parse as a whole is an empty one; edit and revision counters are unbounded.
- AsideRoute.DefiniteIff: errors of the catalog and of the transcripts are handed on with codes that are none of the route's own, and the owner does not know them; what each check of a source looks at is not modelled, only that it refuses and as what.
- AsideCreation.Serve: the server makes an aside of any captured source for the target that was asked for; another client's aside that a creation would collide with does not exist.
- AsideFinality.RejectionInDoubtIff: the other worlds have the very same owner and satisfy the invariants of runs; those of `AsideReachable.DoubtIsReachedIff` are reached from a new page, and have the same owner as far as the rejected request goes.
- AsideCreationFinality.ReplacedInDoubtIff: likewise, with `AsideCreationReachable.DoubtIsReachedIff`.
- AsideSession.AsideSession.Perform: the methods that other methods of the object share, as Publish, Perform and Finish, are stated by their functions; what they mean is stated where they are called and in `AsideCalls`.
- AdmissionLedger: foreign keys of the same storage appear only as quota refusals; a new key goes to the end of the storage order; a write that cannot be read back counts as one that was not made.
- AdmissionRecovery: the shape checks on untyped values, among them the loop over science snapshots, are types here.
- AdmissionLedgerBudget.RunBudget: a settlement that restores an expired record may exceed the record budget by design and is not part of these runs; it is part of the exclusion and survival runs.
- CompactionRuns: one checkpoint and one request at a time; two configurations that overlap each other are not modelled, nor the scan of stored bindings.
- ExecutionBinding: a request of a generated agent in a session that is not bound goes the way of native children, of which `ExecutionPolicy.Ancestry` models the walk; the read-back of definitions passes or the request ends; the history of ended configurations is of one plugin instance.
- ExecutionBinding.ReadyMeansVerified: a reload of the plugin ends the configuration that ran in it, those that outlive it are in `ExecutionSurvivors`; recovery of legacy permissions is one more write of the intent; agent definitions and their order among native plugins are not modelled.
- ExecutionPolicy: how native patterns match is a parameter; a star matches everything, and a word without one only itself.
- DemoJournal: owner validation, JSON of events and UTF-8 are the codec, assumed to read back what it accepts; the exclusive temporary file is the two ways a publication fails; replay variants are not modelled.
- CanonicalJson: numbers are their literals, so that negative and positive zero are one; values that are not JSON do not exist here.
- InputQueue: floating-point rounding of wheel deltas.
- HostBrowser: the target of a frame, which no frame carries; visibility, error messages and the size of the canvas; the timing of reconnection, grants and the snapshot that other views share.
- CatalogStore: what a restore callback does, timers' delays, online and visibility events beyond their answers, registration and creation results other than their activation.
- User interface, timing marks, unload warnings, counts in side bars and ordering by locale.
