# Field service: sync, import and ledger proofs

A Dafny model of the parts of this repository that must hold whatever is lost, repeated or cut off, and proofs about
them for every input and every run. Where the program updates state step by step the model is a class with the same
fields, proved against a function of the old state; the properties are then proved of those functions.

## What is modelled

- **Offline sync.** The device's queue (`OfflineQueue`) and what it holds, field by field (`QueueContents`); the resolver's
  decision of one mutation (`Resolution`); the server's replay of a batch (`Replay`); and both joined by a link that loses,
  delays and repeats requests and answers, with reloads at any moment, other devices and the office changing jobs
  (`SyncProtocol`, `SyncRuns`, `SyncTheorems`, `SyncAnswers`). The code between two awaits is one step. `Projection` is the
  forecast shown for a job with moves queued, and `ForecastRuns` what becomes of it over whole runs.
- **Wrap-ups.** Drafts, the outbox and the media store (`WrapUps`), the flush suspended at each of its awaits beside the
  screens' edits (`WrapUpProtocol`), what every run keeps (`WrapUpRuns`, `WrapUpShots`), what an entry and a report say
  (`WrapUpContents`), and what one flush with nothing lost does (`WrapUpDrains`).
- **The page as a whole.** The tick and its two paces (`Tick`), and the queue, the outbox, the tick, the taps, sessions and
  reloads run together (`Flushes`). A sign-in makes a queue and wrap-ups of its own on the same storage; those before it
  go on with what they still await. Wrap-ups follow the work done before them (`FlushOrder`), what a session left behind
  can lose (`Sessions`, `WrapUpSessions`, `LateAnswers`), and how often the office is tried (`FlushPacing`).
- **Import.** The CSV reader (`Csv`, `CsvFiles`) and what it keeps of a file (`CsvContents`); what each row of the six files
  writes, given what the gateway holds (`ImportModel`); cut-off and repeated imports (`ImportSteps`, `ImportStays`,
  `ImportRuns`, `ImportTheorems`, `ImportPrefixes`); what is there afterwards (`ImportPromises`); what a row means and
  reports, told by the tables alone, and what is left of it when the import is over (`ImportMeaning`, `ImportRecords`,
  `ImportSources`, `ImportReports`); and the importer itself, with its cached index, sending one write at a time unless the
  run is dry (`ImportIndex`, `ImportCourse`, `Importer`). Rows are named by their place in creation order, so two states
  that are equal here are equal up to a renaming of ids.
- **The demo gateway's ledgers.** Purchase orders (`Orders`, `OrderRuns`, `OrderGoods`, `OrderWrites`, `OrderBooks`), the
  account tree (`Accounts`, `AccountTrees`, `AccountWrites`, `AccountBooks`), rate cards (`RateCards`) and a crew's
  documents (`Documents`).
- **The shift clock.** Spans paired from punches and a week cut into days (`Punches`, `PunchWeeks`, `PunchTimes`).

## Where the code does less than it says

Each of these is a lemma, with the exact condition under which the promise does hold.

- The queue's comment promises that what was not applied is surfaced "so a person reads it". When the answer that
  declined a mutation is lost, the retry is answered "duplicate" and nothing is ever shown
  (`LostAnswerHidesDecisions`, `ARejectionNoOneSees`); it is shown exactly when the answer taken is the deciding one
  (`DeclinedIsShownIffItsAnswerArrived`).
- The forecast of a job counts a move twice when the job is read again while that move, already applied, is still
  pending (`ForecastExactIffNothingLandedIsPending`).
- A screen goes on showing the copy of a job it has while a refetch is under way or fails, so once the queue is empty it
  can offer a move from where the job no longer is, and the office declines it (`AStaleCopyOffersWhatIsDeclined`). What it
  shows is where the queue will bring the job exactly when the copy is no older than the last answer, or a move of the job
  is pending, or what the copy misses left the state as it was (`ScreenForeseesIff`); and on a job no one else touches
  moves are all applied exactly when each was on offer from where the ones before it left it (`EveryMoveLandsIffOffered`).
- A sign-out in a dead zone is said to lose nothing. But nothing ends its queue's replay: when that answer arrives after
  the next sign-in, the old queue writes what it holds over what the new session stored, and an intent made in between can
  be gone for good, with wrap-ups sent after it as if it were at the office (`AnIntentIsLost`). A page that opened
  right then would miss something exactly when something was enqueued since that sign-in and not all of it is with the office
  (`LateAnswerLosesIff`). Nothing is lost where no such answer arrives, as when every sign-in comes with no replay under
  way (`UnlessAnsweredLate`, `UnlessSignedInEarly`).
- Wrap-ups live in the same storage under the same key, and go the same way. An edit or a flush of theirs left behind by a
  sign-in saves what its own session held, so a wrap-up submitted since can be gone from storage with no one having it
  (`AWrapUpIsLost`). At the first such await to be over, one is missing exactly when the await saves, which can be told
  before (`AwaitWritesIff`), and some wrap-up on this session's page is neither accounted for nor in the outbox left behind
  (`LateSaveLosesIff`). Nothing is missing where every sign-in comes with no edit and no flush of theirs under way
  (`NothingSubmittedIsLost`).
- The comment on the pace says a dead zone is no reason to send a request a second. That holds of the tick alone: over
  every run it tries at most six times and once for every full minute, six times more for each reload and each answer, and
  once more for each session that ends (`FewTriesInAnOutage`). A tap sends with no regard to the pace, so `n` taps in one
  instant send `n` batches (`TapsAreNotPaced`), and a reload starts the pace over (`ReloadsAreNotPaced`).
- A reload leaves a draft naming a shot whose bytes are gone exactly when an edit suspended after its delete has yet to
  drop that shot (`ReloadKeepsShotsIff`); a submit sends such a shot on the same condition (`SubmitKeepsShotsIff`).
- A CSV file may leave off its last line break, unless its last row is a single empty field
  (`LastBreakIsOptionalIffItsRowShows`).
- A second import of the same files always ends in the same state, but is silent only when no two rows give one site
  different values for an address field (`SecondRunIsSilentIffRowsAgree`).
- A request that names an order line twice gets past the check made against what was taken before it
  (`NamingALineTwiceOverReceives`); the bound holds exactly when the request's quantities, added up by line, fit
  (`StepKeeps`). A write leaves a cancelled order with goods on the books exactly when it cancels an order goods have come
  in for (`StepLeavesCancelledEmptyIff`, `ACancelledOrderMayHaveGoods`); where receipts take in only what was shipped
  that never happens (`EveryRunLeavesCancelledEmpty`).
- A refused rate-card change alters the cards exactly when its multiplier does not read, all else about it passes, and a
  card is in force on its first day (`RefusedAltersCardsIff`); then its firm and service have no price from that day on
  (`RefusedPrices`, `ARefusalThatTakesThePriceAway`).
- The cycle check of an account move never decides: whatever it refuses, the tier check would (`TiersRuleOutCycles`).

## Model

| member | source | states |
|---|---|---|
| JobStates.NextDeviceStates | apps/s5-technician/src/offline.ts:72-75 | the buttons offered from a state are exactly the legal device moves out of it, never "complete" |
| Resolution.AppliedIffOffered | packages/domain/src/sync/index.ts:113-167 | a fresh move of a known job is applied, one version on, exactly when the device would have offered it, though each side keeps a table of its own |
| Resolution.FreshIsDecidedByTable | packages/domain/src/sync/index.ts:42-55 | a fresh mutation of a field record or the checklist is applied one version on, of what the office owns or no policy covers rejected, of warranty cases and signatures queued for a person; a job takes moves only |
| Resolution.MoveIsDecided | packages/domain/src/sync/index.ts:113-167 | a fresh job move not applied is rejected exactly when the device may not drive it or it would complete the job, a duplicate exactly when the job is there already, queued for a person exactly from cancelled, invoiced or reassigned, and superseded otherwise |
| Replay.ResolveIsSuch | packages/domain/src/sync/index.ts:113-167 | the resolver answers any recorded id "duplicate" and applies any offered move: all the protocol proofs ask of it |
| Replay.DecideReads | tools/demo/sync.ts:32-54 | a mutation's target is its payload's state, or its `to` where there is none; a job not this crew's is rejected; the rest is the resolver's decision against the job as it stands and the ids recorded |
| Replay.FieldBatchIsTaken | tools/demo/sync.ts:29-57 | a batch of field records and checklist items under fresh, distinct ids is answered applied throughout |
| Replay.ReplayServer.Take | tools/demo/sync.ts:32-54 | one turn decides against the ids recorded so far, records the id, and writes the job only for an applied move of a job it has |
| Replay.ReplayServer.ReplaySync | tools/demo/sync.ts:29-57 | a batch's answers and final rows are those of its mutations taken one by one in device order |
| Replay.SortSorts | tools/demo/sync.ts:32 | the sorted batch is ascending and a permutation of the batch |
| Replay.SortIsStable | tools/demo/sync.ts:32 | mutations with one sequence number keep their order |
| Replay.SortIsIdentity | tools/demo/sync.ts:32 | a batch already in device order is taken as it came |
| Replay.RecordedIds | tools/demo/sync.ts:45-46 | afterwards exactly the old ids and the batch's are recorded, refused ones included |
| Replay.EachIdWritesAtMostOnce | tools/demo/sync.ts:29-57 | over any stream of mutations, however repeated and regrouped, the rows are the first ones with a list of writes performed, no two with one id |
| Replay.ReplayAgainIsNoOp | tools/demo/sync.ts:29-57 | what is already recorded is answered with duplicates alone and changes nothing |
| OfflineQueue.MaxSeq | apps/s5-technician/src/offline.ts:180 | numbering goes on from the largest sequence number still stored, or zero |
| OfflineQueue.Own | apps/s5-technician/src/offline.ts:154-166 | of the stored entries exactly this device's are trusted, in order |
| OfflineQueue.Queue.constructor | apps/s5-technician/src/offline.ts:143-180 | a page opens on what storage holds under its own device and technician |
| OfflineQueue.Queue.Persist | apps/s5-technician/src/offline.ts:181-184 | memory and storage change together; no other technician's queue is touched |
| OfflineQueue.Queue.SetAttention | apps/s5-technician/src/offline.ts:185-188 | the same for the notes |
| OfflineQueue.Queue.Enqueue | apps/s5-technician/src/offline.ts:190-198 | an intent is numbered next, put last and stored |
| OfflineQueue.Queue.DismissAttention | apps/s5-technician/src/offline.ts:200-202 | exactly the notes with that id go |
| OfflineQueue.Queue.BeginFlush | apps/s5-technician/src/offline.ts:222-229 | one flush at a time, and the batch is everything pending |
| OfflineQueue.Queue.FlushFailed | apps/s5-technician/src/offline.ts:230-233 | no answer changes nothing but the flush being over |
| OfflineQueue.Queue.FlushAnswered | apps/s5-technician/src/offline.ts:234-252 | answered entries leave, unanswered ones stay in front of what was enqueued meanwhile, declined ones are flagged |
| OfflineQueue.AnswerLate | apps/s5-technician/src/offline.ts:222-253 | an answer to a queue opened earlier on the same storage leaves a later one's memory alone and its stored copy as the earlier one has it |
| QueueContents.LogIsWhatWasEnqueued | apps/s5-technician/src/offline.ts:190-198 | over every run what was enqueued is exactly the intents made, in order, each with its id, device, table, record, operation, payload, observed version and moment; what is pending is its end |
| QueueContents.NotesSayWhatWasDecided | apps/s5-technician/src/offline.ts:204-221 | over every run each note shown is about an intent enqueued - its id, table and record - and says what the server decided of it |
| QueueContents.AnswerTakes | apps/s5-technician/src/offline.ts:234-252 | an answer leaves, in order, the batch's entries it does not name and what came after the batch, and adds, in order, a note on each entry whose last answer declines it |
| QueueContents.OwnArePicked | apps/s5-technician/src/offline.ts:154-166 | what a page trusts of storage is every entry of its own device, in order, and no other |
| QueueContents.WithoutArePicked | apps/s5-technician/src/offline.ts:200-202 | dismissing puts away every note of that id and no other, the rest in order |
| SyncRuns.EveryRunKeeps | apps/s5-technician/src/offline.ts:143-256 | one session's protocol invariant survives every step: losses, repeats, answers late within it, reloads mid-flush, other devices, the office |
| SyncTheorems.EachIntentLandsAtMostOnce | tools/demo/sync.ts:29-57 | in every run the job rows are the first ones with the events replayed over them, and no id is behind two of them |
| SyncTheorems.RecordedIsAPrefix | apps/s5-technician/src/offline.ts:222-252 | the server has recorded exactly a prefix of all that was enqueued; nothing leaves the queue outside it; an empty queue means all of it |
| SyncTheorems.QueueStaysInOrder | apps/s5-technician/src/offline.ts:154-252 | pending is strictly ascending with distinct ids, equals its stored copy and has the batch under way as a prefix; the server's sort never reorders a batch sent |
| SyncTheorems.EveryIntentIsAccountedFor | apps/s5-technician/src/offline.ts:190-252 | every intent is in exactly one of pending, answered applied or duplicate, or shown until dismissed |
| SyncTheorems.DeclinedIsShownIffItsAnswerArrived | apps/s5-technician/src/offline.ts:204-221 | a declined mutation is shown, in the server's terms, exactly when the answer taken was the deciding one |
| SyncAnswers.FirstDeliveryDecides | tools/demo/sync.ts:29-57 | over every run the first delivery an intent is in decides it, and every later one answers it a duplicate |
| SyncAnswers.ShownIffFirstAnswerCameBack | apps/s5-technician/src/offline.ts:204-221 | an answer arriving shows a declined mutation exactly when no earlier delivery reached the server with it |
| SyncTheorems.OneCleanExchangeDrains | apps/s5-technician/src/offline.ts:222-252 | from any reachable state, one exchange with nothing lost empties the queue with everything recorded |
| SyncTheorems.LostAnswerHidesDecisions | apps/s5-technician/src/offline.ts:204-221 | from any state with something pending there is a run that decides it all, empties the queue and shows nothing new |
| SyncTheorems.ARejectionNoOneSees | tools/demo/sync.ts:42-43 | one such run ends with a rejected move and no note |
| Projection.ProjectedJob | apps/s5-technician/src/offline.ts:115-125 | the loop computes the last queued move's state and one version more for each |
| Projection.ForecastIsTheLastMove | apps/s5-technician/src/offline.ts:115-125 | what is shown is the state the last queued move of the job names, "undefined" if it names none, and a version more for each; with none queued, the job as read |
| Projection.QueueLandsAsForecast | apps/s5-technician/src/offline.ts:109-125 | if nobody else changes the job and each move was offered at the forecast state, every move is applied and the job ends exactly as forecast |
| Projection.ForecastExactIffNothingLandedIsPending | apps/s5-technician/src/offline.ts:115-125 | over a copy with the first entries already in it the state is right, and the version exactly when none of them moves the job |
| ForecastRuns.ScreenForeseesIff | packages/ui/src/resource-store.ts:45-66 | over any copy of the job the store may still show, what the screen shows is the state everything enqueued will come to exactly when the copy is no older than the last answer taken, or a move of the job is pending, or the moves it misses left the state as it was |
| ForecastRuns.EveryMoveLandsIffOffered | apps/s5-technician/src/offline.ts:109-125 | over every run of losses, repeats, retries and reloads in which no one else touches the job, whatever its screens offered, its moves decided are all applied exactly when each was on offer from where those before it left the job, and then the row is their forecast |
| ForecastRuns.EveryRunEndsAsForeseen | apps/s5-technician/src/screens/job-detail.ts:51-76 | if besides each move was offered over a copy for which that screen's condition holds, each move decided is applied and the job ends as forecast |
| ForecastRuns.AStaleCopyOffersWhatIsDeclined | packages/ui/src/resource-store.ts:45-66 | a run with both moves of a job answered and the first copy still on the screen: it offers the first move again and the office declines it |
| Tick.Ticker.Tick | apps/s5-technician/src/app.ts:147-164 | against the queue and the outbox themselves: one batch, all that is pending, once the wait is over; wrap-ups only with nothing pending; nothing once the session has ended |
| Tick.Ticker.QueueFlushed | apps/s5-technician/src/app.ts:166-179 | an answer resets the pace, no answer doubles the wait up to a minute, a token refused ends the session and leaves the pace |
| Tick.Ticker.WrapsFlushed | apps/s5-technician/src/app.ts:158-162 | the same for wrap-ups, on a pace of their own |
| Tick.SomeWaiting | apps/s5-technician/src/app.ts:157 | the loop finds an entry to send exactly when there is one not refused |
| Tick.SixAndOneAMinute | apps/s5-technician/src/app.ts:141-182 | from the first wait on, six tries and one a full minute fit in any stretch of time, exactly so if it is over a minute and three seconds past its last full one |
| Tick.WaitsDouble | apps/s5-technician/src/app.ts:166-179 | after an answer the next try may go at once; each miss after it puts the next off by 1, 2, 4, 8, 16, 32 seconds and then a minute; a session's end leaves the pace |
| FlushOrder.EveryRunKeeps | apps/s5-technician/src/app.ts:61-182 | the order of the two flushes survives every step of queue, outbox, tick, taps and reloads, of sign-ins at any moment and of the answers to the sessions before them |
| FlushOrder.WrapUpsFollowTheQueue | apps/s5-technician/src/app.ts:155-158 | in every run, whatever the wrap-ups' flush sends, each intent enqueued before that flush began is recorded at the office, or was missing from storage when a page opened; a report's flush began after its submit, so that holds of all done before the submit |
| Sessions.UnlessAnsweredLate | apps/s5-technician/src/app.ts:61-182 | in every run in which no queue of an earlier session is answered after a later sign-in the protocol's invariant holds and nothing is lost, so everything enqueued before a wrap-ups' flush began is recorded at the office |
| Sessions.UnlessSignedInEarly | apps/s5-technician/src/app.ts:61-76 | the same of every run whose sign-ins come with no replay under way, which can be seen before signing in |
| Sessions.LateAnswerLosesIff | apps/s5-technician/src/offline.ts:244-248 | right after the first late answer of any run, a page that opens misses something exactly when something was enqueued since the sign-in that left the queue behind and not everything enqueued is with the office |
| WrapUpSessions.AwaitWritesIff | apps/s5-technician/src/wrap-ups.ts:147-257 | an await of the wrap-ups that is over saves drafts and outbox over what is stored exactly where it can be told before: any edit but the put of a signature over another, any answer, bytes found missing; otherwise it leaves them alone |
| WrapUpSessions.LateSaveLosesIff | apps/s5-technician/src/wrap-ups.ts:147-257 | at the first await of any run to be over after a later sign-in, storage then misses some submitted wrap-up not recorded, replaced or reopened exactly when that await saves and such a wrap-up on this session's page is not in the outbox left behind |
| WrapUpSessions.MediaFirst | apps/s5-technician/src/wrap-ups.ts:212-239 | over every run of the page, whatever flushes of earlier sessions go on, a report is sent only over media the office has recorded, so none is refused for missing any, and is whole |
| WrapUpSessions.NoShotIsLost | apps/s5-technician/src/wrap-ups.ts:224-225 | over every tidy run of the page whose sign-ins come with no edit and no flush of the wrap-ups under way, every shot has its bytes and no entry is refused as lost |
| WrapUpSessions.NothingSubmittedIsLost | apps/s5-technician/src/wrap-ups.ts:182-257 | over every run of the page whose sign-ins come with no edit and no flush of the wrap-ups under way, a submitted wrap-up not replaced and not reopened leaves the outbox only once the office has recorded it |
| LateAnswers.AnIntentIsLost | apps/s5-technician/src/offline.ts:244-248 | a run that ends with a wrap-up on its way and an intent made before that flush began neither at the office nor pending nor stored |
| LateAnswers.AWrapUpIsLost | apps/s5-technician/src/wrap-ups.ts:147-167 | a run that ends with a wrap-up submitted, not recorded, replaced or reopened, and storage without it, an earlier session's photo having been saved late |
| FlushPacing.StepSends | apps/s5-technician/src/screens/common.ts:60-64 | a batch goes out with a tick whose wait is over and with any tap that finds work and no replay under way, and with nothing else |
| FlushPacing.FewTriesInAnOutage | apps/s5-technician/src/app.ts:141-182 | over every run of L ms the tick tries at most 6 + L/60000 times, and 6 more for each answer, late ones too, and each reload, 1 for each session ended; all batches sent are at most those and one for each tap |
| FlushPacing.EveryRunIsPaced | apps/s5-technician/src/app.ts:141-182 | after every run the wait is between a second and a minute and the next try at most that wait off, so the bound holds from any moment on |
| FlushPacing.BoundIsMet | apps/s5-technician/src/app.ts:141-182 | 6 + L/60000 is reached by a run of the page, from any state with work queued and the first wait to come |
| FlushPacing.TapsAreNotPaced | apps/s5-technician/src/screens/common.ts:60-64 | any number of taps in one instant sends that many batches and leaves the pace as it was |
| FlushPacing.ReloadsAreNotPaced | apps/s5-technician/src/app.ts:141-146 | any number of reloads in one instant lets the tick try that often |
| WrapUps.MissingFor | apps/s5-technician/src/wrap-ups.ts:90-101 | the list is empty exactly for a ready draft, and names each thing exactly when it is missing |
| WrapUps.WrapUpBook.Edit | apps/s5-technician/src/wrap-ups.ts:147-151 | one job's draft is replaced and stored, all else kept |
| WrapUps.WrapUpBook.ShotStored | apps/s5-technician/src/wrap-ups.ts:160-166 | with a shot's bytes in, a photo joins the draft; a signature first has the old one's bytes deleted |
| WrapUps.WrapUpBook.SetSignature | apps/s5-technician/src/wrap-ups.ts:166 | a signature taken clears the absence |
| WrapUps.WrapUpBook.DropPhoto | apps/s5-technician/src/wrap-ups.ts:169-172 | exactly the photos of that id leave the draft |
| WrapUps.WrapUpBook.DropSignature | apps/s5-technician/src/wrap-ups.ts:173-177 | the draft's signature goes |
| WrapUps.WrapUpBook.Submit | apps/s5-technician/src/wrap-ups.ts:182-199 | a ready draft becomes the job's only outbox entry, last; otherwise nothing moves and something is named missing |
| WrapUps.WrapUpBook.Reopen | apps/s5-technician/src/wrap-ups.ts:200-209 | the job's entry becomes its draft again, shots and all |
| WrapUps.WrapUpBook.Forget | apps/s5-technician/src/wrap-ups.ts:242 | the bytes of one shot go, and nothing else |
| WrapUps.WrapUpBook.Replace | apps/s5-technician/src/wrap-ups.ts:216-217 | only the entry with that id is replaced or removed |
| WrapUpRuns.EveryRunKeeps | apps/s5-technician/src/wrap-ups.ts:139-257 | one session's outbox invariant survives every interleaving of edits, flush, losses, refusals and reloads |
| WrapUpRuns.MediaFirst | apps/s5-technician/src/wrap-ups.ts:212-239 | a report is sent only over media the office has recorded, so none is refused for missing any |
| WrapUpRuns.NothingSubmittedIsLost | apps/s5-technician/src/wrap-ups.ts:182-257 | a submitted wrap-up not replaced by a newer submit and not reopened leaves the outbox only once the office has recorded it |
| WrapUpRuns.EntriesStayWhole | apps/s5-technician/src/wrap-ups.ts:90-101 | every entry waiting or ever reported has enough photos and exactly one of signature and reason; a shot marked sent is at the office |
| WrapUpContents.MeasuredAre | packages/contracts/src/operations/wire/work.ts:291-301 | what a quote's measurements must be, field by field |
| WrapUpContents.ReportsSayWhatWasSubmitted | apps/s5-technician/src/wrap-ups.ts:182-239 | over every run each entry waiting, in storage too, and each report sent carries the job, moment, finish, trimmed notes, measurements exactly for a quote, photos and signature or reason of the draft submitted under its id |
| WrapUpContents.SubmitThenReopen | apps/s5-technician/src/wrap-ups.ts:182-209 | submit and reopen give the draft back, but for white space around its texts, measurements not asked for, and the signature or reason it did not go by |
| WrapUpContents.PhotoJoins | apps/s5-technician/src/wrap-ups.ts:158-165 | a photo whose bytes are in is its draft's last, its bytes are kept under its id, and nothing else changes |
| WrapUpContents.SignatureTaken | apps/s5-technician/src/wrap-ups.ts:158-167 | a signature is the draft's at once, or once the old one's bytes are gone, and the customer is no longer absent |
| WrapUpContents.ShotsDropped | apps/s5-technician/src/wrap-ups.ts:169-177 | a photo removed or a signature cleared is gone from its draft, and the rest of it stays |
| WrapUpContents.RefusedStays | apps/s5-technician/src/wrap-ups.ts:243-249 | a wrap-up refused stays in the outbox, marked lost exactly when a shot's bytes are gone; every other entry, draft, shot and call stays |
| WrapUpContents.NotOfJobArePicked | apps/s5-technician/src/wrap-ups.ts:182-199 | a submission takes the place of its job's entries, and the others stay in order |
| WrapUpContents.WaitingArePicked | apps/s5-technician/src/wrap-ups.ts:218-220 | a flush goes over exactly the entries not refused, in order |
| WrapUpDrains.OneCleanFlushDrains | apps/s5-technician/src/wrap-ups.ts:212-239 | from any state whose waiting entries have their bytes, one flush with nothing lost sends each in the outbox's order - photos not yet sent in theirs, signature, report - and leaves each with the office, out of the outbox and its bytes deleted, all else as it was |
| WrapUpDrains.EveryWrapUpGoes | apps/s5-technician/src/wrap-ups.ts:212-257 | so does one from any state a tidy run reaches with no flush under way, and none is left waiting |
| WrapUpShots.EveryShotHasOneOwner | apps/s5-technician/src/wrap-ups.ts:158-255 | over tidy runs no shot is named by two drafts, two entries, or a draft and an entry |
| WrapUpShots.NoShotIsLost | apps/s5-technician/src/wrap-ups.ts:224-225 | over tidy runs every shot an entry names has its bytes, and every photo and signature of a draft but one a suspended edit is dropping; so the lost-shot branch is never taken |
| WrapUpShots.ReloadKeepsShotsIff | apps/s5-technician/src/wrap-ups.ts:169-177 | after a reload every shot of every draft has its bytes exactly when no suspended edit had deleted those of a shot its draft still named |
| WrapUpShots.SubmitKeepsShotsIff | apps/s5-technician/src/wrap-ups.ts:182-199 | a submit sends only shots that have their bytes exactly when no suspended edit had deleted those of one of them |
| Csv.Records | tools/import/csv.ts:22-59 | the loop over indices computes the turn-by-turn reading the lemmas are about |
| Csv.PrintedTableReadsBack | tools/import/csv.ts:1-59 | any table printed by section 2 of RFC 4180, with any legal quoting and CRLF, CR or LF breaks, is read back field for field, each record with its physical line |
| Csv.LastBreakIsOptionalIffItsRowShows | tools/import/csv.ts:56-58 | the last break may be left off exactly when the last row is not one empty field |
| Csv.ReadingIsANormalForm | tools/import/csv.ts:22-59 | whatever any text reads as, written out quoted it reads the same |
| CsvFiles.CheckNames | tools/import/csv.ts:66-71 | header names pass exactly when distinct and not blank; otherwise the fault is that of the first that is blank or was there before |
| CsvFiles.RowOf | tools/import/csv.ts:74 | every header names its own trimmed field, or nothing where the row is short |
| CsvFiles.ParseCsv | tools/import/csv.ts:61-77 | exactly which texts are files, what rows they have, and for every other text the fault and its line |
| CsvContents.TrimsToOne | tools/import/csv.ts:62-75 | a trimmed text is the one way to take white space, as the language's standard lists it, off both ends and leave none there |
| CsvContents.KeptAre | tools/import/csv.ts:62 | the records kept are exactly those with a character that is not white space in some field, each once, in order |
| CsvContents.FileReadsBack | tools/import/csv.ts:61-77 | any table written out with a header whose trimmed, lower-cased names are distinct and not blank, and no longer row, comes back whole: every row not blank throughout, under its own line, with every field trimmed under its header |
| CsvContents.OpenQuoteIsRefused | tools/import/csv.ts:56 | a quoted field left open is refused under the line its row starts on |
| CsvContents.QuoteInsideIsRefusedIff | tools/import/csv.ts:41-44 | a quote after bare text is refused under its own line exactly when that text is not all white space |
| ImportSteps.OneOn | tools/import/importer.ts:244-541 | after its first write a row of any file has exactly the rest of its writes left, and ends the same |
| ImportStays.Stays | tools/import/importer.ts:244-541 | a row with nothing left to write keeps nothing to write under any write of its own or a later file |
| ImportRuns.TakesUpWhereItStopped | tools/import/importer.ts:244-541 | a row stopped after any of its writes has exactly the others left |
| ImportRuns.RunAgainAfterCut | tools/import/importer.ts:79-123 | a cut-off run, run again, leaves what one whole run leaves, each row ending as it would |
| ImportTheorems.RowEffect | tools/import/importer.ts:367-445 | a row's whole effect: its own writes, and its address laid over the site it comes to |
| ImportTheorems.ImportEffect | tools/import/importer.ts:79-123 | an import's whole effect is its rows' writes and the addresses laid down in order |
| ImportTheorems.ImportResumes | tools/import/importer.ts:79-123 | an import cut off in any row after any of its writes, run again whole, ends as one uninterrupted run |
| ImportPrefixes.AnyPrefixResumes | tools/import/importer.ts:225-233 | the same for any prefix of the run's writes |
| ImportPrefixes.StoppedRunResumes | tools/import/importer.ts:225-233 | whatever a run that stopped left, its last write made without an answer included, run again whole it ends as one uninterrupted run |
| ImportTheorems.SecondRunChangesNothing | tools/import/importer.ts:20-22 | a second whole run leaves what the first left |
| ImportTheorems.SecondRunIsSilentIffRowsAgree | tools/import/importer.ts:435-444 | the second run writes nothing exactly when no two rows give one site different values for one address field |
| ImportTheorems.SilentRowsSkip | tools/import/importer.ts:104-120 | a run that writes nothing skips or rejects every row |
| ImportPromises.EveryRowLands | tools/import/importer.ts:244-541 | after an import, what every row not refused asks for is held: firm, crew, technician, dated credential, site in its tree, agreement with its terms |
| ImportPromises.NothingIsMadeTwice | tools/import/importer.ts:20-22 | no firm, crew, technician, credential, customer, active region node, location, site by its reference or by its name if it has none, master agreement or term is there twice after an import if none was before, however often the files name it |
| ImportMeaning.RowIsMeant | tools/import/importer.ts:244-541 | for a row of any file, told by the tables alone: each refusal exactly when it is due; otherwise every column of what is made or changed - a firm's status, MSA and facts, a crew's and a technician's firm and crew, a credential's dates, a customer's name, segment and tree, an agreement's dates, billing, region and terms - and each address field |
| ImportRecords.ImportKeeps | tools/import/importer.ts:79-123 | no import drops, moves or changes what was held, but to put a firm in service, give it its first MSA, verify a credential or bring an agreement to life |
| ImportRecords.ImportIsMeant | tools/import/importer.ts:79-123 | row t of an import leaves what its columns say of what the rows before it left, and that is still there at the end |
| ImportRecords.FirstRowMakesTech | tools/import/importer.ts:289-320 | when an import is over, the first row not refused for a name and firm not held before has left a technician with its text and facts, on the held crew of its title, region and firm, and on none exactly if it names none |
| ImportSources.EveryRecordCameOfARow | tools/import/importer.ts:244-541 | when an import is over, whatever any table has that it had not before is, column by column, what one of the rows says |
| ImportReports.RowReports | tools/import/importer.ts:104-120 | a row is rejected exactly if refused, skipped exactly if nothing changed, created exactly if a table but the terms' grew; its deeds are what was made and changed, in order; and what it names is what is on file |
| ImportReports.EveryRowReports | tools/import/importer.ts:104-120 | an import's reports are its rows', in order, each of what the rows before it left |
| ImportPrefixes.ImportIsItsWrites | tools/import/importer.ts:104-120 | what an import leaves is its list of writes applied, and nothing else |
| ImportIndex.AtLoad | tools/import/importer.ts:179-191 | what is read at the start, with nothing else cached, shows what the gateway holds |
| ImportIndex.NotedOrg | tools/import/importer.ts:393-412 | noting a new organization leaves the index showing the gateway with it, though its place is minted by the index in a dry run |
| ImportIndex.NotedOther | tools/import/importer.ts:244-541 | the same for every other write, dry or real |
| ImportIndex.ReadNodes | tools/import/importer.ts:193-198 | a first read of an organization's nodes leaves the index showing what is there; in a dry run one of the run's own reads as empty |
| ImportCourse.Onward | tools/import/importer.ts:225-233 | one write on, the index shows the new state and the row has exactly one write fewer to make |
| Importer.Gateway.Write | tools/import/importer.ts:225-233 | a write is admitted whole and answered, or the gateway has stopped answering, with the write made or not |
| Importer.Importer.constructor | tools/import/importer.ts:179-191 | the loop that indexes organizations by reference keeps the last of each, and the index shows the gateway |
| Importer.Importer.Send | tools/import/importer.ts:225-233 | a dry run sends nothing |
| Importer.Importer.Note | tools/import/importer.ts:257-269 | each write's change to the index |
| Importer.Importer.Make | tools/import/importer.ts:225-233 | a write and its note move the row one write on, or the run stops with the gateway exactly so far |
| Importer.Importer.LoadFirm | tools/import/importer.ts:244-271 | a firms row makes exactly its plan and reports it; dry, the same report and no write; cut off, exactly the writes answered, or one more that was not |
| Importer.Importer.LoadCrew | tools/import/importer.ts:273-287 | the same for a crews row, the report naming the firm as it is on file |
| Importer.Importer.LoadTechnician | tools/import/importer.ts:289-320 | the same for a technicians row, a missing crew reported with the firm on file |
| Importer.Importer.LoadCredential | tools/import/importer.ts:322-356 | the same for a credentials row, with and without verification, the report naming the crew and, in conflict, the dates on file |
| Importer.Importer.FindOrMake | tools/import/importer.ts:414-426 | the first node that fits, or one made and appended |
| Importer.Importer.LoadSite | tools/import/importer.ts:427-433 | a site made with its address, refused where it is filed elsewhere, or found |
| Importer.Importer.LoadAddress | tools/import/importer.ts:434-445 | a site's address is merged only if a given field differs, and the report names the site on file only then or where nothing was made |
| Importer.Importer.LoadCustomer | tools/import/importer.ts:367-445 | the same for a customers row: household, or organization, region, location, site and address, each node reported with its tier; a segment in conflict as it is on file |
| Importer.Importer.WriteTerms | tools/import/importer.ts:519-530 | the loop writes exactly the terms not on file, in order |
| Importer.Importer.FirstConflict | tools/import/importer.ts:499-505 | the loop finds the first term on file otherwise, and none exactly when no term on file differs |
| Importer.Importer.LoadAgreement | tools/import/importer.ts:468-541 | the same for an agreements row: draft, terms, activation; the report names the customer and any signing or term in conflict as they are on file |
| Importer.Importer.Run | tools/import/importer.ts:104-122 | dry: the real run's reports and an unchanged gateway; real: the whole import, or exactly as many of its writes as were answered, or one more, with the finished rows' reports |
| Importer.RunImport | tools/import/importer.ts:79-123 | the same from a fresh index: a dry run predicts the real run's every report |
| Orders.WantsFault | tools/demo/handlers.ts:850-854 | an order's lines pass exactly when each item is the vendor's, priced and wanted in some quantity |
| Orders.FindPo | tools/demo/model.ts:813 | the order found is one asked for that the viewer sees; none is found only if there is none |
| OrderRuns.NoFault | tools/demo/handlers.ts:881-884 | a request passes the check exactly when each part by itself names a line of the order and fits what was taken before |
| OrderRuns.StepKeeps | tools/demo/handlers.ts:846-928 | every write keeps ids, totals and what each state says; and keeps shipped and received within ordered, returned within received, exactly when the request's quantities added up by line fit |
| OrderRuns.PlainFits | tools/demo/handlers.ts:877-903 | a request that names each line at most once always fits |
| OrderRuns.EveryRunKeeps | tools/demo/handlers.ts:846-928 | over every run of such requests: the bounds hold; an acknowledged order has a line still to come, a received one none; a cancelled one has no shipment |
| OrderGoods.StepLeavesCancelledEmptyIff | tools/demo/handlers.ts:846-928 | from books where no cancelled order has goods, a write leaves one that has exactly when it cancels an order goods have come in for |
| OrderGoods.EveryRunLeavesCancelledEmpty | tools/demo/handlers.ts:846-928 | over every run whose receipts take in only what was shipped, no cancelled order ever has goods, nor any line more than was shipped |
| OrderGoods.EveryRunFromNothing | tools/demo/handlers.ts:846-928 | both promises from empty books: the bounds over every run that names each line once a request, and empty cancelled orders where receipts take in only what was shipped |
| OrderGoods.NamingALineTwiceOverReceives | tools/demo/handlers.ts:888-897 | a run from nothing in which a request naming a line twice is accepted and receives more than was ordered |
| OrderGoods.ACancelledOrderMayHaveGoods | tools/demo/handlers.ts:865-870 | a run from nothing that cancels an order with goods received and no shipment recorded |
| OrderRuns.OrdersOnlyMoveForward | tools/demo/handlers.ts:846-928 | no write drops, reorders or re-prices an order, and its state only moves forward |
| OrderRuns.NothingIsUnrecorded | tools/demo/handlers.ts:846-928 | shipments and receipts are only ever added to |
| OrderRuns.AnswerReturns | tools/demo/handlers.ts:921-928 | a return denied gives back exactly its quantity, one authorized nothing |
| OrderRuns.TotalIsWithinHalfAUnitALine | tools/demo/model.ts:768 | 1000 times an order's total is within 500 a line of the exact sum |
| OrderBooks.OrderBook.CreateOrder | tools/demo/handlers.ts:846-859 | the first bad line refuses the order; otherwise each line is priced, the total summed and a draft added last |
| OrderBooks.OrderBook.Issue | tools/demo/handlers.ts:860-864 | only a draft the viewer sees is issued |
| OrderBooks.OrderBook.Cancel | tools/demo/handlers.ts:865-870 | only an order not yet received, with no shipment, is cancelled |
| OrderBooks.OrderBook.Acknowledge | tools/demo/handlers.ts:871-876 | only an issued order, promised for today or later |
| OrderBooks.OrderBook.CheckParts | tools/demo/handlers.ts:881-884 | the loop finds the first part's fault, against sums read once before the request |
| OrderBooks.OrderBook.Ship | tools/demo/handlers.ts:877-887 | a shipment is recorded whole or refused whole |
| OrderBooks.OrderBook.Receive | tools/demo/handlers.ts:888-898 | one receipt a part, and the order received once every line is |
| OrderBooks.OrderBook.RequestReturn | tools/demo/handlers.ts:914-920 | a return goes first on the list if what is returned stays within what came |
| OrderBooks.OrderBook.Answer | tools/demo/handlers.ts:921-928 | a vendor answers its own request once |
| OrderWrites.EveryWriteAnswers | tools/demo/handlers.ts:860-920 | how each write on an order is answered, by the order the viewer sees: what it takes to go through, and the first thing wrong otherwise |
| OrderWrites.EveryWriteDoes | tools/demo/handlers.ts:860-920 | an accepted write changes that order's state alone, or adds its one shipment, its receipts part by part, or its return in front; a refused one nothing |
| OrderWrites.NewOrders | tools/demo/handlers.ts:846-859 | a new order is refused for the first thing wrong with it, or is a draft added last under new ids, each line at its item's accepted price |
| OrderWrites.AnswersToReturns | tools/demo/handlers.ts:921-928 | a return is answered by its own vendor, once and completely, and only its state changes |
| OrderWrites.SumsAddUp | tools/demo/model.ts:803-809 | what was shipped, received and returned of a line are sums over the rows that name it, denied returns left out |
| Accounts.WalkUp | tools/demo/model.ts:530-535 | the walk up ends, with exactly the node and everything over it |
| Accounts.Descendants | tools/demo/model.ts:524-529 | the fixpoint loop ends, and a node is in it for x exactly when x is among the node's ancestors |
| Accounts.ClosedReaches | tools/demo/model.ts:524-529 | a set closed under children has everything below any node in it |
| AccountTrees.StepKeeps | tools/demo/handlers.ts:285-321 | every create or move keeps region over location over site, one organization, each node in its parent's region |
| AccountTrees.EveryRunKeepsAForest | tools/demo/handlers.ts:285-321 | so does every run of them |
| AccountTrees.MovedHangsUnder | tools/demo/handlers.ts:309-321 | after a move the node's line goes up through its new parent, and nodes outside it keep theirs |
| AccountTrees.SameBelow | tools/demo/handlers.ts:317-318 | what is below a node is the same before and after it is hung elsewhere, so the loop that follows moves the right ones |
| AccountTrees.TiersRuleOutCycles | tools/demo/handlers.ts:314-316 | a move the cycle check refuses is one the tier check would refuse |
| AccountTrees.SeenUpToTheTop | tools/demo/model.ts:539-546 | who sees a node sees its parent |
| AccountBooks.AccountBook.Create | tools/demo/handlers.ts:285-308 | every refusal in its order, or a new node in its parent's region |
| AccountBooks.AccountBook.Move | tools/demo/handlers.ts:309-321 | every refusal in its order, or the node hung and everything below it in the parent's region, the rest untouched |
| AccountBooks.AccountBook.TakeRegion | tools/demo/handlers.ts:319 | the loop changes exactly the moved nodes' region |
| AccountBooks.AccountBook.VisibleTo | tools/demo/model.ts:539-546 | a customer's login is listed exactly its organization's nodes, or its own node's line up and down |
| AccountWrites.CreateReplies | tools/demo/handlers.ts:285-308 | when a create is answered, and each refusal, by the nodes and the request alone |
| AccountWrites.CreateAdds | tools/demo/handlers.ts:303-308 | an answered create leaves the old nodes as they were and one more: the replied id and region, the asked organization, tier and parent, found by its id; a refused one nothing |
| AccountWrites.MoveReplies | tools/demo/handlers.ts:309-316 | when a move is answered, and each refusal, by the nodes alone |
| AccountWrites.MoveMoves | tools/demo/handlers.ts:317-321 | an answered move hangs the node under its new parent and puts what was at or below it in the parent's region; nothing else of any node changes |
| RateCards.RateBook.Set | tools/demo/handlers.ts:540-555 | every refusal in its order; the card in force is closed before the multiplier is read; a new card carries its currency and its emergency rate |
| RateCards.StepKeepsOneADay | tools/demo/handlers.ts:545-547 | no change, accepted or refused, makes two cards for one firm, service and day |
| RateCards.EveryRunKeepsOneADay | tools/demo/handlers.ts:540-555 | nor does any run |
| RateCards.AcceptedPrices | tools/demo/handlers.ts:548-553 | an accepted change sets the price on exactly its own half-open interval and clears later days; earlier days, other firms and services keep theirs |
| RateCards.RefusedAltersCardsIff | tools/demo/handlers.ts:540-555 | a refused change alters the cards exactly when its multiplier does not read, its rate, service and firm do and no later card stands, and a card from before is in force on its first day |
| RateCards.RefusedPrices | tools/demo/handlers.ts:540-555 | then exactly the prices of its firm and service from its first day on are gone, and otherwise every price stays |
| RateCards.EmergencyRounds | tools/demo/handlers.ts:549-553 | the emergency rate is within half a minor unit of the rate times the multiplier |
| RateCards.SetReplies | tools/demo/handlers.ts:540-552 | each refusal of a change exactly when it is due, card by card; otherwise the new id, and that of the card closed for it |
| RateCards.OverlapNames | tools/demo/handlers.ts:547 | the day an overlap names is the first later card's, or the change's own |
| RateCards.AcceptedChange | tools/demo/handlers.ts:548-555 | an accepted change ends the card in force on its first day, leaves every other, and adds one with all it asks for, its emergency rate within half a minor unit of rate times multiplier |
| RateCards.RefusedChange | tools/demo/handlers.ts:540-552 | a refusal adds no card and changes none but the card in force when only the multiplier does not read |
| RateCards.ARefusalThatTakesThePriceAway | tools/demo/handlers.ts:548-551 | such a refusal leaves no price from that day on |
| Punches.SpansOf | apps/s5-technician/src/punches.ts:25-34 | the loop pairs each in with the next out |
| Punches.SpansAscend | apps/s5-technician/src/punches.ts:25-39 | spans are ascending and apart, only the last open, and that exactly when the last punch is an in |
| Punches.WorkedIffClockedIn | apps/s5-technician/src/punches.ts:20-34 | a moment lies in some span exactly when the last punch at or before it is an in |
| PunchWeeks.SortedIsInOrder | apps/s5-technician/src/punches.ts:14-18 | merged punches are oldest first, whatever order they came in |
| PunchWeeks.SecondOfAKind | apps/s5-technician/src/punches.ts:20-24 | a punch right after another of its kind changes no span |
| PunchWeeks.PunchOnBothSides | apps/s5-technician/src/punches.ts:14-34 | a queued punch the server already holds, the only other one of its time, changes no span |
| PunchWeeks.OnOneDay | apps/s5-technician/src/punches.ts:51-58 | a moment of the week falls on exactly one of its days |
| PunchWeeks.DaysAddUp | apps/s5-technician/src/punches.ts:41-58 | the days' totals come to the worked time of exactly the spans that started in the week |
| PunchWeeks.MergedHasBoth | apps/s5-technician/src/punches.ts:14-18 | merged are the server's punches and the device's, each as often as on either side, oldest first |
| PunchTimes.EverySpanIsMadeOf | apps/s5-technician/src/punches.ts:20-34 | a span is an in and the first out after it, or the last in with none after; queued exactly if one of its punches is |
| PunchTimes.TotalCounts | apps/s5-technician/src/punches.ts:41-58 | the worked time of spans apart is the number of milliseconds in them, an open one's to now, none twice |
| PunchTimes.DayHasItsSpans | apps/s5-technician/src/punches.ts:50-58 | a day has, in order, exactly the spans that started on it, and its time is the number of milliseconds in them |
| Documents.DocSummary | tools/demo/model.ts:592-612 | the loop puts each kind where it stands and keeps the soonest of the latest last days |
| Documents.LastDay | tools/demo/model.ts:607 | the latest last day of the covering documents, if any covers |
| Documents.EachKindOnce | tools/demo/model.ts:592-612 | each required kind is in exactly one of the four lists |
| Documents.EachListIsWhatStandsSo | tools/demo/model.ts:592-612 | each list has, in order, the required kinds of which no document is held; some but none verified; some verified but none of them holding today; one holding today |
| Documents.EarliestIsTheLastGoodDay | tools/demo/model.ts:606-609 | the earliest expiry is the last day on which every satisfied kind still has one of today's covering documents |
| Documents.SatisfiedUntilTheEarliest | tools/demo/model.ts:592-612 | with documents unchanged, a kind satisfied today is satisfied every day until then |

## Left out

- Importer.RunImport: rows arrive already parsed and each file's headers already checked (importer.ts:90-101); of the fields' own faults only that the row is refused is kept, and where a row has two faults the model may name the other; a value's text, its date and term formats are not modelled, and a report is its outcome, what was done, the reason and the values it names that are on file, without its line and wording.
- Importer.Importer.Run: reports carry no file and line, as RunImport says.
- Importer.Gateway.Write: the gateway admits every write until it stops answering; a refusal part-way through a row, after which the index misses what was written (importer.ts:265-269, 350-354), is not modelled, and a read that fails counts as the gateway stopping at the next write.
- ImportPromises.NothingIsMadeTwice: a site that has a reference may share its name and location with another, since the program looks it up by reference alone.
- Importer.Importer.Note: a firm or a credential made and at once activated or verified is noted after each write here, after both in the program; a run cut off between them never looks at its index again.
- ImportIndex.NotedOther: a household's own tree, made by the gateway inside one write, is not modelled; such a customer's rows never read it.
- WrapUpRuns.EveryRunKeeps: speaks of one session's wrap-ups and of reloads; with sign-ins MediaFirst holds of every run of the page and NothingSubmittedIsLost as WrapUpSessions states them.
- WrapUpShots.NoShotIsLost: holds of one session's runs that reopen only refused entries, remove only a job's own photo, and neither submit nor reload while an edit that has deleted bytes has yet to drop the shot from the draft. Sessions share one media store: a flush left behind may finish an entry and delete its bytes while a later session still holds it, whose own flush then refuses it as lost; with sign-ins it holds as WrapUpSessions.NoShotIsLost says.
- SyncRuns.EveryRunKeeps: speaks, as do SyncTheorems and SyncAnswers, of one session's queue and its reloads; with sign-ins the same invariant holds of every run of the page in which no queue left behind is answered (Sessions.UnlessAnsweredLate), and what fails otherwise is Sessions.LateAnswerLosesIff.
- WrapUpDrains.OneCleanFlushDrains: an upload is its shot's id; the job, kind, moment and bytes it carries beside it are not modelled.
- WrapUps.MissingFor: measurements are numbers already; half-typed text, its parsing and which measurement is at fault are not modelled, and previews are left out.
- OfflineQueue.Queue.constructor: stored JSON that does not parse, blocked site data, and the job clock are not modelled, nor is the count of other technicians' queued work.
- OfflineQueue.Own: stored entries have the shape of entries; the tests of their types (offline.ts:160-162) are not modelled.
- OfflineQueue.Queue.FlushFailed: the error kept for the tick to read is the reply the tick is given (Tick.Ticker.QueueFlushed), not a field of the queue.
- Flushes.Next: a sign-in is that of the same technician on the same device; the running clock and a sign-in that fails are not modelled.
- OrderBooks.OrderBook.CreateOrder: receiving points, numbering and three-way matching of invoices are not modelled; quantities and money are numbers already.
- AccountTrees.StepKeeps: crew-density caveats, names and addresses of nodes are not modelled.
- RateCards.RateBook.Set: rates and multipliers are numbers already, or unreadable.
- PunchWeeks.DaysAddUp: the week's midnights are any ascending numbers; calendars and time zones are not modelled.
- New ids are numbers never given out before; text wording, UTF-16 and browser storage limits are not modelled.
- The screens, and the demo's events, audit log and catalogue prices are not modelled.
- The rest of the repository (settlements, invoices, dispatch, the database's own constraints) is not modelled.
