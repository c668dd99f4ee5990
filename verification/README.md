# Helianthus verification models

Dafny models of the state machines and transformations inside the Helianthus Home Assistant integration,
with proofs of what they promise. Each module follows one part of the program. An object whose methods update
its fields is a `class`; its methods are proved against functions on values, and the theorems are about those
functions, over all inputs, all runs and all interleavings. `dafny verify dfyconfig.toml` checks the whole project.

Every asynchronous method runs on one event loop, so an atomic step is the stretch between two awaits. An await may
return, fail or be cancelled, and any other step may come in between. I/O, the clock, hashes and framework calls are
parameters: outcomes of awaits, an arbitrary clock stream, an arbitrary digest function.

| module | part of the program | main results |
|---|---|---|
| `MigrationTransaction` | ownership handoff through a durable journal | memory and journal agree in every run, crash and failure; the two sides are never at work together; superseded tokens stay dead |
| `ActionBroker`, `PairingController` | one-shot action broker and its clients | no ABA; one terminal for each activation, in time; a flow touches its own action only |
| `SnapshotSchema`, `DecimalText`, `SchemaDecoder`, `SchemaTyping` | table-driven query and decoder | the query selects exactly what the decoder demands; just the well-typed responses decode, and decoding is invertible both ways; decimals compare exactly |
| `AssetAccounting`, `SensorReading`, `AcceptedViews` | cross-reference checks and the sensor that relies on them | dispositions partition the fact keys; evaluations are a bijection; a reading is traced to a current source |
| `ZoneRetention`, `RetentionHistory`, `SemanticCoordinator`, `WriteFence` | retained zones and domestic hot water, and the write fence | what is retained and published is a function of the history of polls and events, exactly while nothing expired is merged back or left published; every write goes out while its zone is fresh and admission is trusted |
| `RadioRetention` | retained radio devices | kept iff recently active, shown as last seen, in order |
| `PercentEncoding`, `CanonicalJson`, `SemanticIdentity` | unique ids of semantic sensors | injective and invertible up to the order of dimensions |
| `JsonDepth` | byte scanner before the JSON parser | accepts exactly the documents of nesting at most 64 |
| `MigrationPlan` | collision-safe migration proposals | every request in exactly one list; order does not matter |
| `SnapshotLifecycle` | polling lifecycle of the semantic snapshot | one read in flight; closed means quiet; unsupported is final |
| `M2MEvaluation`, `EvseProjection`, `EvseEvolution` | EVSE consumer | every published key accounted once; descriptors grow and are stored before they are published |
| `M2MEvaluation`, `PvProjection`, `PvStore` | photovoltaic consumer | the same accounting with its own tables; three formats of one store load as one |
| `Prelude`, `Distinctness` | shared helpers | runs as folds; sequences without repetition |

## Findings

* **Expired data stays published, and can come back.** When nothing is left to retain, a transport gap fails the refresh
  without publishing, but the framework keeps the old published data
  (`custom_components/helianthus/coordinator.py:969-974`, `1050-1054`): expired zones and expired hot water data stay
  there (`RetentionHistory.AnExpiredZoneStaysPublished`, `RetentionHistory.ExpiredDhwStaysPublished`), and the next
  subscription event merges into them. An event of another zone brings an expired zone back as a whole, still marked as
  stale (`RetentionHistory.AnExpiredSiblingCanComeBack`). An event of the zone itself brings back every field that it does
  not give, with no mark (`RetentionHistory.ExpiredFieldsComeBack`); one poll and one event later these fields are served
  as fresh by a coordinator that reports success (`RetentionHistory.ExpiredFieldsAreServedAsFresh`). A hot water event
  does the same to expired hot water data at once (`RetentionHistory.ExpiredDhwComesBackFresh`).
  The exact conditions, each on an event and the state it meets:
  what is retained of a zone is as its history says iff no event merges into an expired entry of it
  (`RetentionHistory.RetentionMatchesHistoryIff` for presence, `RetentionHistory.ContentsMatchHistoryIff` for contents;
  `RetentionHistory.DhwContentsMatchHistoryIff` for hot water); what is published is as its history says iff no transport
  gap comes with nothing left to retain while it is published (`RetentionHistory.PublishedMatchesHistoryIff`,
  `RetentionHistory.PublishedDhwMatchesHistoryIff`). Runs whose refreshes all succeed meet all of them
  (`RetentionHistory.SuccessfulRunsShowHistory`). No zone is written to that the latest full poll missed and no event
  has named since, so the write fence holds in every run; but it knows zones, not fields.
* **An over-long unique id is written but not read back.** The EVSE descriptor store is written without the length and
  prefix checks that loading applies, so a descriptor whose unique id exceeds 255 characters is lost at the next start
  (`EvseEvolution.LongIdsAreForgotten`). With 64-character digests no restart of any run forgets a descriptor exactly when
  the entry's id has at most 185 characters (`EvseEvolution.ForgetsNothingIff`).
* **The last energy disposition decides.** When several dispositions of the photovoltaic projection name the lifetime
  energy item under different kinds, each overwrites the verdict of the one before
  (`custom_components/helianthus/pv_m2m.py:221-222`), so acceptance can depend on their order
  (`PvProjection.EnergyDependsOnOrder`, `PvProjection.AnAcceptedProjectionCanBeReordered`). The order of a projection
  that is sound otherwise does not matter exactly when none of those dispositions is right or all of them are
  (`PvProjection.EnergyOrderIrrelevantIff`); as no pair is named twice, that is: none is right, or no other one names the
  item (`PvProjection.OneVerdictIff`).
* **A zero energy coefficient leaves canonical form.** Watt-hours are made by three zeros behind the coefficient, which
  keeps the value; of the canonical integers only `0` becomes a text that is none (`PvProjection.WattHoursKeepTheirWorth`).
* **A closed coordinator can go on reporting success.** A cancellation while `_close` joins its tasks still joins them but
  skips the reset of `last_update_success` (`custom_components/helianthus/semantic_snapshot_coordinator.py:139-149`).
  `SnapshotLifecycle.AClosedCoordinatorCanReportSuccess` is a run. Closes leave no success reported exactly when no join
  is interrupted while one is (`SnapshotLifecycle.ClosesReportNoSuccessIff`; `SnapshotLifecycle.ACloseReports` says it of
  one close, whatever happens while it joins). What is reported then stays until the next start or close
  (`SnapshotLifecycle.ClosedGoesOnReporting`), with no poller and no read alive: a sensor's guard
  (`SensorReading.SensorShows`) still passes, so it keeps showing the old value.

## Model

| member | source | states |
|---|---|---|
| MigrationTransaction.RecoveryOwner | custom_components/helianthus/semantic_migration_transaction.py:50-56 | an owner is recovered only from a record of this very pair that names a settled owner |
| MigrationTransaction.StepKeepsInv | custom_components/helianthus/semantic_migration_transaction.py:115-189 | every atomic step, whatever its await brings, keeps the protocol's invariant: owner, token, journal, drains and history |
| MigrationTransaction.RunKeepsInv | custom_components/helianthus/semantic_migration_transaction.py:88-189 | so does every run, with failed, cancelled and half-done calls and restarts anywhere |
| MigrationTransaction.MemoryAgreesWithJournal | custom_components/helianthus/semantic_migration_transaction.py:140-189 | in every run SHARED in memory means SHARED in the journal and LEGACY means LEGACY; an exceptional exit leaves UNRESOLVED or a durably aborted LEGACY |
| MigrationTransaction.SidesNeverOverlap | custom_components/helianthus/semantic_migration_transaction.py:126-138 | legacy and shared workers are never live together, and every attach is called right behind a complete four-step drain |
| MigrationTransaction.AbortsFollowADecision | custom_components/helianthus/semantic_migration_transaction.py:140-189 | between an attempted commit and a later abort there is always a recovery read that selected LEGACY, or a restart that vouched for it |
| MigrationTransaction.TokensAtSuspensions | custom_components/helianthus/semantic_migration_transaction.py:115-124 | at every suspension point token and owner match, and inside an operation no token is admitted |
| MigrationTransaction.FencedTokensStayFenced | custom_components/helianthus/semantic_migration_transaction.py:115-124 | a token that has been superseded is never admitted again |
| MigrationTransaction.SharedIsAbsorbing | custom_components/helianthus/semantic_migration_transaction.py:140-167 | within one lifetime SHARED, its token and its journal record stay |
| MigrationTransaction.RefusedStarts | custom_components/helianthus/semantic_migration_transaction.py:140-149 | a migration of an owner that is not LEGACY, or that is not admitted, and a recovery of a settled owner touch nothing; how each ends |
| MigrationTransaction.UnadmittedStaysLegacy | custom_components/helianthus/semantic_migration_transaction.py:140-149 | within one lifetime, without an admitted migration, LEGACY is never fenced, its token never replaced and its journal never written |
| MigrationTransaction.UnresolvedStaysFenced | custom_components/helianthus/semantic_migration_transaction.py:140-189 | within one lifetime, without a recovery, a fenced pair stays fenced whatever is asked for |
| MigrationTransaction.RecordsSelectIff | custom_components/helianthus/semantic_migration_transaction.py:50-56 | a settled owner is selected exactly by a record of this very pair that names it |
| MigrationTransaction.ScriptIsARun | custom_components/helianthus/semantic_migration_transaction.py:140-189 | an operation fed the outcomes of its awaits is a run of the machine, so the run theorems apply to the class |
| MigrationTransaction.MigrateSucceeds | custom_components/helianthus/semantic_migration_transaction.py:140-167 | if every await returns, migration ends SHARED with a durable record and a new token |
| MigrationTransaction.FailureBeforeCommitRestores | custom_components/helianthus/semantic_migration_transaction.py:150-166 | a failure before the commit is attempted drains, aborts and restores LEGACY if the cleanup returns |
| MigrationTransaction.FailureFromCommitOnIsUnresolved | custom_components/helianthus/semantic_migration_transaction.py:154-167 | from the commit on a failure leaves the pair fenced and UNRESOLVED; the journal holds the commit if it took effect and the intent if not, never a rollback |
| MigrationTransaction.CleanupReturns | custom_components/helianthus/semantic_migration_transaction.py:157-166 | what the cleanup after an early failure comes to |
| MigrationTransaction.RecoverSucceeds | custom_components/helianthus/semantic_migration_transaction.py:169-189 | if every await returns, recovery ends with the owner that the record names, attached, with a new token and the journal untouched; with none named it stays UNRESOLVED |
| MigrationTransaction.FailedRecoveryIsUnresolved | custom_components/helianthus/semantic_migration_transaction.py:169-189 | a recovery that fails at any await leaves the pair fenced anew and the journal untouched |
| MigrationTransaction.FailedCleanupIsUnresolved | custom_components/helianthus/semantic_migration_transaction.py:157-166 | a cleanup that fails at any await leaves the pair fenced; the journal shows the abort if that took effect |
| MigrationTransaction.Transaction.constructor | custom_components/helianthus/semantic_migration_transaction.py:96-105 | a fresh instance starts LEGACY only when legacy ownership is vouched for |
| MigrationTransaction.Transaction.Admit | custom_components/helianthus/semantic_migration_transaction.py:115-120 | admission needs this very token, its pair, its owner and a settled owner, then asks the predicate |
| MigrationTransaction.Transaction.FenceCallbacks | custom_components/helianthus/semantic_migration_transaction.py:122-124 | fencing replaces the token and unresolves the owner before the next await |
| MigrationTransaction.Transaction.Drain | custom_components/helianthus/semantic_migration_transaction.py:126-130 | the four drain steps in order, cut at any of them, are the machine's |
| MigrationTransaction.Transaction.Attach | custom_components/helianthus/semantic_migration_transaction.py:132-138 | token and owner are published only after the attachment has returned |
| MigrationTransaction.Transaction.Migrate | custom_components/helianthus/semantic_migration_transaction.py:140-167 | the whole operation, cut at any await, leaves exactly the machine's state; one that is not for a LEGACY owner or not admitted touches nothing and returns the owner or raises |
| MigrationTransaction.Transaction.Recover | custom_components/helianthus/semantic_migration_transaction.py:169-189 | likewise for recovery, which touches nothing unless the pair is fenced |
| ActionBroker.RunKeepsValid | custom_components/helianthus/eebus_pairing.py:86-258 | reservation and action exclude each other and a stored terminal carries the owned action's id, after any calls by any clients |
| ActionBroker.RunIsLater | custom_components/helianthus/eebus_pairing.py:115-258 | generations never go back, and one generation names one reservation, action and deadline |
| ActionBroker.CurrentSnapshotsAreExact | custom_components/helianthus/eebus_pairing.py:115-124 | no ABA: a snapshot still current after anything anyone did names the very state it captured |
| ActionBroker.ClearingIsExact | custom_components/helianthus/eebus_pairing.py:230-249 | clearing under a snapshot takes away what the snapshot names, or nothing but an expired action |
| ActionBroker.DeadReservationsStayDead | custom_components/helianthus/eebus_pairing.py:126-158 | a released, cleared, finalized or replaced reservation can never be finalized or released |
| ActionBroker.AbortSparesLaterActions | custom_components/helianthus/eebus_pairing.py:136-170 | clearing under an old snapshot never touches an action finalized or taken over since, by any client |
| ActionBroker.OneTerminalPerActivation | custom_components/helianthus/eebus_pairing.py:136-228 | each finalize or own yields at most one consumed terminal, and the deadline is the activation's reading plus the TTL |
| ActionBroker.ConsumedExactlyAndInTime | custom_components/helianthus/eebus_pairing.py:211-228 | what is consumed is the stored terminal of exactly the named action, every clock reading made before was short of the deadline, and the action is gone |
| ActionBroker.NothingAfterTheDeadline | custom_components/helianthus/eebus_pairing.py:251-258 | once any reading has reached the deadline no action is reported and no terminal handed out |
| ActionBroker.TerminalsArrive | custom_components/helianthus/eebus_pairing.py:136-228 | a terminal reported for an action just finalized reaches the flow that asks next in time, and only once |
| ActionBroker.TerminalsAreDeliveredIff | custom_components/helianthus/eebus_pairing.py:172-228 | a terminal reported under a current snapshot is handed to the flow that asks under it in time, whatever any clients do in between, exactly as long as none of them ended the tenure, and only once |
| ActionBroker.EarlyTerminalsAreKept | custom_components/helianthus/eebus_pairing.py:136-209 | a terminal that overtakes the answer to its own connect is kept for it, one of another action is dropped |
| ActionBroker.ReservesIff | custom_components/helianthus/eebus_pairing.py:126-134 | a connect may be reserved exactly when nobody holds a reservation or an unexpired action; otherwise the candidate is busy |
| ActionBroker.FinalizesIff | custom_components/helianthus/eebus_pairing.py:136-150 | a reservation becomes an owned action exactly while it is held and the id is well-formed |
| ActionBroker.ReleasesIff | custom_components/helianthus/eebus_pairing.py:152-158 | exactly the held reservation is released |
| ActionBroker.OwnsIff | custom_components/helianthus/eebus_pairing.py:160-170 | an id is owned exactly when it is well-formed and nobody holds anything but this very action |
| ActionBroker.ClearsIff | custom_components/helianthus/eebus_pairing.py:230-249 | clearing works exactly under a current snapshot and for the expected action |
| ActionBroker.EndsFree | custom_components/helianthus/eebus_pairing.py:152-258 | a release, a clear, a consumed terminal and an expiry each leave the broker free for the next connect |
| ActionBroker.LateReports | custom_components/helianthus/eebus_pairing.py:191-203 | an answer asked for under an older snapshot is taken, and its terminal kept, exactly if it is about the present action; otherwise it is refused and changes nothing |
| ActionBroker.CurrentReports | custom_components/helianthus/eebus_pairing.py:204-209 | under a current snapshot an answer about the present action is taken, no answer leaves things as they are, and any other ends the action |
| ActionBroker.ReportsDuringAConnect | custom_components/helianthus/eebus_pairing.py:179-190 | while a connect is reserved the terminal of any well-formed action is kept |
| ActionBroker.EEBusActionTerminalBroker.constructor | custom_components/helianthus/eebus_pairing.py:89-103 | a new broker holds nothing |
| ActionBroker.EEBusActionTerminalBroker.PruneExpired | custom_components/helianthus/eebus_pairing.py:251-258 | one clock reading decides whether the owned action has expired |
| ActionBroker.EEBusActionTerminalBroker.TakeSnapshot | custom_components/helianthus/eebus_pairing.py:115-117 | the method leaves the state and returns the snapshot that the theorems speak of |
| ActionBroker.EEBusActionTerminalBroker.CheckCurrent | custom_components/helianthus/eebus_pairing.py:119-124 | current iff the generation is unchanged after pruning |
| ActionBroker.EEBusActionTerminalBroker.BeginReservation | custom_components/helianthus/eebus_pairing.py:126-134 | a reservation is made as `ReservesIff` says |
| ActionBroker.EEBusActionTerminalBroker.CompleteReservation | custom_components/helianthus/eebus_pairing.py:136-150 | only the held reservation becomes an owned action, keeping a terminal that already came for it |
| ActionBroker.EEBusActionTerminalBroker.GiveUpReservation | custom_components/helianthus/eebus_pairing.py:152-158 | only the held reservation is released |
| ActionBroker.EEBusActionTerminalBroker.TakeOwnership | custom_components/helianthus/eebus_pairing.py:160-170 | owning is refused unless free or already its own |
| ActionBroker.EEBusActionTerminalBroker.NoteStatus | custom_components/helianthus/eebus_pairing.py:172-209 | a status answer stores a terminal of the held action only, and is refused when it does not fit |
| ActionBroker.EEBusActionTerminalBroker.HandOutTerminal | custom_components/helianthus/eebus_pairing.py:211-228 | consuming hands out the terminal and clears the action at once |
| ActionBroker.EEBusActionTerminalBroker.ClearAction | custom_components/helianthus/eebus_pairing.py:230-249 | clearing obeys the expected id and the snapshot |
| PairingController.ConnectsNeverLeak | custom_components/helianthus/eebus_pairing.py:375-405 | a connect leaves no reservation behind and is accepted iff nobody took the reservation while a well-formed id was on its way |
| PairingController.AConnectIsAcceptedIff | custom_components/helianthus/eebus_pairing.py:375-405 | with nobody else acting a connect is accepted exactly if the broker is free and the gateway answers with a well-formed id |
| PairingController.FailedConnectsLeaveFree | custom_components/helianthus/eebus_pairing.py:384-403 | a connect that fails with its reservation still held leaves the broker free, whatever others did meanwhile |
| PairingController.ConnectsCanBeRetried | custom_components/helianthus/eebus_pairing.py:375-405 | after any number of failed connects the next one is accepted if the gateway accepts |
| PairingController.ReportsFit | custom_components/helianthus/eebus_pairing.py:302-317 | a snapshot stays current over a status answer only if the answer is about its own action |
| PairingController.OwnActionOnly | custom_components/helianthus/eebus_pairing.py:518-529 | a flow that clears its own snapshot takes its own action or nothing |
| PairingController.EEBusPairingController.PollOnce | custom_components/helianthus/eebus_pairing.py:426-449 | one attempt, with anything done by others during its fetch, ends in the held action's terminal, its pending status, or a reason; undisturbed it delivers the stored or reported terminal, or else says pending and leaves the action held |
| PairingController.EEBusPairingController.PollRounds | custom_components/helianthus/eebus_pairing.py:426-450 | the attempts of one poll: how many are made, and with which of them they end |
| PairingController.EEBusPairingController.PollActiveAction | custom_components/helianthus/eebus_pairing.py:407-450 | at most `max_attempts` fetches; the result is the terminal or a non-terminal status of the action held at the start; None only if that action is gone or the view no longer lists it; an undisturbed poll delivers a stored terminal at once, else the first terminal answer, else what the last attempt says |
| PairingController.EEBusPairingController.Connect | custom_components/helianthus/eebus_pairing.py:384-403 | reserve, ask, finalize or release: the broker, the revision and the owned action afterwards, whatever others do meanwhile |
| PairingController.EEBusPairingController.ConnectSelection | custom_components/helianthus/eebus_pairing.py:375-405 | a bad PIN or a missing selection touches nothing; otherwise the broker ends as the connect effect says and the flow owns the accepted action |
| PairingController.EEBusPairingController.ClosePairingWindow | custom_components/helianthus/eebus_pairing.py:341-352 | the broker, the revision and the flow's own action after a close, for every answer |
| PairingController.EEBusPairingController.ClearActionState | custom_components/helianthus/eebus_pairing.py:518-529 | forgetting clears the flow's own action or nothing |
| PairingController.EEBusPairingController.Abort | custom_components/helianthus/eebus_pairing.py:515-516 | aborting one flow never clears an action of another |
| PairingController.EEBusAdminServices.InvokeConnect | custom_components/helianthus/eebus_admin_services.py:195-207 | the connect service has the same effect on the broker as the flow's connect |
| PairingController.EEBusAdminServices.InvokeClose | custom_components/helianthus/eebus_admin_services.py:208-213 | the close service clears only what was there when it asked |
| PairingController.EEBusAdminServices.StatusSnapshot | custom_components/helianthus/eebus_admin_coordinator.py:38-58 | a status poll asked under an older state is refused unless it fits the present one |
| SnapshotSchema.FieldsRankLower | custom_components/helianthus/semantic_snapshot.py:24-353 | every record of the table nests records of lower rank only, so the recursion over the table ends |
| DecimalText.EqualDecimalsIff | custom_components/helianthus/semantic_snapshot.py:418-426 | two accepted decimals are numerically equal iff coefficient and exponent are equal |
| DecimalText.IntegerTextIsUnique | custom_components/helianthus/semantic_snapshot.py:448-454 | an integer has one accepted text, so integer strings compare as texts |
| DecimalText.NaturalTextIff | custom_components/helianthus/semantic_snapshot.py:448-454 | the accepted texts of natural numbers are exactly their digits |
| DecimalText.IntegerTextIff | custom_components/helianthus/semantic_snapshot.py:448-454 | the accepted texts of integers are exactly their digits, behind a sign if negative |
| DecimalText.CoefficientIff | custom_components/helianthus/semantic_snapshot.py:418-422 | the accepted coefficients are exactly the texts of zero and of the integers that are no multiples of ten |
| SchemaDecoder.AnswerDecodes | custom_components/helianthus/semantic_snapshot.py:379-463 | decoding the answer to the generated query equals decoding everything the server holds: nothing unselected is looked at |
| SchemaDecoder.DecodedCarriesAnswer | custom_components/helianthus/semantic_snapshot.py:379-463 | whatever decodes has every selected member at every depth, and the decoded value carries each of them unchanged |
| SchemaDecoder.DecodingRoundTrips | custom_components/helianthus/semantic_snapshot.py:398-463 | whatever decodes, encoding gives back on the selected members, and decoding that gives the value again |
| SchemaDecoder.EqualValuesIff | custom_components/helianthus/semantic_snapshot.py:379-463 | two responses decode to the same value iff they agree on everything that the query selects |
| SchemaDecoder.DecodedDecimalsCompare | custom_components/helianthus/semantic_snapshot.py:418-426 | comparing decoded decimals field by field is comparing numbers, with exponents within -18 and 18 |
| SchemaTyping.TextFitsIff | custom_components/helianthus/semantic_snapshot.py:444-463 | a string is accepted for a scalar exactly if it is written as that scalar: digits of a number in range, digest, version, listed symbol, nonempty text |
| SchemaTyping.DecodesIff | custom_components/helianthus/semantic_snapshot.py:398-463 | a response decodes exactly if it is well-typed, which is said of the JSON and the table alone: fields present, null only where allowed, lists where declared, scalars in form, canonical decimals, distinct dimensions, one arm |
| SchemaTyping.ValuesComeBack | custom_components/helianthus/semantic_snapshot.py:398-463 | every well-formed value, with null in any nullable field, is what its own JSON decodes to |
| SchemaTyping.YieldedIff | custom_components/helianthus/semantic_snapshot.py:398-463 | the decoder yields exactly the well-formed values |
| AssetAccounting.CheckSources | custom_components/helianthus/semantic_snapshot.py:485-490 | the loop accepts iff no source identity repeats |
| AssetAccounting.CheckBindings | custom_components/helianthus/semantic_snapshot.py:491-499 | iff each binding is this asset's, has its own id and names a listed source |
| AssetAccounting.CheckServices | custom_components/helianthus/semantic_snapshot.py:500-509 | iff each service has its own id and agrees with a listed binding in epoch and generation |
| AssetAccounting.CheckCapabilities | custom_components/helianthus/semantic_snapshot.py:510-520 | iff each capability has its own id and agrees with its service |
| AssetAccounting.CheckProvenance | custom_components/helianthus/semantic_snapshot.py:549-559 | whatever provenance a candidate names is that of a listed binding and source |
| AssetAccounting.CheckCandidates | custom_components/helianthus/semantic_snapshot.py:545-560 | ids, keys and provenance of one fact's candidates against the table of earlier ones, decided as in the inner loop |
| AssetAccounting.CheckFacts | custom_components/helianthus/semantic_snapshot.py:538-563 | the nested loops accept iff keys and candidate ids are distinct, provenance is sound and conflicts resolve |
| AssetAccounting.CheckEvaluation | custom_components/helianthus/semantic_snapshot.py:564-571 | iff every candidate is evaluated, once, at its revision, and nothing else is |
| AssetAccounting.CheckRetained | custom_components/helianthus/semantic_snapshot.py:572-580 | iff retained observations have the supported contract and distinct identities |
| AssetAccounting.CheckEvaluatedRetained | custom_components/helianthus/semantic_snapshot.py:581-593 | iff they are evaluated as they stand, each once |
| AssetAccounting.CheckSelections | custom_components/helianthus/semantic_snapshot.py:594-602 | iff each selection chooses a listed candidate at its revision, key and evaluation |
| AssetAccounting.CheckPacks | custom_components/helianthus/semantic_snapshot.py:607-614 | iff every used pack is in the manifest, once, and every instance is this asset's |
| AssetAccounting.ValidateAsset | custom_components/helianthus/semantic_snapshot.py:472-635 | the validator accepts exactly the assets of the declarative predicate |
| AssetAccounting.DispositionsPartitionFacts | custom_components/helianthus/semantic_snapshot.py:603-628 | in an accepted asset the fact dispositions list every fact key exactly once, under its own fact, and nothing else |
| AssetAccounting.DispositionListsItsFact | custom_components/helianthus/semantic_snapshot.py:624-628 | equal length and inclusion one way make the list of a disposition its fact's keys up to order |
| AssetAccounting.EverythingAccountedOnce | custom_components/helianthus/semantic_snapshot.py:564-606 | candidates and evaluations, retained observations, requested items and dispositions correspond one to one |
| AssetAccounting.CapabilitiesResolve | custom_components/helianthus/semantic_snapshot.py:491-520 | every capability resolves through a service and a binding of this asset to a listed source of its epoch |
| AssetAccounting.NormalizeView | custom_components/helianthus/semantic_snapshot.py:638-682 | a view is accepted iff the asked identifiers are valid, the root is there without errors, of at most 4 MiB and decodes, and it answers for each asked asset once, all acceptable and of one evaluation context |
| AcceptedViews.ItIsAccepted | custom_components/helianthus/semantic_snapshot.py:472-635 | assets with one source, binding, service and capability and any facts of one kind, each evaluated and accounted for, are accepted |
| AcceptedViews.UnavailableIsAccepted | custom_components/helianthus/semantic_snapshot.py:474-480 | an asset without records is accepted for each of the four reasons |
| AcceptedViews.AcceptedIsWhole | custom_components/helianthus/semantic_snapshot.py:474-484 | an accepted asset has all three records, or none and a known reason |
| AcceptedViews.AcceptedRecordsAgree | custom_components/helianthus/semantic_snapshot.py:523-602 | the records of an accepted asset are of one snapshot, revision, context and the supported contracts, and each selection chooses a listed candidate as it stands |
| AcceptedViews.AcceptedPartsAreItsOwn | custom_components/helianthus/semantic_snapshot.py:485-614 | links, facts, services and capabilities of an accepted asset are its own, links are of listed bindings and packs are in the manifest |
| AcceptedViews.AcceptedDispositionsExplain | custom_components/helianthus/semantic_snapshot.py:619-635 | each disposition of an accepted asset has a listed outcome, with losses or a reason as that demands |
| AcceptedViews.AcceptedClaimsAreRequested | custom_components/helianthus/semantic_snapshot.py:615-618 | every fact and capability of an accepted asset is asked for |
| SensorReading.AdmittedIffTraced | custom_components/helianthus/semantic_snapshot_sensors.py:191-214 | on accepted provenance, admission is being traced to a current binding and a current listed source |
| SensorReading.FactReads | custom_components/helianthus/semantic_snapshot_sensors.py:249-299 | on an accepted asset the sensor's repeated counts decide nothing |
| SensorReading.ReadingIsTrustworthy | custom_components/helianthus/semantic_snapshot_sensors.py:254-298 | on an accepted asset a value is read iff the asset is readable and its fact is undisputed, exactly represented, and has one candidate that is admitted, traced, fresh, available and within bounds |
| SensorReading.ReadSensor | custom_components/helianthus/semantic_snapshot_sensors.py:249-299 | the loop over the assets reads the first one with the sensor's id, and nothing unless the last read succeeded on a supported root |
| SensorReading.SensorIsTrustworthy | custom_components/helianthus/semantic_snapshot_sensors.py:249-299 | on an accepted view a sensor shows a value iff the last read succeeded, the root is supported and its asset is readable and shows that value of that fact |
| SensorReading.ShownIff | custom_components/helianthus/semantic_snapshot_sensors.py:279-298 | a number is shown iff it is a quantity of the sensor's unit within its bounds, a token iff it is a known, mapped one of the fact's namespace |
| AcceptedViews.ItsSensorsShow | custom_components/helianthus/semantic_snapshot_sensors.py:249-299 | on such an accepted asset each sensor shows the number that was told |
| AcceptedViews.ShownIsBacked | custom_components/helianthus/semantic_snapshot_sensors.py:191-299 | a shown value is that of an undisputed, exact fact whose one candidate is native, observed, admitted, fresh, available and traced by a qualified link, current binding and current source |
| ZoneRetention.StaleIffMissed | custom_components/helianthus/coordinator.py:918-945 | in every run a zone is stale iff a full poll has missed it since it was last observed or named |
| ZoneRetention.PublishedAndNotStaleIsFresh | custom_components/helianthus/coordinator.py:913-945 | in every run a published zone that is not stale was in the latest full poll or has been named since |
| RetentionHistory.RetentionMatchesHistoryIff | custom_components/helianthus/coordinator.py:918-1004 | a zone is retained iff at most two full polls missed it, with that count, all along a run, exactly when no event of another zone comes while it is published but expired |
| RetentionHistory.AnExpiredSiblingCanComeBack | custom_components/helianthus/coordinator.py:969-1004 | the run in which an event of one zone brings back another that three polls have missed |
| RetentionHistory.ContentsMatchHistoryIff | custom_components/helianthus/coordinator.py:918-1004 | the retained entry is what was last observed with all later updates merged in, all along a run, exactly when no event merges into an expired entry: no other zone's, and none of its own that leaves out a field |
| RetentionHistory.SiblingsDoNotCount | custom_components/helianthus/subscriptions.py:244-260 | in every run any number of events of other zones neither refreshes a zone nor delays its expiry, and leaves what is retained of it alone exactly when it was not published past its expiry |
| RetentionHistory.DhwMatchesHistory | custom_components/helianthus/coordinator.py:947-967 | in every run the presence of retained hot water data, its age and its staleness are functions of the history |
| RetentionHistory.DhwContentsMatchHistoryIff | custom_components/helianthus/coordinator.py:947-1026 | the retained hot water data is what was last observed with all later updates merged in, all along a run, exactly when no event leaves out a field of published data that has expired |
| RetentionHistory.PublishedMatchesHistoryIff | custom_components/helianthus/coordinator.py:918-1054 | a zone is published as its history says, all along a run, exactly when no transport gap comes with nothing left to retain while the zone is published |
| RetentionHistory.PublishedDhwMatchesHistoryIff | custom_components/helianthus/coordinator.py:947-1054 | hot water data is published as its history says, all along a run, exactly when no transport gap comes with nothing left to retain while any is published |
| RetentionHistory.GapFailsIff | custom_components/helianthus/coordinator.py:969-974 | a transport gap fails the refresh and publishes nothing exactly when every retained zone and the hot water data have used up their gaps |
| RetentionHistory.StepLingersIff | custom_components/helianthus/coordinator.py:969-1004 | which step leaves a zone published but not retained |
| RetentionHistory.AnExpiredZoneStaysPublished | custom_components/helianthus/coordinator.py:969-974 | the runs in which an expired zone stays published after the failed refresh |
| RetentionHistory.ExpiredDhwStaysPublished | custom_components/helianthus/coordinator.py:969-974 | the runs in which expired hot water data stays published after the failed refresh |
| RetentionHistory.SuccessShowsHistory | custom_components/helianthus/coordinator.py:969-1054 | after a successful refresh a zone is published, as its history says, iff at most two full polls missed it, unless something expired was merged back before |
| RetentionHistory.SuccessfulRunsShowHistory | custom_components/helianthus/coordinator.py:918-1054 | in a run whose refreshes all succeed the published zones and hot water data are exactly what the history says |
| RetentionHistory.LastValueStays | custom_components/helianthus/subscriptions.py:127-150 | a published value of a zone stays published over any events that do not give it |
| RetentionHistory.GivenValueIsPublished | custom_components/helianthus/subscriptions.py:127-150 | an event publishes each value that it gives, of a known or a new zone |
| RetentionHistory.DhwEventsAreSparse | custom_components/helianthus/subscriptions.py:262-284 | likewise for hot water: given values are published and left-out ones stay |
| RetentionHistory.PollsPublishWhatTheyObserve | custom_components/helianthus/coordinator.py:918-954 | a poll publishes what it observed as it stands, in front, and behind it only named zones that it missed |
| RetentionHistory.EventsKeepTheList | custom_components/helianthus/subscriptions.py:127-150 | an event leaves every other item of the published list in its place and adds a zone only if it is new |
| RetentionHistory.AnsweredRunsSucceed | custom_components/helianthus/coordinator.py:1029-1056 | a run of answered polls and events is one whose refreshes all succeed |
| RetentionHistory.ExpiredFieldsComeBack | custom_components/helianthus/subscriptions.py:127-150 | the runs in which a zone's own event brings back its expired fields without a stale mark |
| RetentionHistory.ExpiredFieldsAreServedAsFresh | custom_components/helianthus/coordinator.py:969-1004 | and in which they are served as fresh by a coordinator that reports success |
| RetentionHistory.ExpiredDhwComesBackFresh | custom_components/helianthus/subscriptions.py:262-284 | the runs in which a hot water event brings back expired fields and marks all as fresh |
| RetentionHistory.EntriesLastTwoGaps | custom_components/helianthus/coordinator.py:934-941 | the entries that the history specifies are there iff at most two full polls missed the zone |
| ZoneRetention.MergeKeepsNothingIff | custom_components/helianthus/subscriptions.py:111-124 | merging into an old entry keeps nothing of it iff the update gives every one of its fields anew |
| ZoneRetention.MergeIsIdempotent | custom_components/helianthus/subscriptions.py:111-124 | merging the same update twice is merging it once |
| ZoneRetention.MergedField | custom_components/helianthus/subscriptions.py:111-124 | a field left out, or null over a value, stays; two records merge; anything else is the update's |
| ZoneRetention.GivenValuesArrive | custom_components/helianthus/subscriptions.py:111-124 | a value that the update gives at a path is read back at that path |
| ZoneRetention.LeftOutValuesStay | custom_components/helianthus/subscriptions.py:111-124 | a value at a path that the update leaves out stays |
| ZoneRetention.NewValuesAreGiven | custom_components/helianthus/subscriptions.py:111-124 | at a path where nothing was, the update's value is read |
| ZoneRetention.MergeDictsInPlace | custom_components/helianthus/subscriptions.py:111-124 | the loop over the update computes the recursive merge, in any order |
| SemanticCoordinator.MergeZones | custom_components/helianthus/subscriptions.py:127-150 | the loop merges the named zone wherever it is listed, or appends it |
| SemanticCoordinator.Scan | custom_components/helianthus/coordinator.py:926-943 | the loop over the previous list retains, ages and marks exactly what the retention function says |
| SemanticCoordinator.HelianthusSemanticCoordinator.RetainZones | custom_components/helianthus/coordinator.py:918-945 | the retained zones, their gap counters and the stale set after a full poll |
| SemanticCoordinator.HelianthusSemanticCoordinator.MaterializePayload | custom_components/helianthus/coordinator.py:947-967 | what a successful full poll publishes |
| SemanticCoordinator.HelianthusSemanticCoordinator.Refresh | custom_components/helianthus/coordinator.py:1029-1056 | a poll, a transport gap or a hard failure is one step of the retention machine |
| SemanticCoordinator.HelianthusSemanticCoordinator.HandleZoneUpdate | custom_components/helianthus/subscriptions.py:244-260 | a zone event is one step of the retention machine |
| SemanticCoordinator.HelianthusSemanticCoordinator.HandleDhwUpdate | custom_components/helianthus/subscriptions.py:262-284 | a hot water event is one step of the retention machine |
| SemanticCoordinator.HelianthusSemanticCoordinator.ApplyZoneSubscription | custom_components/helianthus/coordinator.py:986-1004 | only the named zone loses its gaps and its stale mark |
| WriteFence.WritesGoOutIffFresh | custom_components/helianthus/climate.py:556-571 | in every run a write is let through iff the register is writable, the target complete, the last refresh succeeded, admission is trusted and the zone is fresh and found in the published list, with no malformed element ahead of it |
| WriteFence.NothingGoesOutOtherwise | custom_components/helianthus/climate.py:556-571 | whenever nothing objects, the zone was in the latest full poll or named since |
| WriteFence.HelianthusZoneClimate.WriteExtRegister | custom_components/helianthus/climate.py:556-588 | a write either objects and sends nothing, or sends one mutation in a state that is fresh, successful and trusted |
| WriteFence.HelianthusZoneClimate.Execute | custom_components/helianthus/climate.py:460-554 | a command sends a prefix of its writes in order, each in a state that is fresh, successful and trusted at that moment, and stops at the first failure |
| WriteFence.ActivationComesLast | custom_components/helianthus/climate.py:460-554 | the last register of a command goes out only after every other one: for a holiday that is the date that activates it |
| WriteFence.PlansAreSafe | custom_components/helianthus/climate.py:460-554 | a holiday is activated behind all four other fields, a mode set behind the cancelled dates, which are written iff a holiday is held, a quick veto timed behind its temperature; what each command writes |
| WriteFence.RefusalsAre | custom_components/helianthus/climate.py:556-575 | which refusal a write meets: stale before missing data before lack of trust |
| RadioRetention.KeptIffRecentlyActive | custom_components/helianthus/coordinator.py:1182-1241 | on every history a slot is kept iff it was active at most three snapshots ago, with that many as its stale count |
| RadioRetention.KeptAsLastSeen | custom_components/helianthus/coordinator.py:1205-1220 | each attribute of a kept slot is what was last seen of it since it was last active |
| RadioRetention.EveryRunShowsActivity | custom_components/helianthus/coordinator.py:1198-1220 | an unstale slot is shown active and a stale one disconnected |
| RadioRetention.EveryRunNamesDevices | custom_components/helianthus/coordinator.py:1205-1220 | every kept device carries the bus key of its own slot |
| RadioRetention.NormalizeIsIdempotent | custom_components/helianthus/coordinator_merge.py:27-76 | normalizing a normalized device changes nothing |
| RadioRetention.NormalizesIff | custom_components/helianthus/coordinator_merge.py:27-76 | a device is taken iff its slot is two bytes; just its proper attributes are kept, as they are |
| RadioRetention.ActiveIff | custom_components/helianthus/coordinator_merge.py:79-104 | the three rules of activity, on attributes: zone groups by connection, group 0x0C by identity, others by either |
| RadioRetention.ServesIff | custom_components/helianthus/coordinator_merge.py:111-134 | a device serves zone n - 1 iff it is connected, in a zone group and assigned n |
| RadioRetention.ActiveAreActive | custom_components/helianthus/coordinator.py:1183-1194 | the last active device of a slot is active, and a slot whose last device is active is an active slot |
| RadioRetention.BusKeysDiffer | custom_components/helianthus/coordinator_merge.py:107-108 | different slots have different bus keys |
| RadioRetention.SortedListingIsUnique | custom_components/helianthus/coordinator.py:1222-1223 | the order of the published list does not depend on the order of the dictionary |
| RadioRetention.BuildZoneCandidates | custom_components/helianthus/coordinator_merge.py:111-152 | the candidates of a zone are exactly the active, connected devices of the zone groups assigned to it, sorted |
| RadioRetention.HelianthusRadioDeviceCoordinator.MaterializeSnapshot | custom_components/helianthus/coordinator.py:1182-1241 | the published list is strictly sorted and shows exactly the cache, whose two dictionaries have one domain |
| RadioRetention.HelianthusRadioDeviceCoordinator.CarryOver | custom_components/helianthus/coordinator.py:1205-1220 | the loop over the last snapshot carries exactly the slots within the grace |
| RadioRetention.HelianthusRadioDeviceCoordinator.Refresh | custom_components/helianthus/coordinator.py:1132-1175 | an unusable answer empties the cache and a failed poll leaves it |
| PercentEncoding.UnquoteUndoesQuote | custom_components/helianthus/semantic_snapshot_sensors.py:177 | percent-encoding (sections 2.1 and 2.3 of RFC 3986) can be undone |
| PercentEncoding.QuoteKeepsUnreserved | custom_components/helianthus/semantic_snapshot_sensors.py:177 | unreserved bytes, and only those, stand for themselves |
| PercentEncoding.JoinedComponentsComeBack | custom_components/helianthus/semantic_snapshot_sensors.py:177 | no encoded component holds the separator, so the components come back |
| CanonicalJson.TextDetermines | custom_components/helianthus/semantic_snapshot_sensors.py:174-176 | the compact JSON text determines the value |
| SemanticIdentity.ValueTextDetermines | custom_components/helianthus/semantic_snapshot_sensors.py:157-176 | the text of a typed value keeps every arm, false, zero and decimal precision |
| SemanticIdentity.SortedOrderIsUnique | custom_components/helianthus/semantic_snapshot_sensors.py:171 | dimensions with distinct ids have one sorted order |
| SemanticIdentity.UniqueIdsAgreeIff | custom_components/helianthus/semantic_snapshot_sensors.py:169-177 | two unique ids are equal iff entry, asset and key are, up to the order of dimensions |
| SemanticIdentity.UniqueIdsAreInvertible | custom_components/helianthus/semantic_snapshot_sensors.py:169-177 | entry, asset and all components can be read back from a unique id |
| SemanticIdentity.BuildSemanticUniqueId | custom_components/helianthus/semantic_snapshot_sensors.py:169-177 | the loop that extends the components builds this id |
| JsonDepth.ScannerMeasuresNesting | custom_components/helianthus/evse_m2m.py:331-342 | over any serialization of any JSON value (grammar in section 2, escapes in section 7 of RFC 8259) the scanner ends unquoted at its starting depth, or rejects iff the nesting exceeds the limit |
| JsonDepth.ResponseAcceptedIffShallow | custom_components/helianthus/pv_m2m.py:274-285 | a document is accepted iff its arrays and objects nest at most 64 deep |
| JsonDepth.ValidateJsonDepth | custom_components/helianthus/evse_m2m.py:331-342 | the loop over the bytes is the automaton |
| MigrationPlan.ExpectedIsInjective | custom_components/helianthus/semantic_migration_plan.py:163-187 | within a family the legacy identity determines the semantic key |
| MigrationPlan.ExpectedIff | custom_components/helianthus/semantic_migration_plan.py:163-187 | a key has a legacy identity exactly if it is the key of a row of its family, and then it is that row's, with its metadata |
| MigrationPlan.StagedFits | custom_components/helianthus/semantic_migration_plan.py:219-260 | a staged proposal has the only descriptor of its legacy identity, the only entry of its saved id, the only record of that id and of its entity, of this entry, asset and device, with no device conflict and no target taken |
| MigrationPlan.StagedIff | custom_components/helianthus/semantic_migration_plan.py:219-260 | and a request is staged exactly if such a proposal exists for it |
| MigrationPlan.SameKeyIffSameSavedId | custom_components/helianthus/semantic_migration_plan.py:219-260 | among staged proposals equal key, equal saved id, equal entity and equal request are the same |
| MigrationPlan.BuildMigrationPlan | custom_components/helianthus/semantic_migration_plan.py:190-271 | both passes and the final sort compute the order-free outcome of every request; an invalid inventory rejects all |
| MigrationPlan.EveryRequestAccounted | custom_components/helianthus/semantic_migration_plan.py:218-271 | proposals and rejections together are as many as the requests |
| MigrationPlan.RejectedAsJudged | custom_components/helianthus/semantic_migration_plan.py:218-271 | a request is among the rejections, with its reason, iff that is its outcome |
| MigrationPlan.ProposedAsJudged | custom_components/helianthus/semantic_migration_plan.py:218-271 | a proposal is made iff it is the outcome of some request |
| MigrationPlan.CollidesIffRepeated | custom_components/helianthus/semantic_migration_plan.py:262-268 | a staged request is rejected for a collision iff the very same request was made twice |
| MigrationPlan.OrderDoesNotMatter | custom_components/helianthus/semantic_migration_plan.py:218-271 | permuting the requests permutes their outcomes |
| MigrationPlan.ProposalsDiffer | custom_components/helianthus/semantic_migration_plan.py:218-271 | no two proposals share a key, a saved id, a record or an entity |
| SnapshotLifecycle.StepKeepsInv | custom_components/helianthus/semantic_snapshot_coordinator.py:76-154 | every step of any start, request, poll or close keeps the lifecycle's invariant |
| SnapshotLifecycle.OneReadInFlight | custom_components/helianthus/semantic_snapshot_coordinator.py:110-116 | in every run at most one read is in flight |
| SnapshotLifecycle.OnePoller | custom_components/helianthus/semantic_snapshot_coordinator.py:118-137 | in every run at most one poller lives, so repeated starts are inert |
| SnapshotLifecycle.SuccessMeansData | custom_components/helianthus/semantic_snapshot_coordinator.py:76-108 | a reported success means a supported root and a snapshot |
| SnapshotLifecycle.SupportOnlyMovesForward | custom_components/helianthus/coordinator_availability.py:15-27 | support is learnt and lost, never regained |
| SnapshotLifecycle.NoReadSurvivesAClose | custom_components/helianthus/semantic_snapshot_coordinator.py:139-154 | a read in flight before a close is over once the close has completed, also an interrupted one |
| SnapshotLifecycle.ClosedIsQuiet | custom_components/helianthus/semantic_snapshot_coordinator.py:76-154 | until the next start a closed coordinator publishes nothing and begins nothing |
| SnapshotLifecycle.UnsupportedIsFinal | custom_components/helianthus/semantic_snapshot_coordinator.py:110-121 | once the root is unsupported no read is begun and nothing reported changes |
| SnapshotLifecycle.RequestsShareARead | custom_components/helianthus/semantic_snapshot_coordinator.py:110-116 | requests made while a read is under way share it |
| SnapshotLifecycle.ARequestIsAnswered | custom_components/helianthus/semantic_snapshot_coordinator.py:76-116 | asked while no read is under way, an open coordinator, its poller asleep or not, reads once and publishes the answer |
| SnapshotLifecycle.AStartReadsThenPolls | custom_components/helianthus/semantic_snapshot_coordinator.py:123-137 | a start at rest reopens, reads first and polls only then |
| SnapshotLifecycle.AStartAfterAFailedRead | custom_components/helianthus/semantic_snapshot_coordinator.py:123-137 | a start whose first read fails polls all the same, unless the root turned out unsupported |
| SnapshotLifecycle.AReadEnds | custom_components/helianthus/semantic_snapshot_coordinator.py:76-108 | what an answered and a failed read report: data, success and support |
| SnapshotLifecycle.AWokenPollerReads | custom_components/helianthus/semantic_snapshot_coordinator.py:110-121 | when its interval elapses the poller asks for a read, or joins the one under way |
| SnapshotLifecycle.ARelievedPollerGoesOnIff | custom_components/helianthus/semantic_snapshot_coordinator.py:118-121 | when its read is over the poller sleeps on iff the coordinator is open and supported and the read was not cancelled |
| SnapshotLifecycle.ATimerReads | custom_components/helianthus/semantic_snapshot_coordinator.py:118-121 | one interval of a started coordinator reads; an answer is published, a failure keeps the old snapshot, a missing root ends the poller |
| SnapshotLifecycle.ATimerJoinsARead | custom_components/helianthus/semantic_snapshot_coordinator.py:110-121 | an interval that elapses during a read waits for that read |
| SnapshotLifecycle.TheTimerGoesOn | custom_components/helianthus/semantic_snapshot_coordinator.py:118-121 | over any number of intervals the last answer is published and the poller sleeps again |
| SnapshotLifecycle.ClosesReportNoSuccessIff | custom_components/helianthus/semantic_snapshot_coordinator.py:139-154 | all along a run every completed close leaves no success reported, exactly when no join is interrupted while a success is reported |
| SnapshotLifecycle.ACloseReports | custom_components/helianthus/semantic_snapshot_coordinator.py:123-154 | whatever happens while a close joins, it leaves a success reported iff one was reported before and the join is interrupted |
| SnapshotLifecycle.ACloseOfNothingReports | custom_components/helianthus/semantic_snapshot_coordinator.py:139-149 | with nothing to join a close is over at once and reports no success |
| SnapshotLifecycle.ClosedGoesOnReporting | custom_components/helianthus/semantic_snapshot_coordinator.py:76-154 | what a completed close leaves reported stays so until the next start or close |
| SnapshotLifecycle.AClosedCoordinatorCanReportSuccess | custom_components/helianthus/semantic_snapshot_coordinator.py:139-149 | the run in which a closed coordinator, with nothing alive, reports success and its old snapshot |
| SnapshotLifecycle.SemanticSnapshotCoordinator.FinishRefresh | custom_components/helianthus/semantic_snapshot_coordinator.py:76-108 | the end of a read publishes its answer unless closed meanwhile |
| SnapshotLifecycle.SemanticSnapshotCoordinator.RequestRefresh | custom_components/helianthus/semantic_snapshot_coordinator.py:110-116 | a request joins the running read or creates one |
| SnapshotLifecycle.SemanticSnapshotCoordinator.EnterStartSection | custom_components/helianthus/semantic_snapshot_coordinator.py:123-130 | a start with a live poller changes nothing; any other reopens and asks for a read |
| SnapshotLifecycle.SemanticSnapshotCoordinator.LeaveCloseSection | custom_components/helianthus/semantic_snapshot_coordinator.py:139-149 | what a close leaves after its join, interrupted or not |
| SnapshotLifecycle.SemanticSnapshotCoordinator.Perform | custom_components/helianthus/semantic_snapshot_coordinator.py:76-154 | the object takes exactly the steps of the machine, so the theorems about reads, timers, starts and closes are about it, and keeps its invariant |
| M2MEvaluation.CheckEvaluation | custom_components/helianthus/evse_m2m.py:303-310 | the loop accepts iff every candidate is evaluated once at its revision with a known lifecycle |
| EvseProjection.CheckDispositions | custom_components/helianthus/evse_m2m.py:252-285 | the loop accepts iff dispositions are the requested ones, each sound, and account for exactly the published keys |
| EvseProjection.ParseResponse | custom_components/helianthus/evse_m2m.py:287-323 | a response is accepted iff it satisfies the declarative predicate; its facts are strictly ordered and are the candidates' |
| EvseProjection.EveryKeyAccountedOnce | custom_components/helianthus/evse_m2m.py:252-285 | the dispositions account for every published key exactly once and for nothing else |
| EvseProjection.ConfiguredCurrentIsThere | custom_components/helianthus/evse_m2m.py:249-285 | an accepted response publishes at least one configured-current fact |
| EvseProjection.WithheldIffAbsent | custom_components/helianthus/evse_m2m.py:263-285 | the allocated current is withheld for a listed reason iff no allocated-current fact is published |
| EvseProjection.PublishedAreFresh | custom_components/helianthus/evse_m2m.py:300-322 | every candidate of an accepted response is of a known fact, admitted, and found fresh and available at its revision |
| EvseProjection.FreshResponsesAreAccepted | custom_components/helianthus/evse_m2m.py:252-323 | any admissible candidates, found fresh and accounted for, make an accepted response |
| EvseProjection.SortSorts | custom_components/helianthus/evse_m2m.py:322 | facts of distinct keys come out strictly ordered by fact and dimension |
| EvseEvolution.LoadStore | custom_components/helianthus/evse_m2m.py:405-422 | the loop loads every entry of the store or refuses |
| EvseEvolution.LoadUndoesSerialize | custom_components/helianthus/evse_m2m.py:405-432 | loading undoes writing iff every descriptor is this entry's own and fits |
| EvseEvolution.WhatIsNotLoaded | custom_components/helianthus/evse_m2m.py:405-410 | no store and one of another asset are empty; one of another version or too long is refused |
| EvseEvolution.SerializeUndoesLoad | custom_components/helianthus/evse_m2m.py:405-432 | whatever loads is written back as it was |
| EvseEvolution.Grow | custom_components/helianthus/evse_m2m.py:452-455 | the loop adds the unknown facts while there is room |
| EvseEvolution.GrowthOnlyAdds | custom_components/helianthus/evse_m2m.py:452-455 | descriptors stay in place with their ids, identities stay distinct, at most 256, and new ones belong to facts |
| EvseEvolution.RunOnlyAdvances | custom_components/helianthus/evse_m2m.py:439-460 | over any refreshes accepted revisions never decrease and descriptors only grow |
| EvseEvolution.RestartForgetsNothingIff | custom_components/helianthus/evse_m2m.py:423-459 | all along a run, whatever writes fail, a restart would begin with every published descriptor, exactly when no store is written whose new descriptors the loader refuses |
| EvseEvolution.ForgetsNothingIff | custom_components/helianthus/evse_m2m.py:397-459 | with 64-character digests no restart of any run of parsed responses forgets a descriptor, exactly when the entry's id has at most 185 characters |
| EvseEvolution.AcceptedResponsesAreParsed | custom_components/helianthus/evse_m2m.py:136-198 | the facts of an accepted response are known, of bounded dimension values and distinct identities: what the evolution takes |
| EvseEvolution.PublishedFactsAreDescribed | custom_components/helianthus/evse_m2m.py:452-459 | in every run each published fact has a descriptor as long as there are fewer than 256 descriptors |
| EvseEvolution.AcceptedFactsAreDescribedIff | custom_components/helianthus/evse_m2m.py:451-459 | at any point of any run an accepted, stored refresh describes all its facts exactly when the identities known before and those of its facts are together at most 256 |
| EvseEvolution.GrowthDescribesIff | custom_components/helianthus/evse_m2m.py:451-455 | after growth every fact is described exactly when old and new identities together keep to the limit |
| EvseEvolution.AcceptedFactsArePublished | custom_components/helianthus/evse_m2m.py:446-459 | a refresh with an acceptable revision whose growth can be stored publishes each of its facts as read |
| EvseEvolution.OnlyTheLatestFacts | custom_components/helianthus/evse_m2m.py:446-459 | an accepted refresh publishes its facts and nothing of earlier ones |
| EvseEvolution.FailuresKeepFacts | custom_components/helianthus/evse_m2m.py:439-450 | any other outcome keeps facts, descriptors, revision and store and reports why the data is unavailable |
| EvseEvolution.FailedWritesPublishNothing | custom_components/helianthus/evse_m2m.py:456-459 | a write that fails publishes nothing and takes no revision |
| EvseEvolution.LongIdsAreForgotten | custom_components/helianthus/evse_m2m.py:405-432 | a written id that is too long for the loader is forgotten by a restart |
| EvseEvolution.HelianthusEVSEM2MCoordinator.Update | custom_components/helianthus/evse_m2m.py:446-459 | a snapshot is taken, refused or left unpublished, with the store written before publication |
| EvseEvolution.HelianthusEVSEM2MCoordinator.Perform | custom_components/helianthus/evse_m2m.py:439-460 | every refresh or notice is one step and keeps what is published stored |
| PvProjection.LegacyKeyUndone | custom_components/helianthus/pv_m2m.py:39-47 | a legacy identity determines the semantic key it came from, so mapping facts loses nothing |
| PvProjection.MapsToIff | custom_components/helianthus/pv_m2m.py:39-47 | a key is mapped to a legacy identity exactly if it is the key of that identity, and each of the listed identities is the image of its key |
| PvProjection.MappedIffOutput | custom_components/helianthus/pv_m2m.py:39-60 | a key has a legacy identity iff it has an item in the projection: the two tables fit |
| PvProjection.ItemNamesItsSource | custom_components/helianthus/pv_m2m.py:48-60 | no two keys go to the same item of the projection |
| PvProjection.WattHoursKeepTheirWorth | custom_components/helianthus/pv_m2m.py:171-174 | energy in watt-hours is worth the same; its coefficient stays canonical iff it was not zero |
| PvProjection.CheckSelections | custom_components/helianthus/pv_m2m.py:249-254 | the loop accepts iff every selection is bound, of a candidate under its key and revision that is fresh and available, and no candidate is selected twice |
| PvProjection.CollectFacts | custom_components/helianthus/pv_m2m.py:255-263 | the loop accepts iff every current mapped fact is selected, and collects exactly the published facts and keys |
| PvProjection.CheckDispositions | custom_components/helianthus/pv_m2m.py:203-225 | the loop accepts iff dispositions are the requested ones, losses do not repeat, the energy loss is stated and exactly the published keys are accounted for |
| PvProjection.ParseResponse | custom_components/helianthus/pv_m2m.py:227-266 | a response is accepted iff it satisfies the declarative predicate; its facts are the published candidates' in order |
| PvProjection.FreshResponsesAreAccepted | custom_components/helianthus/pv_m2m.py:191-266 | any mapped candidates, found fresh, selected and accounted for, make an accepted response |
| PvProjection.EveryKeyAccountedOnce | custom_components/helianthus/pv_m2m.py:203-225 | every published key is accounted for by exactly one disposition |
| PvProjection.SelectedIffCurrent | custom_components/helianthus/pv_m2m.py:249-259 | of the mapped candidates exactly the fresh and available ones are selected |
| PvProjection.DuplicateCheckNeverFires | custom_components/helianthus/pv_m2m.py:264 | distinct semantic keys already make distinct facts, so this check never rejects |
| PvProjection.LastEnergyDispositionDecides | custom_components/helianthus/pv_m2m.py:221-224 | with energy present, acceptance hangs on the last disposition that names the energy item |
| PvProjection.EnergyDependsOnOrder | custom_components/helianthus/pv_m2m.py:221-224 | behind any dispositions, a right one after a wrong one of the energy item is accepted and before it is not |
| PvProjection.EnergyOrderIrrelevantIff | custom_components/helianthus/pv_m2m.py:203-225 | the order of the dispositions does not matter for acceptance exactly when the projection is unsound otherwise, none is right about energy, or all that name the item are |
| PvProjection.AnAcceptedProjectionCanBeReordered | custom_components/helianthus/pv_m2m.py:203-225 | projections that are accepted in one order of their dispositions and refused in another |
| PvProjection.OneVerdictDecides | custom_components/helianthus/pv_m2m.py:221-224 | where the naming dispositions agree, one right one is all it takes |
| PvProjection.OneVerdictIff | custom_components/helianthus/pv_m2m.py:206-222 | as no pair is named twice, they agree iff none is right or no other one names the item |
| PvProjection.ReorderedAccountsSound | custom_components/helianthus/pv_m2m.py:203-225 | everything else that is demanded of a projection is the same in every order |
| PvStore.Load | custom_components/helianthus/pv_m2m.py:340-368 | the loop loads every entry or refuses, by version, shape, dimension, owner and repetition |
| PvStore.LoadsOneWay | custom_components/helianthus/pv_m2m.py:340-368 | the outcome of loading is determined by the store |
| PvStore.WhatIsNotLoaded | custom_components/helianthus/pv_m2m.py:341-344 | no store and one of another asset are empty; one of an unknown version or too long is refused |
| PvStore.EntryLoads | custom_components/helianthus/pv_m2m.py:346-366 | the three ways of writing a descriptor are loaded as the same one, exactly if it is loadable |
| PvStore.LoadUndoesSerialize | custom_components/helianthus/pv_m2m.py:340-371 | a written store is loaded as it was iff every descriptor is loadable and is refused otherwise |
| PvStore.UpgradeKeepsDescriptors | custom_components/helianthus/pv_m2m.py:340-371 | what loads from any version and shape can be written in the newest and then loads the same |
| PvStore.MappedKeysAreDescribable | custom_components/helianthus/pv_m2m.py:39-85 | every fact that a response can publish has a descriptor that the store takes back, if its id fits |

## Left out

- HTTP, WebSocket and TLS clients, retries, size limits on bytes, file access, logging and listeners: each is an outcome of an await or is dropped.
- Home Assistant entities, flows, labels, icons, device information and registry cleanup: wiring and presentation.
- SHA-256 is an arbitrary digest function; `copy.deepcopy` and detaching are value semantics.
- Texts are sequences of characters or of UTF-8 bytes, as each module says; there is no Unicode normalisation.
- MigrationTransaction: field validation of `EntityPair` is not modelled; object identity of tokens is a serial number.
- ActionBroker: object identity of reservations is a serial number; the clock is any stream of readings, monotone where a theorem needs it.
- PairingController: partner lists, candidate confirmation, retry and untrust are not modelled; they leave the broker alone or clear it as modelled.
- SchemaDecoder: the order of fields in the text of the generated query and the error codes of a rejection are not modelled; a record of the table is a map from field name to kind.
- AssetAccounting: no function takes a decoded value of `SchemaDecoder` to the typed asset that the validator judges; it works on typed records after decoding and does not tell which of several faults is reported first; the size of the serialized view is a parameter.
- SensorReading: does not model discovery, device identifiers, names and the static table of mapped facts; a descriptor is a parameter.
- ZoneRetention: zone ids are taken as canonical, as the program compares raw ids in one place and normalized ids in another (custom_components/helianthus/coordinator.py:913-916, custom_components/helianthus/climate.py:218).
- WriteFence: payload bytes and the packing of temperatures are not modelled; a write is its register.
- RadioRetention: members of a raw device are taken as already parsed to integers, booleans, numbers and stripped texts.
- MigrationPlan: mappings with missing or unexpected fields are one misshapen case; measurement values in reservation keys are not looked into.
- SnapshotLifecycle: `last_exception` and the log throttle are not modelled.
- EvseProjection: shapes of fields, evidence digests and the identity of the one source are taken as checked; `storage_m2m.py` is not part of this model.
- PvProjection: shapes of fields, values, provenance, policies and the identity checks of contract, snapshot and revisions are taken as checked (`bound`, `admitted`); a loss is its kind.
- PvStore: the parser of IP addresses is an arbitrary predicate; the loop that grows the photovoltaic descriptors is the one of `EvseEvolution.Grow` and is not modelled twice.
- EvseEvolution: facts reach it as `AcceptedResponsesAreParsed` says; the call from the client to the coordinator is the event `Received`.
- Status admission parsing, the energy, solar and circuit coordinators, and `entry_setup.py`: they would add only easy members.
