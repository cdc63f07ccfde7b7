# Wagering core: model and proofs

The service keeps players' wallets. Providers submit bets, wins, losses, refunds and rollbacks over
HTTP or through a queue, possibly twice and out of order; several instances run at once and may fail
between any two steps. Its claim is that the financial result stays correct all the same. These
files model the money-moving core and prove that claim, from the spelling of an amount up to
whole runs of interleaved transactions.

`dafny verify dfyconfig.toml` checks everything.

## How it is built

- **Values.** `Money`, `MoneyText`, `Domain`: wrapping 64-bit money, its parser and printer, wallets,
  entries, operations with their state machine, and the events they raise.
- **State.** `Tables`: the committed database as a value (wallets, transactions, ledger, inbox, outbox),
  the schema's rules, and `Inv`, one invariant over all five tables: every wallet's entries form an
  unbroken chain from zero that ends in the stored balance, versions count entries, every entry is
  explained by exactly one processed operation, every processed reversal undoes a matching processed
  operation that nothing else undid, and the outbox says all of that and nothing else.
- **Decisions.** `Decisions`, `Serial`, `Openings`, `Queue`: what a submission, a worker visit, an
  opening and a delivery decide from what they read. `Steps` has the theorem all of them go through:
  committing a *sound* effect keeps `Inv` and only moves history forward (`Extends`).
- **Outcomes.** `Outcomes` writes out, case by case and without naming any of the decisions, what an operation
  comes to: which are processed and for how much, which are refused and under what code, which wait and
  until when, what stands in the way of a record, and what is stored; and proves it of every submission and
  visit.
- **Runs.** `Runs`, `ExactlyOnce`, `Deliveries`, `Confluence`, `Chains`, `Books`: properties of any sequence
  of actions. `Waits`: what one visit does to a wait.
- **Interleavings.** `Interleaving` breaks submissions, deliveries and visits into single statements
  (inbox claim, unlocked lookup, wallet read, two reads of the reference, four writes, commit) run in any
  order by any number of units of work. `Guards` proves that the version-guarded write alone keeps `Inv`,
  lock or no lock. `Races` proves over these histories that waits end and outcomes are final,
  `Replays` what a repeated submission is told, `Progress` that nobody waits for ever;
  `Numbering` draws the ledger's sequence numbers in them, at the insert, while pages are read.
- **Refinement.** `Locking` proves that with the wallet lock the guards never fire; `Refinement` that every
  interleaving is a run of the one-at-a-time model, up to two named kinds of commit, each with its exact
  condition. `Divergences` has runs that show such commits, and `Witnesses` reaches each of them, and
  most other shortfalls below, from the empty database with commands that parse.
- **Programs.** `Storage` is a class with the five tables as fields and one method per statement;
  `UseCases`, `Ports` and `Publishing` run the use cases on it in the order the source does, with
  rollback and bounded retry, and are proved to do exactly what the serial model decides. `Outgoing` puts
  several publishers, their crashes and an unreliable broker into one history with everything else, and
  `Ordering` says in which order the broker comes to know of events.
- **Codecs.** `Idempotency` and `Commands` (canonical form and payload hash), `RowCodec` (table rows),
  `Paging` (cursors).

## Where the code does less than it seems

- A reversal that read no finished reference waits, or is given up as REFERENCE_NOT_FOUND, although by its
  commit the reference has ended on *another wallet*, which the lock does not cover. That is the only
  case: a commit of a settled operation is the serial step of its moment iff it did not decide to wait
  while the reference is terminal at commit (`Refinement.UnawareExactly`, `Refinement.SerialUnlessUnaware`).
  The serial step would have rejected it under another code (`Refinement.UnawareOnlyDelays`);
  `Witnesses.UnawareHappens` is such a history.
- A delivery that a domain rule refused records its message at commit even if its business pair has been
  stored meanwhile with other content or under another key; the serial delivery would release the message.
  It does what the serial delivery does iff that is not so, and if it is, the request could not be served
  anyway (`Refinement.AbsorbedCommitsSerially`, `Witnesses.OvertakenHappens`).
- A new operation leaves no record iff the request itself makes none, its wallet is missing or another
  player's, it is a loss in another currency, or an id it was handed is taken; every other refusal is
  recorded: `Outcomes.RecordedUnlessObstructed`, `Refinement.UnrecordedExactly`.
- A replay tells the balance first told, for ever, iff the operation was processed by its own submission
  (`Replays.ToldForEver`). One refused at once is told no balance. One that parked is told none until it is
  processed, and from then on the balance of that commit (`Replays.ReplayTells`), which may be another:
  `Witnesses.ReplayTellsAnother`.
- Backoff waits are strictly positive exactly when the base backoff is at least two units:
  `Decisions.WaitsArePositive`.
- The clock and the jitter count nanoseconds, the columns microseconds. A row reads back as written iff its
  shape is sound, one currency holds and every instant is a whole microsecond: `RowCodec.RoundTrip`, with a
  counterexample in `RowCodec.NanosecondsAreLost`.
- The worker's `worked` flag outlives a try that was rolled back. It misleads iff the committed try found
  nothing and an earlier one did (`Ports.WorkedMisleadsExactly`), which happens
  (`Witnesses.MisleadingHappens`); `RunOnce` then counts a pass that visited nothing.
- So does what the consumer reports of a delivery: it is reported as done here, against its own try, iff that
  try found the message handled and an earlier one had done the work, and then under an operation that may
  never have been stored (`Ports.ReportMisleadsExactly`, `Ports.ReportCanMislead`).
- Claims pass over locked rows, so a batch of the worker may stop short although reversals are due: it does
  so only when each of them is held by somebody else (`Ports.RunOnce`).
- The publisher counts rows it claimed. That is the number its committed try published iff no earlier try
  claimed any and the last one put none back (`Publishing.CountTellsPublished`, `Witnesses.CountMisleads`).
- Events of one aggregate reach the broker in order iff no pass ever has an event taken that overtakes an
  earlier one of its aggregate, which its claim passed over as not yet due or held, or which it put back
  itself, and which the broker has not taken since (`Ordering.OrderExactly`, `Witnesses.OrderBreaks`).

## Model

| member | source | states |
|---|---|---|
| Money.WrapIsCongruent | internal/domain/money.go:273-309 | 64-bit registers keep every integer modulo 2^64, so the overflow tests below are about real wrap-around |
| Money.Money.Add | internal/domain/money.go:273-282 | although it looks only at the wrapped sum, it fails with overflow iff the true sum does not fit in int64 and is exact otherwise |
| Money.Money.Sub | internal/domain/money.go:285-294 | the same for differences, including the subtraction of the minimum |
| Money.Money.Neg | internal/domain/money.go:301-309 | fails on exactly the one value that has no positive counterpart |
| MoneyText.ScanMinor | internal/domain/money.go:122-219 | the byte scanner accepts exactly `-?digits(.d{1,2})?` whose value fits int64, returns that value without its uint64 accumulator wrapping, and reports overflow or bad syntax exactly as the grammar says |
| MoneyText.PushDigit | internal/domain/money.go:214-219 | refuses a digit iff the new value would pass the limit, and then never wraps |
| MoneyText.Print | internal/domain/money.go:247-270 | writes the canonical spelling of every int64, the minimum included |
| MoneyText.ParsePrinted | internal/domain/money.go:247-270 | parsing the printed form gives back every int64 |
| MoneyText.SpellingInjective | internal/domain/money.go:247-270 | different amounts never print alike |
| MoneyText.SpelledInFull | internal/domain/money.go:247-270 | a minus iff negative, digits without needless zeros, a point and two digits that together denote the amount |
| Domain.Move | internal/domain/wallet.go:189-234 | on a sound wallet a debit fails iff funds are short and never overflows, a credit fails iff int64 is too small, and the entry's own recheck never disagrees with the wallet |
| Domain.NewEntry | internal/domain/ledger.go:61-126 | an entry is accepted iff its ids and time are set, its amount is positive, all three amounts share a currency, and after = before + signed amount without overflow; it is built as asked |
| Domain.OpenWallet | internal/domain/wallet.go:64-115 | opening succeeds iff both ids and the time are set, the initial balance has a currency and is not negative, and one with money has ids for its credit; the wallet is sound at version 1, with an opening credit iff it opens with money |
| Idempotency.Canonicalise | internal/app/idempotency.go:102-121 | sorting in place and writing in a loop yields the canonical text of the field map, whatever order the map was walked in |
| Idempotency.SortedKeysUnique | internal/app/idempotency.go:102-111 | a field set has only one ascending key order, so the text cannot depend on map iteration |
| Idempotency.CanonicalDecodes | internal/app/idempotency.go:102-121 | the canonical text has an inverse: it decodes to the fields it was made from |
| Idempotency.CanonicalIsInjective | internal/app/idempotency.go:102-121 | two field maps share a canonical text iff they are equal |
| Idempotency.FieldText | internal/app/idempotency.go:88-121 | a field is its key and value, each after its length and a colon, with = between and ; at the end |
| Commands.ComputePayloadHash | internal/app/idempotency.go:54-85 | computes the fingerprint of the fields with the amount in canonical spelling when it parses |
| Commands.HashIdentifiesContent | internal/app/idempotency.go:54-85 | two commands hash alike iff all business fields agree and the amounts denote the same money (or are the same unparsable text), whatever the idempotency keys |
| Commands.ParseCommand | internal/app/submit.go:245-297 | reports the first malformed field in the source's order, or the parsed request |
| Commands.ParsedFieldByField | internal/app/submit.go:245-297 | a command is refused for the first thing wrong with it, in order and under its own code, and otherwise every field, the kind by its name and the amount by its value are carried over |
| Commands.FieldsByName | internal/app/idempotency.go:54-85 | the hashed fields are these nine, by these names, and the reference if there is one; the amount in canonical spelling when it parses |
| Tables.EmptyIsSound | migrations/00001_initial_schema.sql:19-185 | the empty database satisfies the invariant |
| Steps.CommitKeepsInvariant | internal/app/submit.go:364-392 | committing any sound effect keeps the whole invariant: chains, balances, versions, links, uniqueness, events |
| Steps.CommitExtends | internal/adapter/postgres/transaction.go:94-131 | a sound commit only moves rows along allowed edges, never touches a terminal row, and only appends entries and events |
| Decisions.SubmitIsProper | internal/app/submit.go:300-505 | whatever a submission decides agrees with the rows it read: shape, schema checks, movement, events, reference |
| Decisions.VisitIsProper | internal/app/reference_worker.go:164-214 | the same for a worker visit |
| Decisions.Normalise | internal/app/reference_worker.go:44-65 | whatever is configured, the policy in force is normalised, and a normalised one is left alone |
| Decisions.NormalisedSettingBySetting | internal/app/reference_worker.go:30-65 | each setting that makes no sense is replaced by its own default, the longest wait never below the base |
| Decisions.WindowDoublesUntilCapped | internal/app/reference_worker.go:72-76 | while the largest shift fits 64 bits the window starts at the base, never shrinks, and doubles with each attempt until it is capped |
| Decisions.NextAttemptAt | internal/app/reference_worker.go:72-79 | the wait lies between half the window and the maximum backoff, though the shift may wrap |
| Decisions.EveryWaitIsDrawn | internal/app/reference_worker.go:72-79 | every wait from half the window to twice that half is drawn for some jitter |
| Decisions.WaitsArePositive | internal/app/reference_worker.go:72-79 | all waits are strictly positive iff the base backoff is at least two |
| Decisions.OnlyStrayLossIsUnrecorded | internal/app/submit.go:345-367 | a submission that reaches its decision fails without a record iff it is a loss in another currency |
| Serial.SubmitIsSound | internal/app/submit.go:174-201 | a submission settled on a sound state commits soundly: its reference is undone by nobody and its wallet is as read |
| Serial.VisitIsSound | internal/app/reference_worker.go:148-218 | the same for a visit to a parked reversal |
| Outcomes.DirectSubmission | internal/app/submit.go:345-442 | a settled bet, win or loss is processed iff its currency is the wallet's and a bet does not exceed the balance and a win does not take it past int64; the balance is then less the bet, plus the win or unchanged, the entry says so, and otherwise the row is rejected as CURRENCY_MISMATCH, INSUFFICIENT_FUNDS or AMOUNT_OVERFLOW and nothing moves |
| Outcomes.ReversalSubmission | internal/app/submit.go:458-581 | a settled refund or rollback ends as the table of reference status, kinds, identities, amount, earlier reversal and funds says, processed or rejected under exactly one code; with no usable reference it parks at its first attempt, with deadline now plus the time to live and the next look within the base backoff |
| Outcomes.VisitComesTo | internal/app/reference_worker.go:164-214 | a visit ends the reversal by the same table; while the reference is not usable it gives up as REFERENCE_NOT_FOUND iff the deadline has passed or the attempts are used up, and otherwise waits on, after the n-th visit between half and all of the base doubled n times and capped, as long as sixteen doublings fit int64 |
| Outcomes.ReversalIsOpposite | internal/domain/transaction.go:612-639 | a processed reversal's entry has the opposite sign of its reference's, and the balance is moved by exactly that |
| Outcomes.RecordedUnlessObstructed | internal/app/submit.go:174-367 | a new operation is settled iff the request is well formed, the wallet exists and is the player's, it is no loss in another currency and no key or id is taken; each of those is refused under its own error, in order |
| Outcomes.VisitedUnlessObstructed | internal/app/reference_worker.go:164-217 | a visit to a claimed reversal is settled iff no id it was handed is taken, or its wallet's version is used up; each is refused under its own error |
| Outcomes.StoredIsAnswered | internal/app/submit.go:210-229 | a request whose pair is stored is refused for other content, then for another key, and otherwise replayed |
| Outcomes.SubmissionIsStored | internal/app/submit.go:372-392 | what is written is the row, the balance and entry if money moved, and the events that tell exactly that, due at once; nothing else changes |
| Outcomes.VisitIsStored | internal/app/reference_worker.go:204-242 | the same of a visit; one that waits on announces nothing |
| Openings.OpeningKeepsInvariant | internal/app/openwallet.go:113-140 | opening a wallet, with or without money, keeps the invariant |
| Runs.NextKeeps | internal/app/submit.go:174-201 | each action (open, submit, deliver, visit, publish) keeps the invariant and only moves history forward |
| Runs.RunKeeps | internal/app/submit.go:174-201 | so does every run |
| ExactlyOnce.OneRowPerOperation | internal/app/submit.go:192-201 | a (provider, external id) names at most one row in any sound state |
| ExactlyOnce.OneEntryPerOperation | internal/app/submit.go:372-388 | an operation has exactly one entry iff it is processed and moves money, and none otherwise |
| ExactlyOnce.SettledRowIsTheCommands | internal/app/submit.go:300-324 | the row a settled submission stores is found under its command's own pair, with that command's hash and key |
| ExactlyOnce.StoredOperationAnswers | internal/app/submit.go:210-229 | a command naming a stored operation changes nothing and is a replay iff content and key agree, else a conflict |
| Waits.VisitCounts | internal/app/reference_worker.go:204-214 | a completed visit ends the wait or uses exactly one attempt within the maximum, and never moves the deadline |
| Waits.VisitDecides | internal/app/reference_worker.go:174-214 | a visit always reaches a decision; only a schema rule can then refuse it |
| Deliveries.DeliveryIsAllOrNothing | internal/app/consumer.go:305-346 | a delivery commits effect and completed record together or changes nothing, asks for deletion only when nothing is owed, and never meets a claim without completion |
| Deliveries.DeliveredByTable | internal/app/consumer.go:286-405 | a message seen before changes nothing and is released only if its first handling is not through; a new one is recorded, with its fingerprint and time, beside what the submission writes or a domain refusal; any other refusal releases it |
| Deliveries.NoMessageIsLost | internal/app/consumer.go:210-280 | over any history of duplicates, crashes and failed deletes every message sent still waits or is accounted for |
| Deliveries.EffectsAtMostOnce | internal/adapter/postgres/inbox.go:34-51 | over any history a message id takes effect at most once, exactly once iff it becomes recorded |
| Deliveries.SecondMessageMovesNothing | internal/app/consumer.go:323-345 | another message about a stored operation writes its inbox record and nothing financial |
| Confluence.ParkedIsInvisible | internal/app/reversal.go:56-71 | a parked reversal changes no one else's verdict |
| Confluence.OutOfOrderIsConfluent | internal/app/submit.go:458-505 | reversal, reference, one visit ends with the same balances, versions, movements, statuses, codes and links as reference, reversal, whenever the reference ends terminal |
| Chains.ChainsAreShort | internal/domain/transaction.go:612-639 | reversal links are acyclic chains of at most three operations on one wallet for one amount |
| Chains.ReversalEntryIsOpposite | internal/domain/transaction.go:631-639 | a reversal's entry is the exact opposite of the entry it undoes, on the same wallet |
| Chains.ChainNets | internal/app/submit.go:533-581 | a chain's entries add up to its root's entry when the root stands and to zero when it was undone |
| Chains.BalanceIsWhatStands | internal/app/reversal.go:79-117 | the stored balance is the sum of the opening and every bet and win that stands |
| Books.ChainTotals | internal/domain/ledger.go:92-101 | along an unbroken chain the unbounded sum, the checked fold and the last balance agree and fit int64 |
| Books.ReconciliationFindsNoDrift | internal/app/reconcile.go:85-115 | on any sound state reconciliation succeeds with difference zero, and the version is 1 plus the movements after the opening |
| Books.ReconciliationTellsTheDrift | internal/app/reconcile.go:85-115 | for any wallet and ledger, sound or not, the difference is the stored balance less credits plus debits, and drift is reported iff it is not zero; what does not fit int64 is an error |
| Books.ReconcilesAfterAnyRun | internal/app/reconcile.go:71-122 | so it does after any run from the empty database |
| Books.LogRebuildsTheLedger | internal/domain/event.go:150-164 | replaying a wallet's balance events rebuilds its ledger and balance, under consecutive versions |
| Books.EveryOutcomeIsLoggedOnce | internal/app/events.go:85-120 | after any run each terminal operation has exactly one terminal event telling its row, and each one that ever waited exactly one pending event |
| Guards.ReadyToCommitIsSound | internal/adapter/postgres/wallet.go:76-112 | a unit of work that passed its guards commits soundly, whatever the others committed since it read |
| Guards.UndoneStays | internal/app/reversal.go:96-106 | a commit on the same wallet moves its version; any other commit undoes something else |
| Guards.OthersSurviveCommit | internal/adapter/postgres/wallet.go:70-112 | a commit leaves everything every other live unit of work relies on in place |
| Guards.EveryInterleavingIsSound | internal/adapter/postgres/wallet.go:76-112 | every interleaving keeps the invariant by the version guard alone, with or without the wallet lock |
| Guards.MessageIsHandledOnce | internal/app/consumer.go:305-346 | in every interleaving a message whose handling committed stays recorded as completed and is never held again |
| Locking.GuardNeverFiresUnderLock | internal/adapter/postgres/wallet.go:36-50 | while the lock is held the version guard never fails, so the lock alone suffices too |
| Locking.IndexNeverNeeded | internal/app/reversal.go:43-50 | no commit would break the unique index on resolved references, lock or no lock |
| Locking.IdleIsLocked | internal/adapter/postgres/wallet.go:36-50 | a sound database with nothing running is a starting point for all the lock results |
| Refinement.UnawareExactly | internal/app/reversal.go:56-71 | at commit a verdict differs from looking again iff it was to wait and the reference is terminal by now; the reference is then on another wallet |
| Refinement.MissedIsRefused | internal/app/reversal.go:71-117 | looking again at such a reference refuses under a code other than REFERENCE_NOT_FOUND |
| Refinement.UnawareOnlyDelays | internal/app/reference_worker.go:174-214 | acting on a missed reference moves no money, parks a submission, reschedules a visit or gives it up as not found; the aware decision rejects, and the two rows differ |
| Refinement.SerialUnlessUnaware | internal/app/submit.go:326-393 | under the lock the commit of a settled operation is the serial step of that moment iff it is not unaware |
| Refinement.AbsorbedCommitsSerially | internal/app/consumer.go:323-345 | a delivery that recorded only its message did what the serial delivery does at commit iff its pair is not by then stored with other content or under another key |
| Refinement.UnservableIsRefused | internal/app/submit.go:245-367 | a request refused for good is refused by a domain rule on any sound state that has not stored its pair |
| Refinement.UnrecordedExactly | internal/app/submit.go:300-367 | a new operation is refused without a record iff the request makes no operation, its wallet is missing or another player's, it is a loss in another currency, or an id it was handed is taken |
| Refinement.DeliveredIsDelivery | internal/app/consumer.go:305-346 | the action a committed delivery stands for is the serial delivery of any command that parses to its request, on every database |
| Refinement.TurnIsSerial | internal/app/submit.go:326-393 | whatever a statement does to the tables, the one-at-a-time model does by the action it commits, each action guarded by its condition |
| Refinement.EveryInterleavingIsSerial | internal/app/submit.go:326-393 | under the lock every interleaving ends where that model gets by taking the committed actions in commit order |
| Refinement.FromNothing | internal/app/submit.go:326-393 | in particular from the empty database, and the end is sound |
| Divergences.LoneSubmission | internal/app/submit.go:174-201 | a submission that settles has a run of its statements, alone among idle others, ending in the serial step |
| Divergences.GivenUpUnaware | internal/app/reference_worker.go:174-214 | for every last visit of a waiting reversal and every reference that would end on another wallet there is a history in which the reversal ends as not found after the reference ended, where looking again refuses under another code |
| Divergences.LoneVisit | internal/app/reference_worker.go:148-218 | a due visit that settles has a run of its statements, alone, ending in the serial step |
| Divergences.LoneDelivery | internal/app/consumer.go:286-349 | a delivery the serial model handles, settled, replayed or refused by a domain rule, has a run of its statements, alone, ending in that |
| Witnesses.UnawareHappens | internal/app/reversal.go:56-71 | from the empty database, with commands that parse: a rollback ends as not found although the bet it names had ended before it committed |
| Witnesses.OvertakenHappens | internal/app/consumer.go:323-345 | from the empty database, with commands that parse: a refused delivery records its message although its pair is stored by then, where the serial delivery changes nothing and releases it |
| Witnesses.MisleadingHappens | internal/app/reference_worker.go:148-218 | on a database so reached, a pass of two tries finds work and then nothing |
| Witnesses.CountMisleads | internal/app/publisher.go:59-101 | on a database so reached, a refused row counts as one published and a retried one as two |
| Witnesses.ReplayTellsAnother | internal/app/submit.go:224-228 | from the empty database, with commands that parse: a rollback parks and is told zero, is processed later, and from then on every replay of it tells five |
| Witnesses.OrderBreaks | migrations/00004_outbox.sql:11-14 | from the empty database, with commands that parse: the broker takes an operation's second event before its first |
| Races.AttemptsCountVisits | internal/domain/transaction.go:324-358 | over any interleaving, lock or no lock, a row still parked has the attempts it had plus its committed visits, within the maximum, and its old deadline |
| Races.EveryWaitEnds | internal/app/reference_worker.go:204-214 | every parked reversal, self-references and mutual references included, is terminal after MaxAttempts committed visits, unaware ones included, whoever races with them |
| Races.AttemptsStayBounded | internal/app/reference_worker.go:204-210 | attempts never exceed the maximum over any interleaving |
| Races.FinishedForEver | internal/adapter/postgres/transaction.go:94-146 | a terminal row never changes again, whatever workers holding stale copies do |
| Races.SubmittedOnceForEver | internal/app/submit.go:131-166 | after any interleaving a stored submission is answered from its row, unchanged once terminal, and no unit of work that looks its pair up writes it again |
| Replays.SettledIsAnswered | internal/app/submit.go:478-505 | when a submission settles, the stored balance equals the one it is told iff the operation is processed |
| Replays.CommitIsAnswered | internal/app/submit.go:478-505 | the same when it commits among others, lock or no lock, delivered or not |
| Replays.ReplayTells | internal/app/submit.go:210-229 | after any interleaving the same submission is replayed: unchanged if it ended at once, told the balance first told iff processed; if it parked, told none until it is processed and then what its own later entry left |
| Replays.ToldForEver | internal/app/submit.go:224-228 | every later replay tells the balance first told iff the operation was processed by its own submission |
| Progress.BlockerIsAhead | internal/adapter/postgres/wallet.go:36-50 | whoever a unit of work has to wait for is further along, lock or no lock |
| Progress.NoCircularWait | internal/adapter/postgres/wallet.go:41-44 | no chain of waiting units of work, however long, comes back to where it began |
| Progress.EverybodyCanFinish | internal/adapter/postgres/wallet.go:41-44 | from any reachable state there is a schedule in which every unit of work ends by its own statements |
| Progress.UnrelatedNeverBlock | internal/adapter/postgres/wallet.go:36-50 | units of work on different wallets that share no key never wait for each other |
| Numbering.TurnedKeeps | migrations/00001_initial_schema.sql:149-187 | with numbers drawn at the insert and seen at the commit, every statement keeps: no number twice, each wallet's visible entries ascending, each number held back past all visible ones of its wallet |
| Numbering.AsksGrow | internal/adapter/postgres/ledger.go:45-85 | between two pages of any interleaving each wallet's visible rows ascend and grow by prefix, though other wallets' lower numbers may appear |
| Numbering.PagesNeverSkipOrRepeat | internal/adapter/postgres/ledger.go:45-85 | pages read at any moments of any interleaving are the first of the wallet's entries past the cursor, in order, none skipped or repeated |
| Numbering.NothingNumbered | migrations/00001_initial_schema.sql:149-187 | the empty table and an idle system satisfy it |
| Numbering.RowsAreTheLedger | internal/adapter/postgres/ledger.go:52-58 | from the start, the rows served are the wallet's ledger |
| Numbering.StoredEntriesAreReadable | internal/adapter/postgres/ledger.go:120-177 | at any moment every entry a page returns passes the checks made on reading it |
| RowCodec.ReadsBackCut | internal/adapter/postgres/transaction.go:180-296 | scanning an encoded operation gives it back with its instants cut to the microsecond iff its shape then passes rehydration and both amounts share a currency |
| RowCodec.ColumnByColumn | internal/adapter/postgres/transaction.go:58-92 | every field is written to the column of its own name, empty text, unset instants, codes and balances as NULL |
| RowCodec.RoundTrip | internal/adapter/postgres/transaction.go:180-296 | it gives the very same operation iff moreover every instant is a whole microsecond |
| RowCodec.ReadingIsStable | internal/adapter/postgres/transaction.go:180-296 | what was read is written and read again unchanged |
| RowCodec.NanosecondsAreLost | migrations/00001_initial_schema.sql:62-63 | a sound operation created a nanosecond past a microsecond does not read back as written |
| RowCodec.StoredRowsReadBackCut | internal/adapter/postgres/transaction.go:58-92 | every stored row reads back cut, and exactly iff its instants are whole |
| RowCodec.OverwriteIsInsert | internal/adapter/postgres/transaction.go:101-131 | the update's eight columns leave the row exactly as inserting the whole value would |
| RowCodec.TransitionsUpdateWhole | internal/domain/transaction.go:437-473 | after any sequence of domain transitions the update writes the whole value, along allowed edges, from no terminal state |
| Paging.ListByWallet | internal/adapter/postgres/ledger.go:45-85 | the loop over the numbered rows returns the page past the cursor, its last sequence number, and whether more follow |
| Paging.PageIsFull | internal/adapter/postgres/ledger.go:45-85 | a page is exactly as long as was asked for unless nothing follows it |
| Paging.CursorsNeverSkipOrRepeat | internal/adapter/postgres/ledger.go:45-85 | with any page sizes, and any rows of other wallets appearing anywhere in between, the pages served are a prefix of the wallet's entries in order |
| Paging.CursorsServeEverything | internal/adapter/postgres/ledger.go:45-85 | on a table that stands still, following the cursors serves every entry exactly once and no page before the end is empty |
| Paging.HasMoreIsHonest | internal/app/ports.go:60-68 | a page says there is more iff its cursor leads to something |
| Storage.Store.constructor | internal/app/openwallet_test.go:94-140 | a new store is the empty database |
| Storage.Store.FindByBusinessID | internal/adapter/postgres/transaction.go:33-43 | finds the one row with that pair, or reports its absence |
| Storage.Store.FindProcessedReversalOf | internal/adapter/postgres/transaction.go:45-56 | finds a processed reversal iff there is one |
| Storage.Store.InsertTransaction | internal/adapter/postgres/transaction.go:58-92 | inserts, or names the first shape check or unique key that refuses, business pair before idempotency key |
| Storage.Store.UpdateTransaction | internal/adapter/postgres/transaction.go:94-146 | writes the transition's columns, unless the stored row is missing or terminal or the patched row breaks a shape check or the index of one resolved reversal per operation, each reported in that order |
| Storage.Store.UpdateBalance | internal/adapter/postgres/wallet.go:70-112 | writes iff the stored version is the expected one, telling a missing wallet from a moved one |
| Storage.Store.ClaimDueReference | internal/adapter/postgres/transaction.go:319-358 | of the due reversals that nobody else has locked, the one that has waited longest, or none iff every due one is locked |
| Storage.Store.ClaimDueEvents | internal/adapter/postgres/outbox.go:40-76 | the first unpublished due events that nobody else has locked, in recorded order |
| Storage.Store.ClaimMessage | internal/adapter/postgres/inbox.go:34-51 | records a message once and reports a repeat without writing |
| Storage.PatchIsWhole | internal/adapter/postgres/transaction.go:94-131 | for a transition of the stored value, writing the changed columns stores the whole new value |
| UseCases.ProperIsPostable | internal/app/submit.go:585-597 | for every proper effect the schema's checks pass, the events can be built, and attempts exceed zero iff the row already exists |
| UseCases.UpdateSucceeds | internal/adapter/postgres/transaction.go:94-146 | when an effect meeting ProperIsPostable changes an existing row none of those refusals can occur, and the columns written are the whole new value |
| UseCases.Record | internal/app/events.go:28-53 | the loop appends every event under its own fresh id, or fails iff an id is taken |
| UseCases.ResolveReference | internal/app/reversal.go:51-140 | two reads and the table of cases give the serial verdict |
| UseCases.WriteReversal | internal/app/submit.go:585-597 | the row, the balance and the entry are all written, or the first schema rule that refuses is reported; Update is chosen exactly when the row exists |
| UseCases.ApplyReversal | internal/app/submit.go:533-581 | a domain refusal has written nothing; success has written everything but the events |
| UseCases.ResolveNow | internal/app/submit.go:458-526 | parks, rejects or applies exactly as the serial model decides, and a rejection after a refused reversal commits no part of it |
| UseCases.SettleNow | internal/app/submit.go:345-442 | bets, wins and losses end exactly as the serial model decides |
| UseCases.ExecuteIn | internal/app/submit.go:174-201 | the whole submission does what the serial model answers, and a domain error leaves every table as it was |
| UseCases.VisitOne | internal/app/reference_worker.go:164-217 | a visit to a claimed reversal does what the serial model answers |
| Ports.Execute | internal/app/submit.go:131-166 | each try on fresh state fails for its own refusal or a denied commit and no other reason, and is followed by another only if that was transient; the last one's serial answer commits whole, or nothing is written and its error is returned; after a conflict the answer comes from what is stored by then |
| Ports.LoserAnswersLikeALatecomer | internal/app/submit.go:146-165 | the loser of a race for one business pair finds the winner's row and answers as a submission arriving then would |
| Ports.SecondLookByTable | internal/app/submit.go:140-165 | a key held by another operation is final; after any other conflict the stored row of the pair answers, and with none the conflict stands |
| Ports.HandleOne | internal/app/reference_worker.go:148-218 | each try claims the longest-due reversal that nobody held, or finds every due one held, and fails only for what its visit refuses or a denied commit; the committed one visits as the serial model does; `worked` holds iff some try found work |
| Ports.PassCanMislead | internal/app/reference_worker.go:148-218 | whenever another instance's visit, and others' locks, leave nothing to claim at the second try, such a pass is possible |
| Ports.RunOnce | internal/app/reference_worker.go:128-146 | each pass is one of those, each begins where the one before left off or later, the number handled is the committed visits plus the misleading passes; a batch ends early only when every due reversal was locked by others, or with the error of its last pass |
| Ports.ApplyMessage | internal/app/consumer.go:286-349 | inbox record and effect land in one transaction exactly as the serial delivery says; the answer reported is the one the serial submission gives; it errs only for a first delivery that is not through or a refusal other than a domain rule's |
| Ports.HandleMessage | internal/app/consumer.go:210-349 | with retry, the message is deleted iff its last try's commit was granted, and then the serial delivery is what was committed, reported as done iff some try did the work and under the last answer any try had; otherwise nothing was written and it is released |
| Ports.ReportMisleadsExactly | internal/app/consumer.go:292-349 | the report disagrees with the committed try iff that one found the message handled and an earlier one had worked; its answer is another's iff it has none and an earlier try had one |
| Ports.ReportCanMislead | internal/app/consumer.go:292-349 | whenever two instances can both settle a delivered command, one may report an operation that was never stored |
| Ports.WorkedMisleadsExactly | internal/app/reference_worker.go:148-218 | `worked` disagrees with the committed try iff that try found nothing and an earlier one had |
| Ports.OpenIn | internal/app/openwallet.go:113-140 | reports the first key in the way, in the order they are tried, and with none in the way has written wallet, operation, entry and both events |
| Ports.OpenWallet | internal/app/openwallet.go:43-146 | refuses the first wrong argument by its own code; otherwise it succeeds iff its last try met no taken key and the database granted the commit, opening exactly that wallet and credit, and fails only for that key or that denial, leaving the database as it was |
| Publishing.PublishOne | internal/app/publisher.go:84-131 | the row is published now iff the broker said it took the event, and put back with one attempt more, for between half its backoff and all of it, iff it said not; no other row changes |
| Publishing.PassOnce | internal/app/publisher.go:59-82 | the first due rows that nobody held are claimed and offered once each, in order; each ends as the broker answered, every other row is untouched, and the count is of rows claimed |
| Publishing.CountTellsPublished | internal/app/publisher.go:59-101 | the count is the number of events the broker took in the committed try iff every earlier try claimed none and it refused none |
| Publishing.CountCanMislead | internal/app/publisher.go:59-101 | a refused row is counted, and a retried one is counted twice |
| Publishing.RunOnce | internal/app/publisher.go:59-82 | each try claims so and fails only if it is denied its commit; the committed one dealt with each row as the broker answered, and its count is true in exactly that case; an uncommitted one changed no row, and nothing counts as published that the broker never took under that id |
| Outgoing.ChronicleKeeps | internal/app/publisher.go:59-131 | in any history of commits, openings, claims, offers, crashes and finishes by several publishers, no two publishers hold one row and every published row was taken by the broker under its id |
| Outgoing.EveryEventIsDueOrAccepted | internal/adapter/postgres/outbox.go:40-137 | from nothing, after any such history every event ever recorded is in the outbox unchanged under its id and is returned by the due query from its instant on to whoever finds it unlocked, unless the broker took it under that id |
| Outgoing.OfferIsSettled | internal/app/publisher.go:84-131 | in any such history an offer is settled as sent iff the broker said it took the event, and otherwise postponed by its backoff |
| Outgoing.FinishWrites | internal/app/publisher.go:59-106 | a pass that finishes publishes at its instant every row it settled as sent, and adds an attempt and the new instant to every other |
| Outgoing.SentIsDone | internal/adapter/postgres/outbox.go:44-76 | an event so published is never due again, whatever happens later |
| Ordering.OrderKept | internal/app/publisher.go:59-101 | one happening keeps each aggregate's events in order iff it is not the taking of an event that overtakes an earlier one its pass left behind |
| Ordering.OrderExactly | migrations/00004_outbox.sql:11-14 | over any history of publishers, crashes and everything else, events of one aggregate first reach the broker in the order they were recorded iff none ever overtakes |
| Ordering.OrderFromNothing | migrations/00004_outbox.sql:11-14 | in particular from nothing |
| Ordering.RefusalReorders | internal/app/publisher.go:84-101 | whenever two events of one aggregate are first in line, a pass in which the broker refuses the first and takes the second breaks the order |

## Left out

- HTTP handlers, JSON, OIDC and scopes: the caller's provider is taken as already authorised.
- SHA-256: taken as an injective function, here the identity on the canonical text.
- Identifier and currency parsers beyond length and shape: ids are non-empty strings; stored currencies are non-empty.
- Strings are sequences of bytes written as characters; no Unicode.
- Instants are integers, zero meaning never set; one clock reading serves a whole unit of work, where the code reads the clock again for each batch of events.
- Minted ids are arbitrary strings; a clash is a schema conflict, and a failing id generator is not modelled.
- FAILED: no modelled step produces it (none in the source does); the state machine still has it.
- Metrics, logs, correlation ids, event payload bytes and `last_error`: no effect on state.
- SQL and PostgreSQL internals: statements are atomic on the committed tables, unique keys and row locks make a second writer wait, and SKIP LOCKED claims pass over held rows. Deadlock detection and serialization failures appear only as a commit that may be refused.
- Outside `RowCodec`, stored instants are kept whole, as if the clock ticked in microseconds; what the columns cut off is stated there.
- Sequence numbers of one shared counter: an insert that waits for a lock draws its number when it completes, where PostgreSQL draws it before the wait.
- Batch sizes, intervals and timeouts of the policies: only the waiting rules are modelled.
- Statements of an interleaving: the two event inserts of one unit of work are one statement, and openings and publish passes are single steps.
- Ports.OthersCommit: what other instances do between two tries is known only as keeping the invariant and extending history.
- Publishing.RunOnce: what others hold is known only at the moment of each claim.
- Snapshot isolation of reconciliation: it is modelled as reading one database value.
- Base64 cursors, queue visibility timeouts and long polling: transport.
