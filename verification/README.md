# Verified models of the multi-tenant SaaS kernel

Dafny models of five components whose correctness does not show in any single function, with proofs of what they
are for. `dafny verify dfyconfig.toml` checks everything.

- **SQL tenant rewrite** (`data/sqlx`): `SqlText`, `SqlScanner`, `SqlAnalysis` model the byte scanner and the analyzer,
  `SqlRewrite` the splice of the tenant condition. `SqlSplicing` proves that scanning is compositional: a text may be
  cut, extended and moved without changing its tokens. From this, `SqlRewrite` and `SqlIsolation` derive what the
  scanner reads in a rewritten statement, which rows its WHERE clause keeps, and which argument each placeholder gets.
  `SqlMeaning` gives WHERE clauses a Boolean reading of their own (OR below AND below parentheses; CASE and BETWEEN
  keep their words), independent of the rewrite. `SqlGrammar` and `SqlStatements` are the grammar of tokens and of
  accepted statements, written down without a scanner or an analyzer; both are proved to accept the same texts.
- **Cached tenant store** (`core/store/cached.go`): `TenantCache` has the locked sections as class methods over the
  coordinator and the cache, with the choice of one of 64 shared coordinators by a cache's address, and a coordinator of
  its own for each wrapper whose cache is no pointer. `CacheCoherence` interleaves any number of Get and write calls
  over one source and any caches, section by section, each cache under its coordinator's generation and legacy lock,
  with cache operations that may fail leaving the old or the new state. `CacheWrites` says what writes leave in the
  source and what an undisturbed cache serves, `CacheSwaps` when compare-and-swap is atomic.
- **Commission engine** (`biz/commission`): `CommissionFormula` is the 64-bit calculation against exact integer sums,
  `CommissionCap` the check that a program stays within its template, `CommissionLedger` what each store operation
  refuses and does as functions of the ledger, `CommissionStore` the in-memory store as a class whose methods are
  proved against those functions, and `CommissionRuns`, `CommissionBalance`, `CommissionHistory`, `CommissionBooks` and
  `CommissionDue` prove what holds of the ledger after any run. `CommissionTiers` counts what tiers pay unit by unit,
  `CommissionAnswers`, `CommissionOutcomes` and `CommissionRefusals` say field by field what calculations, program
  checks and store operations answer and leave, and for what they are refused. `Sorting`, `Sums` and `WhiteSpace` are
  shared helpers.
- **Subscription service with billing hooks** (`subscription/memory.go`): `SubscriptionService` is the class;
  `SubscriptionHooks` interleaves calls of several services, with hooks that make calls of their own and may return
  before those calls do. `SubscriptionOutcomes` says what each operation asks and leaves, and what is committed.
- **Deployment placement** (`deployment`): `DeploymentStore` is the store class with its written invariant;
  `DeploymentService` interleaves the read-then-write calls of any number of service instances. `DeploymentOutcomes`
  says what store operations ask and leave, and that tenants are placed only where the policy has allowed it.

State-changing operations appear twice: as a method in the source's own form (fields, loops, early returns), and as a
function of the old state that the method's `ensures` equates with the new state. The lemmas about runs are about these
functions, and so are those of the `Grammar`, `Statements`, `Writes`, `Tiers`, `Answers`, `Outcomes` and `Refusals`
modules, which state in other terms what the functions must compute. `CommissionBooks.OutcomesAreSteps` ties what the
commission store's methods ensure to the steps of a run.

## What the proofs found

- A rewritten statement isolates the tenant for every old predicate if and only if the configured condition has no OR
  of its own at the top level (`SqlMeaning.IsolatesExactlyWithoutOr`). Field names are checked for their characters only
  (`data/option.go:56-84`): a tenant field called `OR` is accepted, and the condition then isolates nothing in this
  model's Boolean reading (`SqlIsolation.FieldNamedOr`). Common databases refuse `(p) AND OR = ?` as a syntax error
  instead. The reading takes every word OR for the connective, also that of a qualified column such as `t.OR`. The
  condition in `SqlIsolation.QueryIsolatesTenant` depends on the options alone and can be checked when they are set.
- The legacy path of `CompareAndSwap` compares and writes under the lock of its cache's coordinator only
  (`core/store/cached.go:137-173`), although its comment promises atomicity within the process. With two wrappers of one
  store whose caches fall on different stripes, a write through one between the two source calls of the other is lost,
  and the swap reports success (`CacheSwaps.StripesLoseUpdates`).
- The legacy path does not ask either that the expected and the updated record are of one tenant. It compares the one
  tenant and replaces the record of the other without looking at it, with a single wrapper and no other call
  (`CacheSwaps.TwoTenantsOverwrite`). The stores that swap by themselves refuse such a call (`core/store/memory.go:137`,
  `CacheSwaps.TwoTenantsRefused`), and `core/store/store.go:18-21` promises that only the expected record is replaced.
- With both taken together: swaps through some wrappers are atomic in every run if and only if the source swaps by
  itself, or the wrappers share a coordinator and no swap names two tenants (`CacheSwaps.SwapsAtomicExactly`). A caller
  can check all three before the call.
- The comparison of a program's tiers with its template's pairs them in sorted order. Where no two tiers of a rule
  share a range, it accepts exactly the rules each of whose tiers is dominated (`CommissionAnswers.WithinCapExactly`).
  Where two do, another pairing may exist that the sorted one misses, and the program is refused
  (`CommissionAnswers.SharedRangesMayFail`). What is accepted never pays more (`CommissionCap.CapSoundness`).
- The outbox identifier of a new earning is derived from the bare status, while the event's type carries the
  `commission.earning.` prefix (`biz/commission/service.go:1015-1017`); the model keeps the difference, and the
  identifiers stay distinct.
- `CommitEvent` of the store accepts earnings in any status from its caller. The balance of batches and earnings is
  proved for commits as the service builds them (`CommissionLedger.ServiceCommit`), with any program, template,
  versions and calculations.

## Assumptions

Sources and hashes are taken at their word: a source call is atomic, and a failed one changes nothing; `stableID` and
the fingerprints never collide, so they are datatype constructors (`biz/commission/identifiers.go:12-33`); versions and
the cache generations do not wrap around; a panicking hook is a failing one, and the calls a hook waits for are made
with the context it was given. SQL texts are ASCII.

The results about the cached store and its swaps are about writes through wrappers in one process: a write made on the
wrapped source directly does not take the legacy lock, is lost in the window between a legacy swap's two source calls
like one through another stripe, and invalidates no cache. A source that swaps by itself does so in one step and refuses
two tenants, as MemoryStore and SQLStore do; a wrapper over a store without its own swap is not such a source.

## Model

| member | source | states |
|---|---|---|
| SqlScanner.ScanSQL | data/sqlx/scanner.go:300-373 | The scanning loop ends and accepts exactly the texts that can be read lexeme by lexeme with balanced parentheses, returning those tokens |
| SqlScanner.ScanQuoted | data/sqlx/scanner.go:375-392 | Finds the end of a quoted text, with doubled quotes and backslashes, or reports that it is open |
| SqlScanner.ScanBracketIdentifier | data/sqlx/scanner.go:394-406 | Finds the end of a bracketed identifier with doubled closing brackets |
| SqlScanner.DollarQuoteDelimiter | data/sqlx/scanner.go:408-426 | Finds the delimiter of a dollar quote exactly when one starts here |
| SqlPartition.TokensPartitionText | data/sqlx/scanner.go:300-373 | The tokens of an accepted text are ordered, non-empty slices of it with only white space between them; each depth counts the open parentheses and the scan ends balanced |
| SqlGrammar.ScanExactly | data/sqlx/scanner.go:300-426 | A text scans to some tokens if and only if these are its tokenization: slices with blanks between them, each a word, a quoted name, a string, a dollar-quoted text or a single symbol by its spelling and what follows it, with balanced parentheses |
| SqlGrammar.AcceptedHasNoComment | data/sqlx/scanner.go:308-311 | No accepted text has a semicolon, a hash or a zero byte outside quotes, or two touching symbols that open or close a comment |
| SqlGrammar.FoldExactly | data/sqlx/scanner.go:21-23 | Words and names are compared letter by letter, in either case |
| SqlSplicing.RunAppend | data/sqlx/scanner.go:300-426 | Scanning a text followed by one that starts with a separator gives the tokens of the first and then those of the second |
| SqlSplicing.RunCut | data/sqlx/scanner.go:300-426 | Cutting an accepted text after any token cuts its token list there |
| SqlSplicing.RunMoved | data/sqlx/scanner.go:300-426 | The same text scans to the same tokens anywhere and at any depth, only moved |
| SqlSplicing.RunTrimSpace | data/sqlx/scanner.go:144-151 | Trimming white space changes no token |
| SqlAnalysis.UniqueTopLevelWord | data/sqlx/scanner.go:153-164 | Finds the only occurrence of a word outside parentheses, or refuses none and several |
| SqlAnalysis.OptionalUniqueTopLevelWord | data/sqlx/scanner.go:166-177 | The same where the word may be missing |
| SqlAnalysis.ConsumeIdentifierPath | data/sqlx/scanner.go:236-251 | Consumes the longest dotted path, or refuses |
| SqlAnalysis.PathWhole | data/sqlx/scanner.go:236-251 | A token list is consumed whole exactly when identifiers and dots alternate in it |
| SqlAnalysis.ValidateAssignment | data/sqlx/scanner.go:199-234 | The check of one piece of a SET list, with its error |
| SqlAnalysis.ValidateAssignments | data/sqlx/scanner.go:199-234 | The loop finds the first error among the comma-separated pieces |
| SqlAnalysis.AssignmentsForm | data/sqlx/scanner.go:199-234 | A SET list is accepted if and only if every piece is an identifier path, an equals sign and a non-empty expression, and no path names the tenant column in any case |
| SqlAnalysis.PiecesCover | data/sqlx/scanner.go:199-234 | The pieces joined by their top-level commas are the whole list |
| SqlAnalysis.AcceptedUpdate | data/sqlx/scanner.go:91-117 | An accepted UPDATE has a SET range that splits completely into such assignments |
| SqlAnalysis.AcceptedWhere | data/sqlx/scanner.go:29-142 | The accepted WHERE is outside all parentheses, is the last one there and has a predicate after it; an entry point, whose consequence for the rewritten text is SqlRewrite.RewriteScansAsSpliced |
| SqlStatements.AnalyzeExactly | data/sqlx/scanner.go:29-142 | The analysis accepts a token list with a clause if and only if it is a SELECT, UPDATE or DELETE of the written grammar with that clause: one simple relation, one top-level FROM, SET and WHERE, nothing of another statement and none of the refused words |
| SqlStatements.QueryExactly | data/sqlx/query.go:30-56 | A tenant's query is answered if and only if its text is tokenized into a statement of that grammar |
| SqlStatements.UpdateKeepsTenant | data/sqlx/scanner.go:199-234 | The SET list of every answered UPDATE is complete and no path in it ends in the tenant's column, in any case and any quoting style |
| SqlStatements.NamingTenantIsRefused | data/sqlx/scanner.go:228-230 | An UPDATE that is acceptable but for naming the tenant's column is refused with the tenant-field error |
| SqlStatements.ProtectedColumn | data/sqlx/query.go:58-63 | For safe options the protected column is what follows the last dot of the configured field |
| SqlStatements.QueryHasNoComment | data/sqlx/query.go:30-56 | Neither a tenant's accepted text nor the rewritten one has a comment or a separator outside quotes |
| SqlStatements.OnlyTenantsAreRewritten | data/sqlx/query.go:30-45 | Without a tenant no query is returned, and the host's text passes unchanged |
| SqlStatements.SafeExactly | data/option.go:56-84 | The field names that options accept are exactly the names joined by dots |
| SqlAnalysis.AnalyzeTenantRewriteSQL | data/sqlx/scanner.go:29-67 | Which statements are refused and why, and where the predicate of an accepted one starts |
| SqlRewrite.RewriteScansAsSpliced | data/sqlx/scanner.go:144-151 | The rewritten text of every accepted statement scans, to the original tokens through WHERE, an opening parenthesis, the old predicate one depth deeper, a closing one, AND and the condition; without WHERE, to the original tokens, WHERE and the condition |
| SqlMeaning.HoldsDeeper | data/sqlx/scanner.go:144-151 | Parentheses around a predicate do not change which rows it keeps |
| SqlMeaning.WrappedHolds | data/sqlx/scanner.go:144-151 | What the conjunction of a wrapped predicate and any condition keeps, with and without an OR in the condition |
| SqlMeaning.IsolatesExactlyWithoutOr | data/sqlx/scanner.go:144-151 | The rewrite keeps only rows of the condition, for every old predicate and row, if and only if the condition has no top-level OR |
| SqlMeaning.FillAppend | data/sqlx/query.go:30-56 | Placeholders of concatenated texts take concatenated arguments |
| SqlIsolation.ConditionScans | data/sqlx/query.go:19-28 | The generated condition scans to the field, an equals sign and a placeholder, and the soft-delete test when it is configured |
| SqlIsolation.ConditionHolds | data/sqlx/query.go:19-28 | The condition keeps exactly the tenant's rows that are not deleted |
| SqlIsolation.QueryScansAsSpliced | data/sqlx/query.go:30-56 | The text of every query that QueryWithArgs returns for a tenant scans to the spliced tokens |
| SqlIsolation.QueryIsolatesTenant | data/sqlx/query.go:30-56 | Its WHERE clause keeps exactly the rows of the old predicate that satisfy the tenant condition, and everything before WHERE is unchanged |
| SqlIsolation.FieldNamedOr | data/option.go:56-84 | A tenant field named OR passes the checks and, in this model's Boolean reading, does not isolate |
| SqlIsolation.QueryKeepsBindings | data/sqlx/query.go:30-56 | Each old placeholder keeps its argument, the tenant's placeholder takes the tenant, and none is left over |
| SqlNames.QuotedNameRoundTrip | data/sqlx/scanner.go:257-272 | Quoting any name in any of the quoting styles scans to one identifier whose value is the name |
| TenantCache.CachedStore.LookupCache | core/store/cached.go:175-188 | The locked look-up: recovers a poisoned cache first, and returns hit and generation of one moment |
| TenantCache.CachedStore.FillIfUnchanged | core/store/cached.go:190-210 | Leaves a bypassed cache alone; otherwise stores only under an unchanged generation in a cache that is not poisoned; a failed Set is undone or poisons |
| TenantCache.CachedStore.Invalidate | core/store/cached.go:212-230 | Leaves a bypassed cache alone; otherwise raises the generation and removes the entry, or clears or poisons the cache |
| TenantCache.CachedStore.RecoverPoisonLocked | core/store/cached.go:243-253 | Poison is lifted exactly when clearing the whole cache succeeds |
| CacheCoherence.NextKeeps | core/store/cached.go:70-276 | In every interleaving each entry of a cache that is not poisoned, and each fill that would still be accepted, is at least as new as the last invalidated write, whatever cache operation fails |
| CacheCoherence.GetAfterWriteIsFresh | core/store/cached.go:70-135 | A Get that starts after a write to the tenant has returned yields something the source held at or after that write |
| CacheCoherence.GetIsFresh | core/store/cached.go:70-89 | The same for all writes that had returned when the Get started |
| CacheCoherence.QuietCacheIsCurrent | core/store/cached.go:190-230 | Once every write has been invalidated, an entry of a cache that is not poisoned is what the source holds |
| CacheWrites.WritesAreKept | core/store/cached.go:95-173 | In every run the version of each successful call is what its change leaves: the record created, put or swapped in, or nothing after a Delete; a Create found no record and the others one |
| CacheWrites.VersionsAreWritten | core/store/cached.go:95-173 | Every version since the start was left by some successful call, so that failed calls leave nothing in the source |
| CacheWrites.GetYieldsLastWrite | core/store/cached.go:70-164 | A Get that starts after a write through its cache returned, with no later write to the tenant, yields exactly what that write left |
| CacheWrites.WriteAnswers | core/store/cached.go:95-164 | A write in one source call succeeds if and only if its change is possible, and which refusals drop the cached entry |
| CacheWrites.LegacySwapAnswers | core/store/cached.go:118-153 | A legacy swap goes on to write if and only if the compared record is the expected one; otherwise it drops the compared tenant's entry |
| CacheWrites.SecondCallAnswers | core/store/cached.go:137-153 | The second source call of a legacy swap writes if and only if there is a record, and gives the lock back either way |
| CacheWrites.FailAnswers | core/store/cached.go:70-135 | A failed source call ends its call without effect, but a failed refill does not fail its write |
| CacheWrites.FillLeaves | core/store/cached.go:190-210 | A fill touches at most one entry, and poisons the cache, counting that, exactly when neither Set nor Delete works |
| CacheWrites.InvalidateLeaves | core/store/cached.go:212-230 | An invalidation raises the generation by one, by two when it poisons, and leaves no entry of the tenant in a usable cache |
| CacheWrites.LookUpLeaves | core/store/cached.go:175-188 | A lookup changes a poisoned cache only, and hits only what a usable one held |
| CacheWrites.DropEmpties | core/store/cached.go:212-230 | After a committed or refused write, or a read that found nothing, a usable cache has no entry of the tenant and the generation is higher |
| CacheWrites.CacheServesGets | core/store/cached.go:70-89 | Of two undisturbed Gets the second is served by the cache with what the first returned |
| CacheWrites.CacheServesWrite | core/store/cached.go:95-113 | An undisturbed write refills the cache, and a Get then finds what was written |
| CacheSwaps.SwapIsAtomic | core/store/cached.go:118-173 | A successful swap appends its record to the tenant it names for the update; with the source's own swap, or when all writing wrappers share a coordinator, the compared tenant then still has the expected record, which is the one replaced when swaps name one tenant |
| CacheSwaps.SwapsAtomicExactly | core/store/cached.go:137-173 | For any set of wrappers, and with swaps of two tenants allowed or not, every swap of every run replaces the record it expected if and only if the source swaps by itself, or the wrappers share one coordinator and swaps name one tenant, or there are no wrappers |
| CacheSwaps.StripesLoseUpdates | core/store/cached.go:145-173 | With caches of two coordinators there is a run in which a swap overwrites another wrapper's write and succeeds |
| CacheSwaps.SharedExactly | core/store/cached.go:278-286 | Two pointer caches share a coordinator if and only if their addresses in words of eight bytes differ by a multiple of 64; any other cache shares its coordinator with no other wrapper |
| CacheSwaps.TwoTenantsOverwrite | core/store/cached.go:137-152 | Through one wrapper alone, a legacy swap that compares one tenant and updates another replaces that other's record, whatever it is, and succeeds |
| CacheSwaps.TwoTenantsRefused | core/store/memory.go:137-139 | A source that swaps by itself refuses such a swap and nothing changes; the partner of CacheSwaps.TwoTenantsOverwrite |
| CacheCoherence.PoisonLiftedOnlyEmpty | core/store/cached.go:243-276 | Whatever step lifts poison leaves the cache empty |
| CommissionFormula.PercentageMinor | biz/commission/formula.go:133-140 | The split product is the exact floor of minor times basis points over 10000 and never overflows |
| CommissionFormula.TierIntersection | biz/commission/formula.go:115-127 | The number of units below the amount that lie in the tier, counted one by one |
| CommissionTiers.TierPays | biz/commission/formula.go:87-127 | One tier pays its rate for the number of units of the amount in its range, rounded down, and its fixed part exactly when the amount lies in the range |
| CommissionTiers.ExactIsMarginal | biz/commission/formula.go:87-127 | The percentage part before rounding is the sum over every single unit of the rates of the tiers that have it |
| CommissionTiers.CoverAddsUp | biz/commission/formula.go:115-127 | For tiers that cover every amount exactly once the intersections add up to the amount |
| CommissionTiers.CoverPays | biz/commission/formula.go:87-127 | Such tiers pay the rate of every unit, less than one unit per tier below it, and the fixed part of the one tier in which the amount lies |
| CommissionTiers.ChainCovers | biz/commission/formula.go:115-127 | Ranges that follow each other from zero on, the last one open, are such a cover |
| CommissionFormula.CalculateRule | biz/commission/formula.go:87-113 | The exact sum over all tiers; overflow is reported if and only if that sum exceeds the largest 64-bit integer |
| CommissionFormula.TotalOfPermutation | biz/commission/formula.go:87-113 | The sum does not depend on the order of the tiers |
| CommissionFormula.RoundingLosesLessThanOnePerTier | biz/commission/formula.go:87-113 | The percentage part is below the exact rational by less than one unit per tier, and never above |
| CommissionFormula.Calculate | biz/commission/formula.go:13-59 | The first error in the order of the checks, or the non-zero payouts in rule order |
| CommissionFormula.CalculationExact | biz/commission/formula.go:13-59 | A calculation succeeds if and only if template and event are well formed and the exact total fits 64 bits and the cap; the payouts are positive and add up to it |
| CommissionAnswers.CalculatesExactly | biz/commission/formula.go:13-85 | Which events, templates and rules are calculable, spelled out, if and only if |
| CommissionAnswers.InputsRefused | biz/commission/formula.go:13-40 | The errors of inputs that are refused before any rule is looked at, in their order |
| CommissionAnswers.FirstUnpaid | biz/commission/formula.go:40-59 | The first rule that cannot be paid says which error the calculation returns |
| CommissionAnswers.PayoutsExactly | biz/commission/formula.go:40-59 | The payouts are those of the rules that pay something, each to its own beneficiary, and of no other |
| CommissionCap.CheckRuleWithinCap | biz/commission/service.go:917-930 | The comparison of the sorted tiers, pair by pair |
| CommissionCap.ValidateProgramAgainstTemplate | biz/commission/service.go:868-890 | Which programs are refused and with which error |
| CommissionCap.EffectiveTemplate | biz/commission/service.go:950-965 | The program's rules, each paid to the last active attribution of its slot |
| CommissionAnswers.PaidTo | biz/commission/service.go:950-965 | A slot is paid to its last active attribution, and to the rule's own beneficiary where no attribution of it is active |
| CommissionAnswers.AcceptsExactly | biz/commission/service.go:868-890 | A program is accepted if and only if it is complete, made for this version of the template, has each slot once, and each rule stays within the template's first rule of the slot |
| CommissionAnswers.FirstRefused | biz/commission/service.go:868-890 | The first bad rule says with which error a program is refused |
| CommissionAnswers.WithinCapExactly | biz/commission/service.go:917-948 | Where no two tiers of a rule share a range, it is within a cap if and only if tier by tier it is dominated |
| CommissionAnswers.SharedRangesMayFail | biz/commission/service.go:917-948 | With shared ranges a dominated rule may be refused |
| CommissionCap.WithinCapPaysLess | biz/commission/service.go:917-948 | A rule within a cap pays at most the cap's payout for every amount |
| CommissionCap.CapSoundness | biz/commission/service.go:868-965 | An accepted program pays, slot by slot and in all, at most what its template would, for every amount and all attributions |
| CommissionCap.CapPreventsOverflow | biz/commission/service.go:868-965 | Where the template's calculation fits, the program's does too |
| CommissionStore.BuildEventEntries | biz/commission/service.go:980-1028 | The earnings, journal entries and events of a decided event |
| CommissionStore.ValidateEventCommit | biz/commission/memory.go:910-961 | What is wrong with a commit by itself, including identifiers listed twice |
| CommissionStore.MemoryStore.ValidateCommitVersions | biz/commission/memory.go:736-771 | Program, template and attribution versions must be those the commit was calculated with |
| CommissionStore.MemoryStore.CommitEvent | biz/commission/memory.go:303-359 | All or nothing: an error leaves the whole store as it was, a repeated commit changes nothing and returns the recorded earnings, a first one posts everything |
| CommissionStore.MemoryStore.TransitionEarning | biz/commission/memory.go:439-471 | All or nothing: one manual change with its journal entry and event, or an error and no change |
| CommissionStore.MemoryStore.MakeAvailableDue | biz/commission/memory.go:475-527 | All or nothing: the first due earnings, ordered by time and identifier, become available |
| CommissionStore.MemoryStore.StartSettlement | biz/commission/memory.go:530-579 | All or nothing: every listed earning is claimed, or none |
| CommissionStore.MemoryStore.FinishSettlement | biz/commission/memory.go:601-669 | All or nothing: all earnings of the batch take the outcome, a repeated outcome changes nothing, another one is a conflict |
| CommissionStore.MemoryStore.ApplyEarningTransitions | biz/commission/memory.go:838-878 | After validation the loop that rewrites earnings one by one cannot stop half way |
| CommissionStore.MemoryStore.ValidateEarningTransitions | biz/commission/memory.go:822-869 | Reports a conflict exactly when an entry or event exists already or appears twice |
| CommissionStore.MemoryStore.MarkOutboxPublished | biz/commission/memory.go:713-734 | Only the first publication is recorded |
| CommissionLedger.ClaimsAddUp | biz/commission/memory.go:543-557 | Claims without a problem are all available at their versions and add up to the settlement's amount |
| CommissionRuns.MoveNeverCollides | biz/commission/memory.go:785-869 | Changes of stored earnings never derive an identifier that is in use |
| CommissionRuns.StepIsIndexed | biz/commission/identifiers.go:12-33 | Every operation keeps journal and event identifiers within the versions their earnings and batches have reached |
| CommissionBalance.StepIsBalanced | biz/commission/memory.go:439-669 | Every operation keeps batches and earnings consistent: each batch adds up, a submitted one holds settling earnings, a settled one settled or recoverable ones, and each of those is in exactly one of them |
| CommissionBalance.BooksBalance | biz/commission/memory.go:530-669 | For each tenant, beneficiary and currency the submitted batches add up to the settling earnings, and the settled batches to the settled earnings and those due for recovery |
| CommissionBalance.SubmittedCanFinish | biz/commission/memory.go:601-669 | A submitted batch can always be finished at its version, with either outcome |
| CommissionHistory.ChangeTells | biz/commission/state.go:83-121 | Every change of status and the journal entry written for it agree; the single step of CommissionHistory.MoveKeepsTelling, which carries the work |
| CommissionHistory.MoveKeepsTelling | biz/commission/memory.go:785-854 | Changing any number of earnings keeps every journal replay in step with its status |
| CommissionHistory.CommitKeepsTelling | biz/commission/service.go:1008-1012 | The entries of new earnings replay to their first status |
| CommissionBooks.RunKeepsBooks | biz/commission/memory.go:303-734 | The books are in order after every run of an empty store |
| CommissionBooks.JournalsTellStatus | biz/commission/memory.go:785-854 | Replaying an earning's entries in append order gives its status, except that it is settling exactly while a submitted batch holds it; read off the invariant that CommissionBooks.RunKeepsBooks proves |
| CommissionBooks.CommitDecided | biz/commission/memory.go:303-359 | A service-built commit is refused only for its form, another recorded decision or moved versions; its identifiers are always fresh |
| CommissionBooks.OthersNeverConflict | biz/commission/memory.go:563-669 | No transition or settlement ever fails with an identifier conflict |
| CommissionBooks.OutcomesAreSteps | biz/commission/memory.go:303-734 | What the store's methods ensure are steps of a run |
| CommissionOutcomes.CommitAccepted | biz/commission/memory.go:303-359 | In a store in order a decided event is committed if and only if the commit is proper and current, or repeats what is recorded |
| CommissionOutcomes.CommitAnswers | biz/commission/service.go:980-1028 | The first commit of an event stores exactly one earning per calculation, with amount, beneficiary and status by the freeze period, its entries and events, and changes nothing else |
| CommissionOutcomes.ProperExactly | biz/commission/memory.go:910-961 | A commit has the proper form if and only if its records are complete, its own, and not listed twice |
| CommissionOutcomes.CurrentExactly | biz/commission/memory.go:736-771 | A commit is current if and only if program, template and attributions are as it saw them |
| CommissionOutcomes.MovesExactly | biz/commission/state.go:83-121 | The changes of status there are, and the journal entry for each |
| CommissionOutcomes.ChangeAnswers | biz/commission/memory.go:439-471 | A manual change succeeds if and only if it names the earning as it is and the change exists; then this one earning, one entry and one event change |
| CommissionOutcomes.ChangeRefused | biz/commission/memory.go:439-471 | With which error a manual change of proper form is refused |
| CommissionOutcomes.ReleaseAnswers | biz/commission/memory.go:475-527 | The earliest earnings whose time has come are released, at most the limit, and none before its time |
| CommissionOutcomes.StartAnswers | biz/commission/memory.go:530-579 | A batch starts if and only if it is complete and new and its earnings are available at their versions, in its account, and add up to its amount; then they are settling and nothing else changes |
| CommissionOutcomes.FinishAnswers | biz/commission/memory.go:601-669 | A finish succeeds if and only if the batch is submitted at the given version or has this outcome and reference already, and what it then leaves |
| CommissionOutcomes.PublishAnswers | biz/commission/memory.go:713-734 | Only the first publication of a known event is recorded |
| CommissionRefusals.CommitRefused | biz/commission/memory.go:303-359 | With which error a decided event is refused: for an improper form, for another decision of the same event, or for the first thing that has moved |
| CommissionRefusals.StartRefused | biz/commission/memory.go:530-599 | With which error a batch is refused, and when the amount alone is the reason |
| CommissionRefusals.FinishRefused | biz/commission/memory.go:601-669 | With which error an outcome is refused |
| CommissionRefusals.OthersRefused | biz/commission/memory.go:475-734 | Releases are refused for their form only, publications also for an unknown event |
| CommissionBooks.RunPersists | biz/commission/memory.go:850-854 | Over a run journals only grow, recorded events stay, earnings keep all but status and version, and a batch with an outcome never changes |
| CommissionBooks.EarningsOfEvent | biz/commission/memory.go:303-359 | The stored earnings of a source event are exactly those of its one recorded event; read off the invariant that CommissionBooks.RunKeepsBooks proves |
| CommissionBooks.PaidOnce | biz/commission/identifiers.go:63-72 | Committing an event again at any later time changes nothing and returns the first earnings with their amounts and beneficiaries; other facts or another program conflict |
| CommissionBooks.CommittedWithinTemplate | biz/commission/service.go:498-551 | Each earning committed for an event of an accepted program is positive and at most what the template's rule for its slot would pay; together they are the exact total, within the template's total and its cap |
| CommissionDue.DueListUnique | biz/commission/memory.go:487-497 | The sorted list of due earnings is unique |
| CommissionDue.DrainReleasesInOrder | biz/commission/memory.go:475-527 | With a fixed clock and limit successive calls release consecutive blocks of that list, each earning once, and touch nothing else |
| CommissionDue.ReleasedIs | biz/commission/memory.go:498-500 | After n calls the smaller of n times the limit and the whole list has been released |
| SubscriptionService.MemoryService.LockMutation | subscription/memory.go:473-496 | One round of the waiting loop: a cancelled context gives up, a free tenant is taken, a call made from a hook is refused, any other waits for the pending owner |
| SubscriptionService.MemoryService.Subscribe | subscription/memory.go:117-161 | Stages a new active record, or refuses a zero period, a cancelled context, empty names, a call from a hook or an existing record, in this order |
| SubscriptionService.MemoryService.Unsubscribe | subscription/memory.go:163-190 | Stages the end of an active record, or changes nothing |
| SubscriptionService.MemoryService.Renew | subscription/memory.go:192-222 | Stages a new period and grace window for a record that is not cancelled, or changes nothing |
| SubscriptionService.MemoryService.Expire | subscription/memory.go:224-254 | Stages the expiry of an active record, or changes nothing |
| SubscriptionService.MemoryService.ExpireIfDue | subscription/memory.go:256-301 | One tenant's round of ExpireDue: stages the expiry, dated at the end of period or grace, of a record that is still due under the lock |
| SubscriptionService.MemoryService.ChangePlan | subscription/memory.go:415-443 | Stages another plan for an active record, or changes nothing |
| SubscriptionService.MemoryService.Create | subscription/memory.go:97-115 | Adds a valid record where there is none, or changes nothing |
| SubscriptionService.MemoryService.Update | subscription/memory.go:376-394 | Replaces an existing record by a valid one, or changes nothing |
| SubscriptionService.MemoryService.Delete | subscription/memory.go:396-413 | Removes an existing record, or changes nothing |
| SubscriptionService.LifecycleGuarantees | subscription/memory.go:97-302 | Each operation stages a record exactly in the statuses it accepts, keeps tenant, start, plan and period unless they are what it changes, and keeps the record consistent; an entry point, carried to whole runs by SubscriptionHooks.CommittedIsConsistent |
| SubscriptionService.RenewedIsNotDue | subscription/memory.go:536-560 | An expired record is never due again, and a renewed one exactly from the end of its new grace window; an entry point about one record, which SubscriptionHooks.CommittedHistoryIsSerial carries to committed ones |
| SubscriptionOutcomes.BeginsExactly | subscription/memory.go:97-302 | Which operation begins, waits or is refused with which error, in the order of the checks |
| SubscriptionOutcomes.LocksExactly | subscription/memory.go:473-496 | Who gets the lock of a tenant, who is refused and who waits for whom |
| SubscriptionOutcomes.BegunIsStaged | subscription/memory.go:117-443 | What each operation stages, field by field: new plan, new period and window, status and date of the end, and all that stays |
| SubscriptionOutcomes.WritesExactly | subscription/memory.go:97-115 | What each direct write leaves, or why it is refused |
| SubscriptionService.MemoryService.FinishPending | subscription/memory.go:507-518 | Commits or drops the staged record and releases the pending mutation of this owner only |
| SubscriptionService.MemoryService.HookCanRead | subscription/memory.go:520-529 | Exactly the hook chain of the pending mutation may read it |
| SubscriptionService.MemoryService.Get | subscription/memory.go:313-334 | The staged record inside its own hook, the committed one elsewhere |
| SubscriptionHooks.CommittedHistoryIsSerial | subscription/memory.go:445-518 | In every interleaving the committed record is the serial run of exactly the operations that took effect |
| SubscriptionHooks.CommittedIsConsistent | subscription/memory.go:445-560 | If the direct writes of a run are consistent, every committed record is: ended exactly when it is not active, with no grace window that ends before its period |
| SubscriptionOutcomes.HookCommits | subscription/memory.go:445-518 | When a hook succeeds in any run, what its operation leaves of the record committed before is committed, field by field |
| SubscriptionOutcomes.WriteCommits | subscription/memory.go:376-413 | A direct write that returns without error has left its record |
| SubscriptionOutcomes.RefusedReturns | subscription/memory.go:473-496 | A refused call returns the error and a waiting one waits for the pending owner; neither changes anything else |
| SubscriptionOutcomes.RecordsAreTheirs | subscription/memory.go:97-443 | Every committed record is stored under its own tenant's name |
| SubscriptionHooks.PendingFreezesRecord | subscription/memory.go:458-518 | While a mutation is pending only its own successful hook changes the tenant's record, to the staged one |
| SubscriptionHooks.FailedHookLeavesNoTrace | subscription/memory.go:458-518 | A failed hook drops the pending mutation and changes nothing else |
| SubscriptionHooks.OnlyOwnHookReadsStaged | subscription/memory.go:313-334 | A call, also one that outlives the hook it stems from, reads a staged record if and only if it stems from the hook of that very mutation |
| SubscriptionHooks.WaitersHoldNothing | subscription/memory.go:473-534 | A waiting call has no hook marker and owns no pending mutation, and the owner it waits for is in its hook or done |
| SubscriptionHooks.NoDeadlock | subscription/memory.go:473-518 | While any call is unfinished some call can go on, even if every hook waits for the calls it started |
| SubscriptionHooks.FinishReleasesWaiters | subscription/memory.go:507-518 | When the awaited hook returns, with success or not, its waiters can go on |
| DeploymentStore.MemoryStore.DisableUnit | deployment/memory.go:109-133 | Refused while an assignment or a move names the unit |
| DeploymentStore.MemoryStore.CreateMove | deployment/memory.go:345-375 | Only from the current unit to another active one, and one at a time |
| DeploymentStore.MemoryStore.CutoverMove | deployment/memory.go:259-302 | Assignment and move are replaced together, only as the caller saw them |
| DeploymentStore.MemoryStore.UnitReferencedLocked | deployment/memory.go:416-428 | The scanning loops find a reference exactly when there is one |
| DeploymentStore.RunKeepsPlaced | deployment/store.go:9-13 | After any store operations, direct swaps included, every unit named by an assignment or a move exists and is active |
| DeploymentStore.DisabledStaysDisabled | deployment/memory.go:86-133 | A unit that stays in the store never becomes active again |
| DeploymentOutcomes.PerformsExactly | deployment/memory.go:66-415 | Which store operations are accepted, spelled out, if and only if |
| DeploymentOutcomes.PerformLeaves | deployment/memory.go:66-415 | An accepted operation leaves its one record as it says, and a refused one everything as it was |
| DeploymentOutcomes.RefusedFor | deployment/memory.go:109-375 | With which error units in use, unknown or disabled units and conflicting moves are refused |
| DeploymentService.WorkflowBalances | deployment/service.go:140-311 | In every interleaving the successful prepares are the cutovers, the cancels and the pending move, the assignment's version is one plus the cutovers, and a prepared move starts from the current unit |
| DeploymentService.CutoverActsAtomically | deployment/service.go:230-286 | A cutover that succeeds replaces exactly the move and the assignment of that moment, although it read them earlier; read off the invariant that DeploymentService.NextKeeps proves of every step |
| DeploymentService.UndisturbedCutoverSucceeds | deployment/service.go:258-286 | A cutover of a prepared move that nobody disturbs succeeds, unless the version counter is used up |
| DeploymentOutcomes.PlacedOnlyWhereAllowed | deployment/service.go:320-334 | In every run each tenant is assigned, and each move prepared, only to a unit that the policy has allowed for the tenant |
| DeploymentOutcomes.ReadsExactly | deployment/service.go:140-334 | A read ends a call if and only if it finds one of the listed reasons, and with that reason's error |
| DeploymentOutcomes.UndisturbedAssign | deployment/service.go:140-164 | Left alone, an assignment succeeds if and only if the unit is active and allowed and the tenant has none |
| DeploymentOutcomes.UndisturbedPrepare | deployment/service.go:191-225 | Left alone, a move is prepared if and only if it leads to another active and allowed unit and none is prepared |
| DeploymentOutcomes.UndisturbedCancel | deployment/service.go:288-311 | Left alone, a cancel removes the prepared move, or fails where there is none |

## Left out

- Non-ASCII bytes in SQL texts: `TrimSpace` and the scanner's own notion of white space agree only on ASCII.
- The SQL stores, dialects, JSON encoding and the adapters for web, RPC, ORM, Redis and observability: database and
  framework code; the memory stores carry the same rules.
- CachedStore's Get, Create, Update, CompareAndSwap and Delete as single methods: they release the lock around the
  source call, so they are sequences of steps in CacheCoherence; their locked sections are the methods of TenantCache.
- Expiry of cache entries by time is an eviction step; List and the key format of the cache are not modelled.
- FieldNamedOr: stated in the Boolean reading of SqlMeaning; the grammar by which a database refuses or accepts the text
  is not modelled.
- LockMutation: one round of the waiting loop; waiting, waking and cancellation are steps of SubscriptionHooks. The
  per-tenant loop of ExpireDue is likewise one tenant at a time. Fairness among waiters is not promised by the code and
  not proved.
- Creating and changing templates, programs and attributions in the commission store: runs allow any control-plane state
  at every commit.
- Filters, pages and ordering of the list operations, timestamps other than the availability of earnings, payloads of
  events, and the decision snapshot of a recorded event: they are copied and never read by what is proved.
- Empty identifiers of earnings, journal entries and events: hashed identifiers are constructors and never empty. A nil
  and an empty attribute map are one map in the model.
- Authorization, request limits, cancelled contexts outside the subscription service, policies beyond an arbitrary yes
  or no, and audit calls.
- Whether every program that pays less than its template is accepted: a rule may also be cheaper without having the
  template's ranges, and is then refused.
- RecordEvent's own early refusals: a retry after the program was suspended is refused before it reaches the store, so
  payment at most once is stated at CommitEvent.
- `DeploymentService` has no DeleteMove and no direct CompareAndSwapAssignment among its steps: the service never calls
  them. They are operations of `DeploymentStore`. Resolve only reads and is left out.
- Quotas, plans, features, roles, users, audit, migrations, onboarding, notifications and AI accounting.
