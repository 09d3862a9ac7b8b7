# Ragmux: a verified model of the gateway's hard cores

Ragmux is an AI gateway. This project models the parts of it whose correctness is not visible from any single
function, and proves what they promise:

- **Image slots** (`ImageSlots`): the fair semaphore in front of image downloads, as a state machine over any number
  of threads; conservation, fairness, no lost wake-up, and progress in every interleaving.
- **Breaker, retry, walk, stream** (`Breaker`, `Retry`, `Walk`, `Stream`): the circuit breaker against its event
  history, the error classes, the nested retry and fallback loop over every world of answers, what a try does to its
  breaker, and the streaming attempt whose contract that loop relies on.
- **Limits** (`Limits`, `Limiter`): interleaved requests over two tiers of shared counters, with store statements that
  may fail, and the check and the recording as they run, each a path of that machine.
- **Gemini schemas** (`KeyOrder`, `JsonDoc`, `GeminiSchema`, `SchemaBounds`, `SchemaDepth`, `SchemaFixpoint`,
  `SchemaMerge`, `SchemaRefs`, `SchemaValues`, `SchemaTwice`, `SchemaWide`, `SchemaWalker`): the schema sanitiser on
  values, what every walk keeps, that references mean what they refer to, what each keyword comes out as, exactly which
  of its results it leaves alone, what allOf does, and the mutable walk that refines it whatever order maps are read in.
- **Patterns, prices, bills** (`Glob`, `Pricing`, `Ledger`): the greedy matcher, the price table and the conservation
  of tokens and cost.
- **Format stream** (`FormatStream`): the unwrapper whose result does not depend on how the text is cut.
- **Tool governance** (`ToolPolicy`), **image cache** (`ImageCache`), **Anthropic planning** (`AnthropicPlan`).

`Basics` holds what several modules share. `dafny verify dfyconfig.toml` checks everything.

## How the model is built

Objects that change in place are classes; each method is proved equal to a function on values, and the properties are
proved about that function and its runs. Concurrent protocols are state machines whose actions are the critical
sections and single channel or store operations of the code, so every interleaving is a run. Clocks, random draws and
configuration are parameters. What the code asks its surroundings (an attempt's result, a write failing, a client
leaving, a statement lost) is given as an argument, and the results hold for every value of it; the order a map is read
in is any.

In `GeminiSchema` every function of a level takes `sub`, what becomes of a schema one level further down. The facts
about a level are proved for any `sub`, and one short induction on the depth ties the levels together. JSON documents
are values: a number literal carries its text, the integer it spells and whether a double holds it. The output type
admits every keyword; that only allowed ones occur is proved.

## What came out differently

- `format` is checked after `allOf` has been merged, but against the type before. When every branch of the allOf is an
  object schema the node is emitted with type `object` and, say, format `date-time`, which is outside the whitelist
  (internal/provider/gemini_schema.go:350-358). `SchemaMerge.FormatRule` gives the exact condition.
- Sanitising twice is not always sanitising once. `SchemaTwice.SanitiseTwice` gives the exact condition, and there are
  two ways to miss it: a format parted from its type is dropped by the second pass (`SchemaTwice.PartedFormatIsLost`),
  and a schema met below the depth bound costs the first pass no budget, but lifted by a folded allOf it costs the
  second some, which may then truncate what the first did not (`SchemaWide.SecondPassTruncates`).
- A scrape evicts breaker entries without traffic (internal/gateway/breaker.go:253-269). A window longer than the idle
  time can therefore end early; `Breaker.WindowsHoldIff` says for which settings it cannot. Probe tokens are numbered
  anew in the entry that follows, so a report that comes later than the idle time can free a newer probe's slot;
  `Breaker.StaleReportKeepsSlotIff` says exactly when. That probes are OpenFor apart holds throughout.
- Storing a value too large for the image cache leaves an older value of the same url in place
  (internal/provider/imagecache.go:86-93), so a hit is the value put last exactly when that value fitted
  (`ImageCache.HitIsLastPutIff`).
- The documentation of an upstream call says that an error leaves the request row untouched
  (internal/gateway/pipeline.go:612-615). The retrieve attempt writes usage and charges to the row before the read of
  document metadata, which may still return an error (internal/gateway/retrieve.go:200-236);
  `Ledger.Call.RetrieveAttempt` states when the row is untouched. `Walk` asks of an attempt only that an error means
  nothing was written to the client, which the retrieve attempt keeps; streams keep both.
- The fallback for an empty node (internal/provider/gemini_schema.go:187-189) is never taken: by
  `GeminiSchema.NodeGood` every node has a type or an anyOf.

## Model

| member | source | states |
|---|---|---|
| `ImageSlots.MaxConcurrent` | internal/provider/images.go:506-511 | the number of slots is positive whatever the setting |
| `ImageSlots.TenantShare` | internal/provider/images.go:225-230 | a tenant's share is one slot of one, otherwise half of them, rounded down and at least one |
| `ImageSlots.StepConserves` | internal/provider/images.go:241-331 | every atomic step keeps the counters equal to what the threads are doing: semaphore tokens, waiting, queued and inflight of every tenant, entries deleted at zero |
| `ImageSlots.StepKeepsWakeups` | internal/provider/images.go:241-353 | every step keeps the no-lost-wake-up condition: whoever sleeps on the current wake channel is past its share and something that will close the channel is still due |
| `ImageSlots.StepInv` | internal/provider/images.go:241-353 | the conjunction of both is inductive over all ten actions of any number of threads |
| `ImageSlots.RunInv` | internal/provider/images.go:241-353 | it holds in every state of every interleaving |
| `ImageSlots.SumIsPending` | internal/provider/images.go:248-315 | the per-tenant queue counters add up to the number of pending threads |
| `ImageSlots.SlotsAreConserved` | internal/provider/images.go:225-331 | in every reachable state waiting is the sum of queued, inflight counts a tenant's holders and mid-release threads, and holders never exceed the configured slots |
| `ImageSlots.ReleaseNeverBlocks` | internal/provider/images.go:319-331 | draining the semaphore in release never blocks |
| `ImageSlots.PassesShareOnlyAlone` | internal/provider/images.go:241-306 | the only step that lifts a tenant past its share is an acquire made while nobody is queueing |
| `ImageSlots.AboveShareWitness` | internal/provider/images.go:241-331 | over a whole run: a tenant above its share got there by such a step of one of its own threads and has been above it ever since |
| `ImageSlots.WaitsOnlyForFullSlots` | internal/provider/images.go:241-353 | once nothing but arrivals, finished downloads and timeouts can happen, somebody still waits only if every slot is held by a download |
| `ImageSlots.SomebodyCanStep` | internal/provider/images.go:241-353 | with no slot held or being released, some acquirer can take a step that is not a timeout |
| `ImageSlots.StepUsesMeasure` | internal/provider/images.go:241-353 | every step that neither starts a request nor ends a download decreases a natural number |
| `ImageSlots.ComesToRest` | internal/provider/images.go:241-353 | so wake-ups cannot chase each other for ever: the number of such steps is bounded from any reachable state |
| `ImageSlots.ImageFetcher.constructor` | internal/provider/images.go:208-215 | the fields start as the machine's initial state |
| `ImageSlots.ImageFetcher.EnterLocked` | internal/provider/images.go:248-300 | the first critical section changes the fields exactly as the machine's step |
| `ImageSlots.ImageFetcher.Dequeue` | internal/provider/images.go:309-315 | one pending acquire less for the tenant, its entry deleted at zero, nothing else changed |
| `ImageSlots.ImageFetcher.BroadcastLocked` | internal/provider/images.go:350-353 | the current wake channel is closed and replaced |
| `ImageSlots.ImageFetcher.WakeIfQueueEmpty` | internal/provider/images.go:342-346 | the wake channel is replaced exactly when nobody is queueing |
| `ImageSlots.ImageFetcher.BookLocked` | internal/provider/images.go:254-263 | booking a slot that was sent to the semaphore is the machine's step |
| `ImageSlots.ImageFetcher.AbandonLocked` | internal/provider/images.go:264-278 | giving up in the queue is the machine's step |
| `ImageSlots.ImageFetcher.ReturnLocked` | internal/provider/images.go:319-331 | booking a release is the machine's step |
| `Breaker.RefinesHistory` | internal/gateway/breaker.go:157-269 | over whole histories, scrapes included, the record says what the history says: open iff at least threshold failures were counted since the last success or eviction, and the window is the one those failures started |
| `Breaker.AllowFollowsHistory` | internal/gateway/breaker.go:170-191 | allow in terms of the history alone: everything passes below the threshold, nothing inside the open window, only probes after it |
| `Breaker.HalfOpenAdmitsIff` | internal/gateway/breaker.go:170-191 | after the window a probe is let through if and only if no unreported probe is younger than OpenFor |
| `Breaker.WindowKept` | internal/gateway/breaker.go:206-239 | while the entry lives, failures reported while open never extend the window |
| `Breaker.RefusedWhileOpen` | internal/gateway/breaker.go:157-239 | every call within OpenFor of the opening is refused unless a success is reported or the entry is evicted |
| `Breaker.TouchedSurvives` | internal/gateway/breaker.go:253-269 | a connection outlives every scrape within the idle time after a call or a report |
| `Breaker.WindowsHoldIff` | internal/gateway/breaker.go:157-269 | in every history, scrapes included, every call inside a window is refused if and only if OpenFor is at most one nanosecond longer than the idle time |
| `Breaker.ScrapeEndsWindow` | internal/gateway/breaker.go:253-269 | with a longer window a history in which a call inside it goes through, whatever the threshold |
| `Breaker.NewestToken` | internal/gateway/breaker.go:178-188 | the probe slot belongs to the newest token and was taken in the past |
| `Breaker.StepKeepsSlot` | internal/gateway/breaker.go:170-269 | no event but its own report hands a probe's slot on before OpenFor is over, an eviction included: what the next entry opens, it opens later |
| `Breaker.ProbeSlotKept` | internal/gateway/breaker.go:170-239 | the same over any stretch of a history |
| `Breaker.ProbesAreExclusive` | internal/gateway/breaker.go:170-269 | two probes with no report of the first between them are at least OpenFor apart in every history: a close and reopen, an eviction and a new entry in between included |
| `Breaker.SlotHasProbe` | internal/gateway/breaker.go:170-216 | a taken slot goes back to an unreported probe of the history |
| `Breaker.TokensGrow` | internal/gateway/breaker.go:178-188 | tokens never go back within an entry's life |
| `Breaker.ReportFrees` | internal/gateway/breaker.go:206-216 | a report frees the slot exactly when it carries the token of the probe that holds it |
| `Breaker.StaleReportKeepsSlot` | internal/gateway/breaker.go:206-216 | within an entry's life a report with a superseded token never frees a newer probe's slot |
| `Breaker.StaleReportKeepsSlotIff` | internal/gateway/breaker.go:206-269 | in every history it does not when it comes within the idle time of its grant, and at any time it does exactly when an eviction has come between and the next entry's probe that holds the slot was given the same number |
| `Breaker.EvictionForgetsTokens` | internal/gateway/breaker.go:253-269 | a history of that kind |
| `Breaker.Breakers.constructor` | internal/gateway/breaker.go:128-130 | no entries, the given configuration |
| `Breaker.Breakers.Allow` | internal/gateway/breaker.go:142-191 | changes one entry, as the timed state machine says; a disabled breaker lets everything through and keeps no entries |
| `Breaker.Breakers.IsOpen` | internal/gateway/breaker.go:195-203 | true exactly inside an open window, without touching anything |
| `Breaker.Breakers.Report` | internal/gateway/breaker.go:206-239 | changes one entry, as the timed state machine says |
| `Breaker.Breakers.Snapshot` | internal/gateway/breaker.go:253-269 | every entry changes as by the scrape event of its history, in whatever order the map is walked; every state reported is that of a surviving connection of that name |
| `Retry.ClassTable` | internal/gateway/retry.go:59-123 | the walk ends exactly on failures that are the request's own, the same target is repeated exactly on transient ones, every other class names a reason, and an upstream's own delay is kept when it asks for one, up to the cap |
| `Retry.CountedFailures` | internal/gateway/breaker.go:72-90 | the breaker counts exactly the failures that are neither the request's own nor configuration faults of the target, both told from the error alone, and none once the client has gone |
| `Retry.DoublesPastCap` | internal/gateway/retry.go:128-134 | from the third retry on the doubled delay is past the cap, which is why the code may stop shifting |
| `Retry.WaitIsBounded` | internal/gateway/retry.go:128-140 | the wait is a draw below min(base * 2^n, cap), or the upstream's own delay when longer, and never above the cap |
| `Walk.TryTarget` | internal/gateway/pipeline.go:687-715 | one target: tried again exactly as long as its last try failed in passing, nobody forced it, retries are left and nothing around it stops the walk; every try carries the probe and result it was given and is reported once with its probe and outcome |
| `Walk.TryAgain` | internal/gateway/pipeline.go:700-714 | another try follows if and only if the failure is transient, retries are left, nobody forced the attempt and neither the client, the breaker nor the time stands in the way |
| `Walk.VisitTarget` | internal/gateway/pipeline.go:682-719 | a target that was let through keeps the whole-walk invariant and counts one fallback when it is not the first |
| `Walk.ForcePrimary` | internal/gateway/pipeline.go:671-681 | when every breaker refused, the primary goes exactly once and as no probe |
| `Walk.Turn` | internal/gateway/pipeline.go:669-720 | one turn of the outer loop keeps the invariant, whichever of skip, try and force it takes, and goes on exactly until the walk stops or the targets end |
| `Walk.Invoke` | internal/gateway/pipeline.go:641-722 | for every world of answers: at most len(targets) * (MaxRetries + 1) tries, targets in order and exactly those let through, or the forced primary once; every try and every repetition is what the world calls for; breakers are asked up to the target where the walk stops, and all of them when it does not; the answer is the last try's; fallbacks are distinct targets minus one; attempt counts upstream calls; failInvoke always gets an error; probes are reported, only the last try writes, terminal failures end the walk |
| `Walk.EveryProbeIsReported` | internal/gateway/pipeline.go:670-690 | in a walk some breaker let through as in a forced one, every probe taken is reported under its own token |
| `Walk.WalkSettles` | internal/gateway/pipeline.go:606-722 | for both kinds of walk: every probe is reported, only the last try may have written to the client, and a settled try or a failure of the request's own is the last |
| `Walk.TryOnRecord` | internal/gateway/breaker.go:72-90 | reporting a try with no error, the client present and a status that is no failure closes the record and forgets its failures; a fault that is neither the request's own nor one of configuration is counted; every other try leaves open, failures and openedAt as they were |
| `Stream.RelayedPrefix` | internal/gateway/gateway.go:1439-1516 | what a part of the stream turns into is a prefix of what the whole turns into |
| `Stream.UsageOnlyOnRequest` | internal/gateway/gateway.go:1439-1516 | no event shows usage unless the client asked for it |
| `Stream.InlineOnFirstChoices` | internal/gateway/gateway.go:1439-1516 | the inline object goes out at most once, on the first event with choices |
| `Stream.ChoicesAreConserved` | internal/gateway/gateway.go:1439-1516 | no choice is lost, repeated or reordered |
| `Stream.EventsShow` | internal/gateway/gateway.go:1439-1516 | every event carries the model name the client asked for, and when usage was asked for every chunk is an event that shows its usage |
| `Stream.Exchange.Forward` | internal/gateway/gateway.go:1477-1515 | one chunk becomes one event, shown as specified, or, as a hidden usage trailer, none; exactly a failing write of an event loses the client, and sends nothing |
| `Stream.Exchange.RelayChunks` | internal/gateway/gateway.go:1439-1516 | headers at the first chunk, then the events in order for as many as the client takes |
| `Stream.Exchange.Relay` | internal/gateway/gateway.go:1346-1566 | an error is returned exactly when no chunk was received and the upstream or the budget failed, with nothing written and the row unchanged; every other ending is settled on the row with the status that fits, the events delivered are the first the client takes, and an undisturbed stream leaves the usage of all its chunks there |
| `Stream.Exchange.Attempt` | internal/gateway/pipeline.go:606-618 | a stream keeps the contract of an attempt that the walk relies on; one that ended well with its client still there reads to the breaker as a success, every other one without an error as neutral |
| `Ledger.UsageIsUsable` | internal/gateway/gateway.go:1767-1799 | whatever was reported, no count on the row is negative; a row not marked estimated carries the reported counts, each under its own name; an estimated count is one token for every four characters begun |
| `Ledger.SaturatingStep` | internal/gateway/gateway.go:1747-1752 | saturating at every addition is saturating the exact sum once |
| `Ledger.NothingPriced` | internal/gateway/gateway.go:1729-1733 | without a price table side charges cost nothing |
| `Ledger.Call.AddSideCharge` | internal/gateway/pipeline.go:333-337 | a charge is kept unless it is zero, which changes no sum |
| `Ledger.Call.BookReranks` | internal/gateway/retrieve.go:200-224 | after a retrieve attempt the row minus its in-row charges is the embedding's own usage, and the charges of an earlier attempt are gone |
| `Ledger.Call.RetrieveAttempt` | internal/gateway/retrieve.go:194-236 | the call's own tokens are the embedding's when something was embedded, whatever an earlier attempt left, and what the row held before otherwise; a failed attempt on a row not yet settled as a success leaves it untouched if and only if the search itself failed |
| `Ledger.Call.PriceRequest` | internal/gateway/gateway.go:1705-1722 | the row is priced at its connection's price on the tokens it holds then |
| `Ledger.Call.PriceSideCharges` | internal/gateway/gateway.go:1729-1744 | adds min(MaxInt64, sum of each charge at its own connection's price) |
| `Ledger.Call.Record` | internal/gateway/pipeline.go:842-863 | tokens end as main plus all side charges wherever each was booked; the call is priced on main tokens only; total cost is min(MaxInt64, own cost plus every charge), never negative |
| `Limits.StepSound` | internal/limits/limits.go:139-248 | every step keeps each request's bookkeeping of the slots it holds true |
| `Limits.StepCharge` | internal/limits/limits.go:139-306 | what a statement adds to a counter is what its request is charged more or less |
| `Limits.StepPassed` | internal/limits/limits.go:201-247 | a request newly passes a limit only while at most its own cap is charged, itself included |
| `Limits.StepRow` | internal/limits/limits.go:139-306 | every step keeps every counter equal to the requests charged to it, and for every v the requests that passed under a cap of at most v no more than v |
| `Limits.StepInv` | internal/limits/limits.go:139-378 | the invariant of all requests and all counters is inductive |
| `Limits.RunInv` | internal/limits/limits.go:139-378 | it holds in every interleaving, failing statements included |
| `Limits.NeverAboveLimit` | internal/limits/limits.go:139-248 | in every state of every run, whatever caps the requests carry: of one minute of one tier no more requests are let through under caps of at most v than v, for every v |
| `Limits.TurnedAwayIffFull` | internal/limits/limits.go:201-247 | a reservation is turned away exactly when the limit's worth is charged, transient charges included |
| `Limits.NoPhantomSlots` | internal/limits/limits.go:294-306 | once checks have finished without store errors each counter counts exactly the requests still occupying it |
| `Limits.CountedOncePerTier` | internal/limits/limits.go:361-378 | a recorded request is counted exactly once per tier, in the minute of its check under a limit and of its recording without |
| `Limiter.Store.Reserve` | internal/store/usage.go:35-42 | an atomic increment that answers with the new count; a lost one changes nothing, a blurred one is applied and answers with an error |
| `Limiter.Store.Release` | internal/store/usage.go:46-50 | an atomic decrement that stops at zero, lost or blurred as it may be |
| `Limiter.Store.Record` | internal/store/usage.go:86-99 | usage is added to a row, the request only where it still has to be counted |
| `Limiter.StepsConserve` | internal/limits/limits.go:139-306 | what one request's statements add to any row is what the request ends up charged with in it |
| `Limiter.Rollback` | internal/limits/limits.go:294-306 | the slots taken are given back, the project's first, up to the first failure; a path of the machine |
| `Limiter.TakeProjectSlot` | internal/limits/limits.go:205-218 | the project slot is kept, or given back when it overflows; a path of the machine |
| `Limiter.TakeKeySlot` | internal/limits/limits.go:219-245 | the key slot is kept, or both are given back, also when reserving it fails; a path of the machine |
| `Limiter.CheckSubject` | internal/limits/limits.go:139-248 | the whole check is a path of the machine; alone, a refusal leaves every counter as it was and an admission raises exactly one slot per limited tier; with usage read, token budgets not spent and statements that go well, it is refused if and only if the requests of the project's or the key's minute are used up |
| `Limiter.RecordSubject` | internal/limits/limits.go:361-378 | the recording is a path of the machine, complete when it reports no error, and it reports none when its statements go well |
| `Glob.IndexMeaning` | internal/glob/glob.go:58-64 | the search finds the leftmost occurrence or that there is none |
| `Glob.LiteralPrefixMeaning` | internal/glob/glob.go:17-22 | the literal prefix is the text before the first star |
| `Glob.MatchesStartWithPrefix` | internal/glob/glob.go:17-22 | every match starts with it |
| `Glob.MeaningInPieces` | internal/glob/glob.go:48-66 | the character-wise meaning of a pattern is the split into head, gaps, middle parts and tail |
| `Glob.LeftmostSuffices` | internal/glob/glob.go:58-64 | the leftmost choice of a middle part loses no match, empty parts included |
| `Glob.TailSuffices` | internal/glob/glob.go:65-65 | the tail needs only to be a suffix of what is left, so head and tail never overlap |
| `Glob.Match` | internal/glob/glob.go:48-66 | the greedy matcher accepts exactly the declarative meaning, for all strings |
| `Pricing.PrecedenceIsAnOrder` | internal/pricing/pricing.go:75-86 | specificity then id is a strict weak order, total on distinct ids |
| `Pricing.TableIsSorted` | internal/pricing/pricing.go:75-86 | the table is a sorted permutation of the rows |
| `Pricing.Lookup` | internal/pricing/pricing.go:93-103 | the scan returns the price of the first row that applies |
| `Pricing.FirstOfSortedIsBest` | internal/pricing/pricing.go:93-103 | the first applying row of a sorted table is one that no applying row precedes |
| `Pricing.LookupFindsBest` | internal/pricing/pricing.go:75-103 | table then lookup finds a best row whenever any row applies |
| `Pricing.BestMeansMostSpecific` | internal/glob/glob.go:29-44 | best means: exact before any wildcard, then the longest literal prefix, then the lowest id |
| `Pricing.LookupIgnoresRowOrder` | internal/pricing/pricing.go:75-103 | with distinct ids the result does not depend on the order of the rows |
| `Pricing.BillsFitInt64` | internal/pricing/pricing.go:121-173 | a bill is never negative and fits an int64 for any reported usage |
| `Pricing.NegativeRateDiscountsNothing` | internal/pricing/pricing.go:121-145 | a negative rate prices its tokens at nothing and never discounts others |
| `Pricing.MoreTokensNeverCostLess` | internal/pricing/pricing.go:121-145 | the cost is monotone in the tokens |
| `Pricing.CostIsTokenBill` | internal/pricing/pricing.go:121-145 | the cost is the integer nearest, halves up, to (prompt - cached - written) at the input rate plus cached at the cache-read rate, written at the cache-write rate and completion at the output rate; from half a micro past the largest int64 it is that; when cached and written exceed the prompt nothing is left at the input rate |
| `Pricing.BillIsExact` | internal/pricing/pricing.go:121-173 | a call with search units on a row that has a rate for them is billed the integer nearest to units * rate * 10^6, every other call by its tokens |
| `Pricing.NegativeCountsAreNone` | internal/pricing/pricing.go:121-145 | a negative count is billed as zero |
| `FormatStream.SkipSpace` | internal/provider/anthropic_format.go:292-297 | skips a maximal run of white space |
| `FormatStream.OpenerIsStable` | internal/provider/anthropic_format.go:276-290 | more text never moves the end of a complete opener |
| `FormatStream.SendLenOfHeld` | internal/provider/anthropic_format.go:240-248 | what may be sent next depends on the held tail alone |
| `FormatStream.SentGrows` | internal/provider/anthropic_format.go:222-249 | output is never retracted |
| `FormatStream.Unwrapper.constructor` | internal/provider/anthropic_format.go:217-219 | nothing fed, nothing given |
| `FormatStream.Unwrapper.Feed` | internal/provider/anthropic_format.go:222-226 | after any pieces the output so far is a function of their concatenation |
| `FormatStream.Unwrapper.FeedFragment` | internal/provider/anthropic_format.go:228-249 | one piece gives exactly what the concatenation now allows beyond what was given; without a wrapper it comes out as it went in |
| `FormatStream.Unwrapper.Flush` | internal/provider/anthropic_format.go:259-270 | the end gives what is still owed, or the empty object when nothing ever was |
| `FormatStream.RunAll` | internal/provider/anthropic_format.go:222-270 | for every text and every way of cutting it the outputs together depend only on the text; without a wrapper every piece comes out as it went in, the empty object standing for no text; a text that opens no wrapper comes out byte for byte at the end, with nothing before; a wrapped one comes out as what follows its opener without the trailing space and the one brace before it |
| `FormatStream.WrapperIsRemoved` | internal/provider/anthropic_format.go:222-297 | a wrapped value comes out as itself followed by white space only |
| `FormatStream.OpenerFound` | internal/provider/anthropic_format.go:276-290 | every spelling of the opener with any white space is recognised at its exact end |
| `FormatStream.WrapperIsFound` | internal/provider/anthropic_format.go:276-290 | a text counts as opened if and only if it is the opener, with white space in its gaps, and a value begun after it |
| `FormatStream.WhatComesOut` | internal/provider/anthropic_format.go:222-270 | what is given over a whole block, from its outputs alone: the text, the empty object, or the wrapped rest stripped of its end |
| `ToolPolicy.PermitsName` | internal/gateway/tools.go:73-88 | allow and deny lists decide a name as declared, through the glob matcher |
| `ToolPolicy.Strip` | internal/gateway/tools.go:193-239 | a list is split into the permitted entries, in order, and the denied names |
| `ToolPolicy.StripCounts` | internal/gateway/tools.go:193-239 | nothing is lost in the split |
| `ToolPolicy.KeepNames` | internal/gateway/tools.go:193-239 | exactly the permitted names are left |
| `ToolPolicy.GovernTools` | internal/gateway/tools.go:265-352 | a refused request stays unchanged and is refused for the reason stated; an accepted one becomes exactly its governed form |
| `ToolPolicy.CallableIsIntersection` | internal/gateway/tools.go:265-352 | on an accepted request the callable tools are the original callable ones intersected with the policy, no more and no less |
| `ToolPolicy.DemandIsKept` | internal/gateway/tools.go:131-171 | a required or named demand survives as it was |
| `ToolPolicy.GovernedTwice` | internal/gateway/tools.go:265-352 | governing a governed request is accepted and changes nothing |
| `ToolPolicy.ParallelIsKept` | internal/gateway/tools.go:265-352 | parallel_tool_calls stays as it came in unless the policy leaves none of the tools there were |
| `ToolPolicy.RefusedForAReason` | internal/gateway/tools.go:265-352 | a refused request carries unreadable tools or demands a call the policy leaves no tool for |
| `ImageCache.TrimIsLongest` | internal/provider/imagecache.go:103-109 | evictions are the shortest least-recent suffix |
| `ImageCache.NewestSurvives` | internal/provider/imagecache.go:86-110 | the entry just stored survives its own evictions |
| `ImageCache.StepGood` | internal/provider/imagecache.go:67-118 | every operation keeps both limits and the distinctness of urls |
| `ImageCache.FindAfter` | internal/provider/imagecache.go:67-118 | an entry found after an operation is the one just stored or the one found before |
| `ImageCache.RunIsSound` | internal/provider/imagecache.go:67-118 | over every run both limits hold and what is there is what was last stored |
| `ImageCache.HitIsLastStored` | internal/provider/imagecache.go:67-84 | a hit is the last stored value and has not expired |
| `ImageCache.HitIsLastPutIff` | internal/provider/imagecache.go:86-93 | a hit is the value put last if and only if that value was not too large for the cache |
| `ImageCache.OversizedPutIsIgnored` | internal/provider/imagecache.go:86-93 | a run in which it was, and the older value is read |
| `ImageCache.RecencyOrder` | internal/provider/imagecache.go:67-110 | in every state of every run the entries stand in strictly descending order of last use, a use being a stored put or a hit |
| `ImageCache.EvictsLeastRecent` | internal/provider/imagecache.go:103-109 | whatever an operation evicts was last used before everything it keeps |
| `ImageCache.StillListed` | internal/provider/imagecache.go:67-118 | before evictions an operation touches only its own url |
| `ImageCache.StaysIff` | internal/provider/imagecache.go:103-109 | an entry stays if and only if it fits the limits together with everything used since |
| `ImageCache.HitIff` | internal/provider/imagecache.go:67-84 | a read hits if and only if an entry is there and has not expired |
| `ImageCache.Cache.constructor` | internal/provider/imagecache.go:51-64 | an empty cache with the given limits |
| `ImageCache.Cache.RemoveAt` | internal/provider/imagecache.go:113-118 | one element leaves list, map and byte counter together |
| `ImageCache.Cache.Get` | internal/provider/imagecache.go:67-84 | the recency list becomes what the simple list model says; a hit moves to the front, an expired entry goes |
| `ImageCache.Cache.Put` | internal/provider/imagecache.go:86-110 | the recency list becomes what the simple list model says; too large a value changes nothing |
| `ImageCache.Cache.Evict` | internal/provider/imagecache.go:103-109 | the loop leaves the longest prefix that fits |
| `AnthropicPlan.ClampEffort` | internal/provider/effort.go:58-83 | the loop over best-so-far variables computes the clamped level |
| `AnthropicPlan.ClampChoosesWell` | internal/provider/effort.go:58-83 | the level chosen is the wanted one, else the highest below it, else the lowest there is |
| `AnthropicPlan.BudgetLeavesRoom` | internal/provider/effort.go:179-208 | an enabled budget is at least 1024 and below max_tokens |
| `AnthropicPlan.BudgetIsAsAsked` | internal/provider/effort.go:87-208 | thinking is enabled exactly when max_tokens leaves room for it, on the effort's own budget or on what an answer of 1024 tokens leaves; without max_tokens the answer has 4096 beside the budget |
| `AnthropicPlan.BudgetThinkingIsSent` | internal/provider/anthropic.go:231-454 | a model that thinks on a budget is made to, on that budget, if and only if an effort was asked for, max_tokens leaves room, the answer is not carried by a tool, no call is forced and the turn is no bare tool round |
| `AnthropicPlan.AdaptiveThinkingIsSent` | internal/provider/effort.go:210-240 | a model that adapts its thinking does for every effort, and for none as far as it cannot turn it off; only an answer carried by a tool takes it out again; without max_tokens a high effort has 16000, every other 4096 |
| `AnthropicPlan.NoThinkingIsSent` | internal/provider/effort.go:155-175 | without an effort, or for a model that does not think, no thinking is sent |
| `AnthropicPlan.NothingForbiddenIsSent` | internal/provider/anthropic.go:231-454 | for every capability record and request: a forced choice only where the model takes one, enabled thinking never beside it and with 1024 <= budget < max_tokens, no temperature and no top_p below 0.95 while thinking |
| `AnthropicPlan.NothingElseIsDropped` | internal/provider/anthropic.go:231-454 | sampling settings are taken away only beside thinking, and a choice is forced exactly when asked for and possible |
| `AnthropicPlan.AnswerToolIsForced` | internal/provider/anthropic_format.go:166-182 | an answer carried by a tool is enforced: the tool is there once, last, and some tool call is forced, without thinking |
| `AnthropicPlan.DroppedIsAsWithout` | internal/provider/effort.go:142-149 | dropping thinking restores what the request would have had without it |
| `AnthropicPlan.WithAnswerTool` | internal/provider/anthropic_format.go:166-182 | the answer tool is added once, last, and some tool is forced: the answer tool alone, a tool the client named, or one call at a time |
| `AnthropicPlan.Outgoing.ApplyToolChoice` | internal/provider/anthropic_format.go:166-182 | the in-place edits do to tools and choice what the translated request has from that step |
| `KeyOrder.SortedAscends` | internal/provider/gemini_schema.go:576-583 | names are walked in strictly ascending order |
| `KeyOrder.OneOrder` | internal/provider/gemini_schema.go:576-583 | there is only one such order of a set of names |
| `KeyOrder.SortedKeys` | internal/provider/gemini_schema.go:576-583 | collecting a map's keys in any order and sorting them gives that one list |
| `JsonDoc.UnescapeEscape` | internal/provider/gemini_schema.go:585-589 | escaping a pointer token round-trips (section 3 of RFC 6901) |
| `JsonDoc.ChildInjective` | internal/provider/gemini_schema.go:517-531 | a definition's key gives back both its place and its name |
| `JsonDoc.PointerInjective` | internal/provider/gemini_schema.go:268-285 | distinct places of a document never share a pointer |
| `JsonDoc.LocatedUnique` | internal/provider/gemini_schema.go:517-531 | one pointer names one value |
| `GeminiSchema.FiledAt` | internal/provider/gemini_schema.go:517-531 | each definition is filed under its own pointer with its own value |
| `GeminiSchema.PlainGood` | internal/provider/gemini_schema.go:288-348 | a keyword that holds no schema leaves only allowed keywords with the declared value shapes |
| `GeminiSchema.MergedGood` | internal/provider/gemini_schema.go:455-513 | folding or listing an allOf stays inside the grammar, properties lifted a level included |
| `GeminiSchema.FinishGood` | internal/provider/gemini_schema.go:350-407 | the closing rules leave a typed node, enum only on a plain string node |
| `GeminiSchema.RewriteGood` | internal/provider/gemini_schema.go:233-391 | an object schema whose parts come out inside the grammar comes out inside it |
| `GeminiSchema.NodeGood` | internal/provider/gemini_schema.go:233-391 | every emitted node of every document uses only allowed keywords with the right shapes, has a type or an anyOf, carries enum only with type string and no anyOf, non-negative int64 counts, and nests at most nine levels below the root |
| `SchemaBounds.CollectSound` | internal/provider/gemini_schema.go:517-531 | collecting definitions never replaces one by another and keeps each at its own pointer |
| `SchemaBounds.InlineRefSound` | internal/provider/gemini_schema.go:533-560 | a reference is answered only by the value its pointer names, and never twice on a branch |
| `SchemaBounds.KeywordsSound` | internal/provider/gemini_schema.go:268-349 | walking the keywords keeps budget, depth, chain and pointer conditions |
| `SchemaBounds.NodeSound` | internal/provider/gemini_schema.go:233-391 | the whole walk from any node keeps them, cyclic references included |
| `SchemaBounds.SanitiseIsBounded` | internal/provider/gemini_schema.go:183-195 | for every document: at most 4096 nodes expanded, none deeper than eight, none through one reference twice, each expanded node being what the document holds at its pointer; and the output inside the grammar |
| `SchemaBounds.PathAsWritten` | internal/provider/gemini_schema.go:273-300 | the pointer below a keyword is the path the code writes |
| `SchemaBounds.IndexAsWritten` | internal/provider/gemini_schema.go:445-448 | the pointer below a list is the path the code writes |
| `SchemaRefs.ReferenceIsInlined` | internal/provider/gemini_schema.go:533-560 | a reference that is collected, closes no cycle and is met above the depth bound comes out as the schema the document holds at its pointer comes out there |
| `SchemaRefs.ReferenceIsVisited` | internal/provider/gemini_schema.go:533-560 | while the budget lasts, the schema visited next after such a reference is the one the document holds at its pointer, a level deeper and with the pointer added to the chain |
| `SchemaRefs.ReferenceIsCut` | internal/provider/gemini_schema.go:533-560 | the reference itself answers with the elided stub if and only if it is unreadable, or collected but already being inlined or at the depth bound; with the unresolved stub if and only if nothing was collected under its pointer |
| `SchemaRefs.ReferencesAreSubstituted` | internal/provider/gemini_schema.go:183-560 | a document whose references lead to definitions declared around them, close no cycle and nest within the depth bound comes out as the document with each of them replaced does, dropping the same keywords, whenever nothing is cut off for size; and then nothing is in the replaced one either |
| `SchemaRefs.ReplacedByLocated` | internal/provider/gemini_schema.go:517-560 | what a reference is replaced by is the value its pointer is located at, with the references in that replaced |
| `SchemaRefs.ReplaceRemovesReferences` | internal/provider/gemini_schema.go:533-560 | replacing leaves no reference where a schema is read |
| `SchemaRefs.RefFreeIsKept` | internal/provider/gemini_schema.go:533-560 | and leaves a document without references as it is |
| `SchemaRefs.DefinitionIsInScope` | internal/provider/gemini_schema.go:517-531 | a definition is in scope below the node that declares it, under its own pointer |
| `SchemaRefs.DefinitionTakesItsPlace` | internal/provider/gemini_schema.go:533-560 | a reference in scope whose definition holds none is replaced by that very definition |
| `SchemaRefs.WalksAgree` | internal/provider/gemini_schema.go:233-560 | at every depth, a walk and one no deeper that meets the replaced schemas make the same nodes of them |
| `SchemaDepth.RewriteCapped` | internal/provider/gemini_schema.go:233-391 | a level of the walk adds one level of nodes, folded branches and inlined references only moving nodes up |
| `SchemaDepth.NodeCapped` | internal/provider/gemini_schema.go:234-236 | nine levels below the root there is nothing but the stub of an elided schema |
| `SchemaFixpoint.KeywordBack` | internal/provider/gemini_schema.go:268-349 | an emitted keyword comes back exactly when what is under it fits and the budget lasted |
| `SchemaFixpoint.FinishBack` | internal/provider/gemini_schema.go:350-391 | closing an emitted node changes nothing but to drop a format that does not go with its type |
| `SchemaFixpoint.NodeBack` | internal/provider/gemini_schema.go:233-391 | an emitted schema comes back from the walk if and only if every format in it goes with the type beside it and every node past the budget is the stub of a truncated one; within the budget nothing is dropped |
| `SchemaTwice.SanitiseTwice` | internal/provider/gemini_schema.go:183-195 | for every document: sanitising the result again returns it if and only if its formats fit and past its first 4096 nodes it has only truncation stubs; with no more nodes than that, exactly when its formats fit |
| `SchemaTwice.PartedFormatIsLost` | internal/provider/gemini_schema.go:350-358 | for the family of documents whose allOf parts a format from its type the second pass returns something else |
| `SchemaTwice.ExampleChanges` | internal/provider/gemini_schema.go:350-358 | a document of that family |
| `SchemaWide.SecondPassTruncates` | internal/provider/gemini_schema.go:229-241 | a family whose first pass truncates and drops nothing, whose formats all fit, and whose second pass still returns something else: schemas elided for depth cost no budget, and a folded allOf lifts them to where they do |
| `SchemaMerge.RequiredIsUnion` | internal/provider/gemini_schema.go:485-512 | required is merged as a set: every name of node and branches, the node's first in their order, no branch repeating one |
| `SchemaMerge.LastBranchWins` | internal/provider/gemini_schema.go:493-496 | a property has the schema of the last branch that has it |
| `SchemaMerge.FormatRule` | internal/provider/gemini_schema.go:350-358 | a format is emitted exactly when whitelisted for the type before allOf is merged, and goes with the emitted type if and only if the allOf was not folded in |
| `SchemaMerge.DeclaredPropertiesSurvive` | internal/provider/gemini_schema.go:274-287 | a schema that declares properties has them when it comes out |
| `SchemaMerge.FormatOutlivesItsType` | internal/provider/gemini_schema.go:350-358 | the failing family: a string format on a node whose allOf adds properties is emitted on an object node |
| `SchemaMerge.ExampleIsExtended` | internal/provider/gemini_schema.go:350-358 | a concrete document of that family |
| `SchemaValues.ValueComesOut` | internal/provider/gemini_schema.go:88-136 | a description, pattern or bound comes out if and only if the schema declares it and with that value: a bound under its own name goes before an exclusive one, a boolean exclusive bound says nothing, a number may be quoted, a count is whole and not negative, null is nobody's value |
| `SchemaValues.EnumComesOut` | internal/provider/gemini_schema.go:316-391 | an enum comes out if and only if strings are listed or a constant string given, and the node is a string and no union; the list goes before the constant |
| `SchemaValues.NullableComesOut` | internal/provider/gemini_schema.go:262-267 | a node is nullable when its type names null, alone or in a list, and otherwise as the schema declares |
| `SchemaValues.TypeIsNamed` | internal/provider/gemini_schema.go:412-438 | the resolved type is the name given, the first in a list that is neither null nor empty, or string for null alone; nullable if and only if null is named |
| `SchemaValues.TypeComesOut` | internal/provider/gemini_schema.go:316-408 | the type emitted is object after a folded allOf, else the one named, else the one a constant pins, else a guess from what the node holds; only a union has none |
| `SchemaValues.UnionComesOut` | internal/provider/gemini_schema.go:305-315 | a node is a union if and only if anyOf or oneOf lists something, or allOf lists schemas that are not all objects |
| `SchemaValues.CombinedComesOut` | internal/provider/gemini_schema.go:455-513 | an allOf of objects gives the node the properties of all of them and its own, of one name the last, and every name any of them requires; any other allOf becomes the union of its nodes |
| `SchemaValues.DroppedIsReported` | internal/provider/gemini_schema.go:268-391 | of a schema that holds no other, a keyword is reported as dropped if and only if it says nothing that can be sent, is a format the type does not allow, or the enum of a node that cannot carry one |
| `SchemaValues.LastWordIs` | internal/provider/gemini_schema.go:268-349 | of the keywords that write under one name the last in the walking order has the last word |
| `SchemaWalker.ResolveType` | internal/provider/gemini_schema.go:412-438 | the loop finds the first type that is not null, and whether null is named |
| `SchemaWalker.OverlayProps` | internal/provider/gemini_schema.go:493-496 | properties copied in any order give the same map |
| `SchemaWalker.AppendNew` | internal/provider/gemini_schema.go:497-506 | the seen-set loop adds each name once |
| `SchemaWalker.Fold` | internal/provider/gemini_schema.go:481-512 | the merging loops compute the fold of all branches |
| `SchemaWalker.Walker.constructor` | internal/provider/gemini_schema.go:184-185 | full budget, nothing seen |
| `SchemaWalker.Walker.FileDefs` | internal/provider/gemini_schema.go:523-529 | definitions filed in any map order give the same table, since no two share a pointer |
| `SchemaWalker.Walker.CollectDefs` | internal/provider/gemini_schema.go:517-531 | both spellings of the definitions keyword are collected |
| `SchemaWalker.Walker.PlainKeyword` | internal/provider/gemini_schema.go:288-348 | the switch over keywords that hold no schema leaves the state and node of the specification |
| `SchemaWalker.Walker.Close` | internal/provider/gemini_schema.go:351-391 | format, enum and type are settled as specified |
| `SchemaWalker.Walker.Node` | internal/provider/gemini_schema.go:233-260 | budget, definitions, dropped keywords and node end exactly as the recursive specification says |
| `SchemaWalker.Walker.Inline` | internal/provider/gemini_schema.go:533-560 | references are inlined, elided or left unresolved as specified |
| `SchemaWalker.Walker.EachKeyword` | internal/provider/gemini_schema.go:268-349 | the keyword loop computes the specified fold over the sorted keys |
| `SchemaWalker.Walker.OneKeyword` | internal/provider/gemini_schema.go:268-349 | one turn of that loop is one step of the fold |
| `SchemaWalker.Walker.EachProperty` | internal/provider/gemini_schema.go:280-287 | the property loop computes the specified map |
| `SchemaWalker.Walker.EachBranch` | internal/provider/gemini_schema.go:440-450 | the branch loop computes the specified list |
| `SchemaWalker.Walker.MergeBranches` | internal/provider/gemini_schema.go:455-513 | mergeAllOf ends as specified |
| `SchemaWalker.Sanitise` | internal/provider/gemini_schema.go:183-195 | one document gives one result, whatever order any of its maps is read in |

## Left out

- Weighted ordering of targets (internal/gateway/route.go), the metric series cap (internal/metrics/metrics.go) and the
  ASCII escaping of JSON headers: they would add only easy members. `Walk` takes the targets in any given order.
- Token budgets, `tighter`, `deny`, the figures of a Decision and `CheckTokens` (internal/limits/limits.go): whether the
  token check denies a request is an argument; the figures it reports are not modelled.
- Relaying of the Messages wire format, its encoder and its pings, in `stream`, and `nativeStream`: the relay is
  modelled on the chat endpoint's own format.
- Accumulation inside `rerankUsageProvider`: a rerank's spend is a given side charge.
- The bound, order and removal of repeats of the tool names noted on the row: `Stream` notes the names as they come.
- JSON text: parsing, printing, duplicate members of one object, and the check of a number's spelling.
- Floating point: rates and jitter are reals, so NaN, infinities and rounding of the products are not modelled.
- Machine width of token counts, depths, probe numbers and wake generations: integers are unbounded; saturation of money
  at the largest int64 is modelled.
- Warnings, logs, traces, metrics and the texts of error messages, except where a property counts them.
- The walk's context and time budget as values: whether the client left or the budget is spent is an argument at every
  question, so nothing is said about how long a walk takes.
- SchemaRefs.ReferencesAreSubstituted: a reference to a definition that only a part of the document walked earlier has
  declared is resolved too, depending on the order of the walk; substitution is stated for definitions declared around
  the reference, and `SchemaRefs.ReferenceIsInlined` covers the others one by one.
- Fairness of the scheduler: image slots are proved free of lost wake-ups and bounded in their steps, not free of
  starvation within a queue.
- The answer of a non-streamed structured response (`answer` in internal/provider/anthropic_format.go) and message
  translation: `AnthropicPlan` covers thinking, sampling, tools and tool choice.
- AnthropicPlan.NothingForbiddenIsSent: planning is modelled on values, since the plans are built and replaced in one
  place; only `applyToolChoice` and `clampEffort` keep their in-place form.
- Pricing.TableIsSorted: the library's stable sort is an insertion on values.
- Limits.StepInv: the counters are a map changed by atomic actions; rows of the day and the month, which follow the same
  statements, are not modelled.
