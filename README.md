# A verified model of a fundraising auto-dialer's client logic

The system is a web dialer that fundraising teams use to phone donors.
The hosted backend stores donors, calls, donations, campaigns and a call queue.
The client keeps in-memory stores, derives call scripts and badges, applies
change events pushed by the backend, and aggregates reports. This project
models that client logic in Dafny 4.11 and proves what it promises.

One module per source file, plus four shared modules:

- `Common`: null and undefined as `Option`, and JavaScript truthiness (`x || d`).
  It also has the decimal text of integers, `includes` and ASCII `toLowerCase`.
  `Remote<T>` stands for what a backend request returned: a value or an error.
- `Records`: the donor and call rows, and the filter-by-id helper.
- `Sorting`: `sort` with a descending numeric comparator, stable as ECMAScript
  requires, and `slice(0, n)`, with the top-n property proved once.
- `Tally`: one verified grouping loop, `GroupRows`. It is the `forEach` body
  shared by the daily totals, the per-caller totals and the outcome histogram.
  It groups rows by key in first-occurrence order (the order `Object.values`
  lists string keys) and is proved against a reference fold, `Summary`.
- `QueueStore` (`src/hooks/queueStore.js`): the priority queue and the cursor queue, as a class.
- `DonorStore` (`src/hooks/donorStore.js`): the donor list and selection, as a class.
  The filtered and sorted view is a function.
- `ScriptGenerator` (`src/lib/ai/scriptGenerator.js`): the call script.
  It is a pure function of the donor and the hour.
- `Dialer` (`src/hooks/useDialer.js`): the dialer store and its four workflow steps.
  Every backend answer is an input. The requests sent are outputs, so that
  their contents and their order can be stated.
- `Realtime` (`src/hooks/useRealtime.js`): the reducers for queue, call and donation
  change events, the initial loads, and broadcast events.
- `Analytics` (`src/app/settings/page.tsx`): the overview, daily, per-caller, outcome,
  hourly, segment and campaign reports.
- `RecentActivity` (`src/components/dashboard/RecentActivity.tsx`): the ten-entry activity feed.
- `DonorCard` (`src/components/dialer/DonorCard.tsx`): the badge tiers and display defaults.
- `CallTimer` (`src/components/dialer/DontationForm.tsx`): `mm:ss` formatting and the one-second tick.
- `Organization` (`supabase/functions/create-organization/index.ts`): the organization slug.

Clock readings, the current hour, locale date text and day keys are parameters.
Amounts, scores and timestamps are unbounded integers.
Averages and rates are exact reals.

## Model

| member | source | states |
|---|---|---|
| QueueStore.TotalQueueSize | src/hooks/queueStore.js:60-63 | `priorityQueue.length + max(0, queue.length - currentPosition)` is exactly the number of entries still to be served (`Pending`) |
| QueueStore.AdvancePending | src/hooks/queueStore.js:43-51 | advancing a non-empty store removes exactly the head of the pending entries, whichever branch is taken |
| QueueStore.RemoveServedEntrySkipsNext | src/hooks/queueStore.js:22-25 | the cursor is kept when an entry is removed: removing an already served entry moves the next pending one under the cursor, and it is never served |
| QueueStore.AddAfterOverrunSkips | src/hooks/queueStore.js:49-50 | advancing on an empty store still moves the cursor, so the first entries added later are skipped |
| QueueStore.QueueStore.constructor | src/hooks/queueStore.js:3-8 | empty queues, cursor 0, auto-dialing off, delay 5 |
| QueueStore.QueueStore.SetQueue | src/hooks/queueStore.js:10 | replaces the regular queue only |
| QueueStore.QueueStore.SetPriorityQueue | src/hooks/queueStore.js:11 | replaces the priority queue only |
| QueueStore.QueueStore.SetAutoDialing | src/hooks/queueStore.js:12 | sets the auto-dialing flag only |
| QueueStore.QueueStore.SetDialDelay | src/hooks/queueStore.js:13 | sets the dial delay only |
| QueueStore.QueueStore.AddToQueue | src/hooks/queueStore.js:15-20 | appends to the priority queue or to the regular queue only, with no removal of duplicates. Priority entries are served after the earlier priority entries and before every regular entry |
| QueueStore.QueueStore.RemoveFromQueue | src/hooks/queueStore.js:22-25 | drops every entry with the id from both queues in order; the cursor is unchanged |
| QueueStore.QueueStore.GetNextInQueue | src/hooks/queueStore.js:27-41 | the priority head when there is one; otherwise `queue[currentPosition]` when in range, else null; that is, the head of the pending entries |
| QueueStore.QueueStore.AdvanceQueue | src/hooks/queueStore.js:43-51 | pops the priority head, or else moves the cursor by exactly one. The other fields are unchanged, and the reported size drops by one when it was positive |
| QueueStore.QueueStore.ResetQueue | src/hooks/queueStore.js:53-58 | empties both queues, cursor 0, auto-dialing off; the delay is kept |
| QueueStore.QueueStore.GetTotalQueueSize | src/hooks/queueStore.js:60-63 | the reported size is the number of pending entries |
| QueueStore.ResetIsIdempotent | src/hooks/queueStore.js:53-58 | resetting twice leaves the same state as resetting once |
| Records.WithoutId | src/hooks/queueStore.js:23-24 | `filter(d => d.id !== id)`: no entry with the id remains, every other entry is kept, nothing new appears |
| Records.WithoutIdIdempotent | src/hooks/donorStore.js:25-27 | filtering an id out twice is filtering it once |
| Records.WithoutIdAppend | src/hooks/queueStore.js:22-25 | filtering distributes over concatenation, so the kept entries stay in order |
| DonorStore.Merge | src/hooks/donorStore.js:21 | `{ ...d, ...updates }`: every key present in the update wins, every absent key keeps the donor's value, an empty update changes nothing |
| DonorStore.UpdateById | src/hooks/donorStore.js:19-23 | same length; each entry with the id is merged, every other entry is unchanged |
| DonorStore.Ids | src/hooks/donorStore.js:38 | the ids of the donors, in list order |
| DonorStore.Matching | src/hooks/donorStore.js:50-66 | every result passes the active filters; each passing donor occurs as often as in the list, every other donor not at all |
| DonorStore.FilteredDonorsSpec | src/hooks/donorStore.js:47-84 | the view is a permutation of exactly the passing donors, in non-increasing order of the sort key |
| DonorStore.FilteredDonorsPass | src/hooks/donorStore.js:53-66 | each result has the filtered status, reaches the minimum score and matches the search in name, e-mail or phone |
| DonorStore.NoFiltersKeepsAll | src/hooks/donorStore.js:53-59 | falsy filters (null status, score 0, empty search) keep every donor |
| DonorStore.ScoreOrder | src/hooks/donorStore.js:71-72 | the score order is non-increasing in `score \|\| 0` |
| DonorStore.AmountOrder | src/hooks/donorStore.js:75-76 | the amount order is non-increasing in `previous_donation_amount \|\| 0` |
| DonorStore.UnsortedKeepsOrder | src/hooks/donorStore.js:79-80 | a comparator that always returns 0 keeps the filtered list in stored order (stability) |
| Sorting.SortDescPermutes | src/hooks/donorStore.js:69-82 | the sort returns a rearrangement of its input |
| Sorting.SortDescSorted | src/hooks/donorStore.js:69-82 | the sort returns its input in non-increasing key order |
| Sorting.SortDescOfSorted | src/hooks/donorStore.js:69-82 | an already ordered list is returned unchanged, as a stable sort must |
| Sorting.TopOfSortDesc | src/app/settings/page.tsx:230-231 | `sort(...).slice(0, n)` is ordered, has min(n, length) entries, is taken from the input, and nothing left out ranks above anything kept |
| DonorStore.DonorStore.constructor | src/hooks/donorStore.js:3-11 | no donors, no selection, null filters with an empty search, score order |
| DonorStore.DonorStore.SetDonors | src/hooks/donorStore.js:13 | replaces the donor list only |
| DonorStore.DonorStore.AddDonor | src/hooks/donorStore.js:15-17 | appends at the end; nothing else changes |
| DonorStore.DonorStore.UpdateDonor | src/hooks/donorStore.js:19-23 | merges into exactly the entries with the id, preserving length and order |
| DonorStore.DonorStore.DeleteDonor | src/hooks/donorStore.js:25-27 | removes every entry with the id; each other entry stays |
| DonorStore.DonorStore.SelectDonor | src/hooks/donorStore.js:29-31 | appends the id even when it is already selected |
| DonorStore.DonorStore.DeselectDonor | src/hooks/donorStore.js:33-35 | removes every occurrence of the id |
| DonorStore.DonorStore.SelectAll | src/hooks/donorStore.js:37-39 | the selection becomes the donor ids in list order |
| DonorStore.DonorStore.DeselectAll | src/hooks/donorStore.js:41 | the selection becomes empty |
| DonorStore.DonorStore.SetFilters | src/hooks/donorStore.js:43 | replaces the filters only |
| DonorStore.DonorStore.SetSortBy | src/hooks/donorStore.js:45 | replaces the order only |
| DonorStore.DonorStore.GetFilteredDonors | src/hooks/donorStore.js:47-85 | changes nothing. It returns exactly the passing donors, a sub-multiset of the list, sorted by the order's key |
| Common.RemoveAll | src/hooks/donorStore.js:34 | no occurrence of the removed id remains, and every other id is kept |
| Common.NatToStringRoundTrip | src/app/settings/page.tsx:289 | the decimal text of a number is all digits and reads back as the number |
| ScriptGenerator.Greeting | src/lib/ai/scriptGenerator.js:6-7 | "Good morning" iff hour < 12, "Good afternoon" iff 12 ≤ hour < 17, "Good evening" iff hour ≥ 17 |
| ScriptGenerator.FirstToken | src/lib/ai/scriptGenerator.js:3 | `split(' ')[0]`: the longest prefix without a space |
| ScriptGenerator.DonorName | src/lib/ai/scriptGenerator.js:3 | a truthy first name; else the first word of the full name when non-empty; else "there"; never empty |
| ScriptGenerator.OpeningMiddle | src/lib/ai/scriptGenerator.js:12-14 | the repeat-donor sentence embeds `$` and the previous amount |
| ScriptGenerator.Opening | src/lib/ai/scriptGenerator.js:11-15 | begins with the greeting, a space and the donor's name, and contains the branch sentence |
| ScriptGenerator.Pitch | src/lib/ai/scriptGenerator.js:17-19 | the repeat pitch iff the previous amount is positive, the new-donor pitch otherwise |
| ScriptGenerator.Ask | src/lib/ai/scriptGenerator.js:21-23 | for repeat donors it starts with the matching ask and the `$` amount; otherwise it is the fixed new-donor ask |
| ScriptGenerator.NoMoneyResponse | src/lib/ai/scriptGenerator.js:26-28 | mentions "$25" for repeat donors and "$10 or $15" for new ones |
| ScriptGenerator.Objections | src/lib/ai/scriptGenerator.js:25-37 | exactly the five fixed objections, each with a non-empty response |
| ScriptGenerator.Closing | src/lib/ai/scriptGenerator.js:39-43 | contains the donor's name and the branch line; ends with "evening!" iff hour ≥ 17 and with "day!" iff hour < 17 |
| ScriptGenerator.ClosingTail | src/lib/ai/scriptGenerator.js:43 | the two closing words exclude each other as suffixes |
| ScriptGenerator.GenerateScript | src/lib/ai/scriptGenerator.js:1-47 | all of the above about one script, with the repeat branch taken iff `previous_donation_amount > 0` |
| ScriptGenerator.NoMoneyResponsesDiffer | src/lib/ai/scriptGenerator.js:26-28 | the two no-money responses differ |
| ScriptGenerator.ObjectionsDifferOnlyInNoMoney | src/lib/ai/scriptGenerator.js:25-37 | only the no-money response depends on the branch |
| Dialer.DonorStatusFor | src/hooks/useDialer.js:172 | the donor status is the outcome itself; the ternary is the identity |
| Dialer.AppendedNotes | src/hooks/useDialer.js:174 | with non-empty notes: `(old \|\| '')`, a blank line, the date, `": "` and the notes, with that exact length. With empty notes the old value is kept, null included |
| Dialer.OutcomePlan | src/hooks/useDialer.js:155-201 | the writes in order call, donor, then the donation only when the outcome is `donated` with a truthy amount (`pending`, the call's id), then the queue entry |
| Dialer.ElapsedSeconds | src/hooks/useDialer.js:129 | the whole seconds since the start: `secs*1000 <= now - start < (secs+1)*1000`, never negative for a past start |
| Dialer.TickAsWrittenIgnoresStart | src/hooks/useDialer.js:108-111 | the running timer as written reads the clock twice and shows 0, or -1 when the clock moves on between the reads, even five seconds into a call, when the elapsed time is at least 5 |
| Dialer.DialerStore.constructor | src/hooks/useDialer.js:7-13 | no donor or call, inactive, null start, duration 0, empty queue |
| Dialer.DialerStore.SetCurrentDonor | src/hooks/useDialer.js:15 | sets the current donor only |
| Dialer.DialerStore.SetCurrentCall | src/hooks/useDialer.js:16 | sets the current call only |
| Dialer.DialerStore.SetCallActive | src/hooks/useDialer.js:17 | sets the active flag only |
| Dialer.DialerStore.SetCallStartTime | src/hooks/useDialer.js:18 | sets the start time only |
| Dialer.DialerStore.SetCallDuration | src/hooks/useDialer.js:19 | sets the duration only |
| Dialer.DialerStore.SetQueue | src/hooks/useDialer.js:20 | sets the queue only |
| Dialer.DialerStore.Reset | src/hooks/useDialer.js:22-28 | clears donor, call, active flag, start time and duration; the queue is kept |
| Dialer.DialerStore.LoadNextDonor | src/hooks/useDialer.js:50-82 | empty ranking: donor cleared. Error: donor unchanged. Fetched row: it becomes the donor and is returned. Row missing: donor unchanged |
| Dialer.DialerStore.StartCall | src/hooks/useDialer.js:85-121 | without a current donor nothing is sent. Otherwise it inserts an active call with the donor's phone, stamped with the instant before the insert. On success it sets the call, the active flag and the start time, the instant after the response; on failure none of them change |
| Dialer.DialerStore.TimerTick | src/hooks/useDialer.js:108-111 | the duration shown is the whole seconds since the call started (the corrected timer) |
| Dialer.DialerStore.EndCall | src/hooks/useDialer.js:124-149 | sends the end time, the whole seconds since the store's start time and `completed`. On success the call is inactive with duration 0; on failure or without a call the state is unchanged |
| Dialer.DialerStore.RecordOutcome | src/hooks/useDialer.js:152-214 | true iff every checked write succeeds. The writes sent are a prefix of the plan, cut after the first failure, and nothing is undone. Success clears the call state and keeps the donor; failure changes nothing |
| Realtime.QueueInsert | src/hooks/useRealtime.js:39 | appends one entry with the row and its donor at the end; earlier entries unchanged |
| Realtime.QueueUpdate | src/hooks/useRealtime.js:41-43 | same length and order; only entries with the row's id change, each taking the row's fields over its own |
| Realtime.QueueDelete | src/hooks/useRealtime.js:45 | removes exactly the entries with the id |
| Realtime.QueueDeleteAppend | src/hooks/useRealtime.js:45 | deleting distributes over concatenation, so order is kept |
| Realtime.InsertThenDelete | src/hooks/useRealtime.js:39-45 | deleting an inserted row's id undoes the insert |
| Realtime.QueueUpdateIdempotent | src/hooks/useRealtime.js:41-43 | applying the same update twice is applying it once |
| Realtime.RealtimeQueue.constructor | src/hooks/useRealtime.js:8-9 | empty queue, loading |
| Realtime.RealtimeQueue.Load | src/hooks/useRealtime.js:63-68 | the fetched rows, or [] for no data; an error keeps the list; loading ends either way |
| Realtime.RealtimeQueue.OnInsert | src/hooks/useRealtime.js:39 | the queue becomes `QueueInsert` of the old queue |
| Realtime.RealtimeQueue.OnUpdate | src/hooks/useRealtime.js:41-43 | the queue becomes `QueueUpdate` of the old queue |
| Realtime.RealtimeQueue.OnDelete | src/hooks/useRealtime.js:45 | the queue becomes `QueueDelete` of the old queue |
| Realtime.ReplaceCall | src/hooks/useRealtime.js:138-140 | same-id calls replaced in place, every other call unchanged |
| Realtime.WithoutCall | src/hooks/useRealtime.js:145 | removes exactly the calls with the id |
| Realtime.OpenCalls | src/hooks/useRealtime.js:174 | exactly the calls without `ended_at` |
| Realtime.DonatedCalls | src/hooks/useRealtime.js:177 | exactly the calls with outcome `donated` |
| Realtime.LoadedStats | src/hooks/useRealtime.js:177-184 | total is the number of calls; successful the number of donated calls (≤ total); raised their `donation_amount \|\| 0` sum |
| Realtime.StatsAfterInsert | src/hooks/useRealtime.js:115-118 | total up by one, the rest unchanged |
| Realtime.StatsAfterUpdate | src/hooks/useRealtime.js:143-154 | an ended donated call with a truthy amount adds one and its amount; any other update changes nothing |
| Realtime.LiveStatsAgreeWithReload | src/hooks/useRealtime.js:112-184 | a new call that later ends as a counted donation gives the same stats live as on a reload |
| Realtime.DonationWithoutAmountCountsOnlyOnReload | src/hooks/useRealtime.js:148-182 | a donated call without an amount is counted on reload but not live |
| Realtime.RealtimeCalls.constructor | src/hooks/useRealtime.js:85-91 | empty lists, zero stats, invariants established |
| Realtime.RealtimeCalls.Load | src/hooks/useRealtime.js:171-187 | the calls, the open calls and `LoadedStats`; an error keeps the state |
| Realtime.RealtimeCalls.OnInsert | src/hooks/useRealtime.js:112-123 | prepends the call, counts it, and adds it to the active calls iff it has no `ended_at`; keeps the invariants |
| Realtime.RealtimeCalls.OnUpdate | src/hooks/useRealtime.js:138-154 | replaces the call. An ended call leaves the active list and a counted donation updates the stats. The invariants are kept |
| Realtime.SumAmountsAppend | src/hooks/useRealtime.js:264 | the amount total of a concatenation is the sum of the totals |
| Realtime.SumAmountsPermutation | src/hooks/useRealtime.js:264 | reordering the donations leaves the total unchanged |
| Realtime.RealtimeDonations.constructor | src/hooks/useRealtime.js:202-203 | no donations, total 0 |
| Realtime.RealtimeDonations.Load | src/hooks/useRealtime.js:261-264 | the loaded donations (or []), with the total their amount sum; an error keeps the state |
| Realtime.RealtimeDonations.OnInsert | src/hooks/useRealtime.js:230-241 | prepends the donation with its donor, adds its amount, and hands it to the celebration callback when one is set |
| Realtime.EventTag | src/hooks/useRealtime.js:334-342 | `donation` and `milestone` keep their name, `call-started` is tagged `call`, other events are ignored |
| Realtime.Tagged | src/hooks/useRealtime.js:335 | `{ type: tag, ...payload }`: the payload's keys and values plus `type`, whose tag a payload `type` overrides |
| Realtime.BroadcastMessage | src/hooks/useRealtime.js:350-358 | a message is sent iff the channel is open, carrying the event and the payload |
| Realtime.Broadcasts.constructor | src/hooks/useRealtime.js:324 | no events |
| Realtime.Broadcasts.Receive | src/hooks/useRealtime.js:334-342 | appends exactly one tagged event per handled broadcast and never replaces the list |
| Tally.SumSeqUpdate | src/app/settings/page.tsx:184-185 | adding to one group changes the total by exactly that amount |
| Tally.Summary | src/app/settings/page.tsx:204-222 | the reference fold of one key: its count, hits (≤ count) and amount |
| Tally.FirstKeys | src/app/settings/page.tsx:188 | the distinct keys in first-occurrence order, which is the order `Object.values` lists them |
| Tally.FirstKeysMembers | src/app/settings/page.tsx:181-183 | a key is listed iff some row has it |
| Tally.SummaryCount | src/app/settings/page.tsx:181-183 | a key's count is positive iff it is listed |
| Tally.AddRow | src/app/settings/page.tsx:181-186 | one row: a known key bumps its group and keeps the slots, a new key appends a group started from the row and records its slot. Either way every group stays equal to its fold and the totals stay balanced over one more row |
| Tally.GroupRows | src/app/settings/page.tsx:178-188 | one group per distinct key in first-occurrence order, each equal to its reference fold. Counts sum to the number of rows; hits and amounts sum to the rows' |
| Analytics.Ratio | src/app/settings/page.tsx:134 | 0 for a zero denominator, else the exact quotient (in [0, 1] for a part of a whole) |
| Analytics.Percent | src/app/settings/page.tsx:135 | 0 for a zero denominator, else 100 times the exact quotient |
| Analytics.OverviewStats | src/app/settings/page.tsx:131-161 | the totals are the list lengths and the amount sum. The averages, rates, growth and dollars per call are those quotients, each 0 when its denominator is 0 |
| Analytics.DailyStats | src/app/settings/page.tsx:178-188 | one total per day in first-seen order with that day's count and amount; counts sum to the number of donations, amounts to their total |
| Analytics.CallerName | src/app/settings/page.tsx:209-211 | the first member's name, or "Unknown" without members |
| Analytics.CallerItem | src/app/settings/page.tsx:206-220 | a call counts toward its caller, and toward donations with its first donation's amount when it has one |
| Analytics.AllPerformers | src/app/settings/page.tsx:204-224 | one performer per caller, each with donations ≤ calls |
| Analytics.CallerTotals | src/app/settings/page.tsx:204-222 | the grouping loop yields exactly the reference performers |
| Analytics.TopPerformers | src/app/settings/page.tsx:204-231 | at most ten, non-increasing by `raised`, drawn from the performers, none left out raised more, and each has donations ≤ calls |
| Analytics.OutcomeKey | src/app/settings/page.tsx:245 | a missing or empty outcome counts as `no_answer` |
| Analytics.ReplaceFirst | src/app/settings/page.tsx:258 | `replace('_', ' ')`: only the first underscore changes |
| Analytics.CapitalizeWords | src/app/settings/page.tsx:258 | `/\b\w/g` to upper case: exactly the word characters that start a word are upper-cased |
| Analytics.OutcomeName | src/app/settings/page.tsx:258 | the display name has the key's length |
| Analytics.OutcomeNameNoAnswer | src/app/settings/page.tsx:258 | `no_answer` is shown as "No Answer" |
| Analytics.OutcomeNameDonated | src/app/settings/page.tsx:258 | `donated` is shown as "Donated" |
| Analytics.OutcomeNameReplacesFirstUnderscoreOnly | src/app/settings/page.tsx:258 | a second underscore is kept: `a_b_c` is shown as "A B_c" |
| Analytics.OutcomeColor | src/app/settings/page.tsx:249-260 | `donated` `#10b981`, `callback` `#f59e0b`, `not_interested` `#ef4444`, `no_answer` `#6b7280`, `voicemail` `#8b5cf6`, any other key `#6366f1` |
| Analytics.OutcomeDistribution | src/app/settings/page.tsx:243-261 | one slice per outcome in first-seen order with its count, name and colour; counts sum to the number of calls |
| Analytics.ConversionsAtMost | src/app/settings/page.tsx:280-283 | an hour never has more conversions than calls |
| Analytics.HourlyPerformance | src/app/settings/page.tsx:273-290 | 24 buckets labelled `h:00` for hours 0 to 23, each with that hour's calls and conversions (conversions ≤ calls) and a percentage rate that is 0 without calls; bucket calls sum to the number of calls |
| Analytics.SegmentOf | src/app/settings/page.tsx:307-313 | 0 → New, other amounts below 100 → Small, below 500 → Mid, below 2000 → Major, else VIP; exactly one band |
| Analytics.DonorSegments | src/app/settings/page.tsx:299-321 | the five fixed segments with their colours and counts, a missing amount counting as 0; counts sum to the number of donors |
| Analytics.TotalOf | src/app/settings/page.tsx:334-336 | a campaign's raised amount is its donations' sum and its count their number, 0 without donations |
| Analytics.CampaignComparisonSpec | src/app/settings/page.tsx:333-337 | at most five, non-increasing by raised, from the campaigns' own totals, none left out raised more |
| RecentActivity.TagRow | src/components/dashboard/RecentActivity.tsx:114-115 | the row's columns with `type` and `message` written last, so they always win |
| RecentActivity.TaggedLive | src/components/dashboard/RecentActivity.tsx:67-72 | the same, plus `time` set to the creation time |
| RecentActivity.DonationMessage | src/components/dashboard/RecentActivity.tsx:83 | the fixed head followed by the amount's decimal text |
| RecentActivity.DonationMessageAmount | src/components/dashboard/RecentActivity.tsx:83 | the text after "Donation received: $" reads back as the amount |
| RecentActivity.Combined | src/components/dashboard/RecentActivity.tsx:113-115 | the tagged calls followed by the tagged donations |
| RecentActivity.InitialSpec | src/components/dashboard/RecentActivity.tsx:113-116 | at most ten, newest first, drawn from the combined list, none left out newer than one kept |
| RecentActivity.InitialKinds | src/components/dashboard/RecentActivity.tsx:113-116 | every initial activity is tagged as a call or as a donation |
| RecentActivity.PushCapped | src/components/dashboard/RecentActivity.tsx:73 | the new activity first, then a prefix of the old list, at most ten in all |
| RecentActivity.Feed.constructor | src/components/dashboard/RecentActivity.tsx:54 | an empty feed |
| RecentActivity.Feed.Load | src/components/dashboard/RecentActivity.tsx:96-119 | the feed becomes the initial selection |
| RecentActivity.Feed.OnCallInsert | src/components/dashboard/RecentActivity.tsx:66-74 | prepends a `call` activity and caps the feed at ten |
| RecentActivity.Feed.OnDonationInsert | src/components/dashboard/RecentActivity.tsx:78-87 | prepends a `donation` activity with "Donation received: $amount" and caps the feed at ten |
| DonorCard.TierOf | src/components/dialer/DonorCard.tsx:6-11 | Major iff > 1000, High Value iff in (500, 1000], Previous iff in (0, 500], New Prospect iff ≤ 0 or missing |
| DonorCard.DonorBadge | src/components/dialer/DonorCard.tsx:6-13 | the text and colour per previous donation (a missing amount as 0): above 1000 "Major Donor" `bg-yellow-500`, above 500 "High Value" `bg-purple-500`, above 0 "Previous Donor" `bg-green-500`, otherwise "New Prospect" `bg-blue-500` |
| DonorCard.BadgeTextsDistinct | src/components/dialer/DonorCard.tsx:7-10 | the four badge texts are pairwise different |
| DonorCard.TierMonotone | src/components/dialer/DonorCard.tsx:6-11 | a larger previous amount never gives a lower tier |
| DonorCard.DisplayedScore | src/components/dialer/DonorCard.tsx:41 | `score \|\| 50`: 50 when missing or zero |
| DonorCard.MoneyText | src/components/dialer/DonorCard.tsx:49 | `$` and the amount, or `$0` when it is falsy |
| DonorCard.LastContactText | src/components/dialer/DonorCard.tsx:61-64 | "Never" without a last contact date |
| CallTimer.Rem60 | src/components/dialer/DontationForm.tsx:19 | JavaScript's `% 60`: the usual remainder for non-negative input, a non-positive one for negative input |
| CallTimer.Pad2 | src/components/dialer/DontationForm.tsx:20 | `padStart(2, '0')`: short text gets leading zeros up to length 2, longer text is kept |
| CallTimer.FormatFields | src/components/dialer/DontationForm.tsx:17-19 | `secs < 60` and `mins*60 + secs` is the input |
| CallTimer.PadRoundTrip | src/components/dialer/DontationForm.tsx:20 | a padded number is all digits and reads back as the number; two characters below 100 |
| CallTimer.FormatRoundTrip | src/components/dialer/DontationForm.tsx:17-21 | the text is digits, `:`, two digits (`IsClockText`), and reading it back (`ClockValue`: minutes times 60 plus seconds) gives the input |
| CallTimer.FormatLength | src/components/dialer/DontationForm.tsx:17-21 | five characters for 0 ≤ s < 6000 |
| CallTimer.FormatNegative | src/components/dialer/DontationForm.tsx:17-21 | a negative input is not normalised: -1 shows as "-1:-1" |
| CallTimer.Timer.constructor | src/components/dialer/DontationForm.tsx:7 | the timer starts at `duration \|\| 0` |
| CallTimer.Timer.Tick | src/components/dialer/DontationForm.tsx:10-12 | each tick adds exactly one second |
| Organization.Slug | supabase/functions/create-organization/index.ts:17 | the slug contains no whitespace and is never longer than the name |
| Organization.CollapseNoSpace | supabase/functions/create-organization/index.ts:17 | no `\s` character survives the replacement |
| Organization.CollapseNoSpaceIdentity | supabase/functions/create-organization/index.ts:17 | text without whitespace is left as it is |
| Organization.CollapseAppend | supabase/functions/create-organization/index.ts:17 | the replacement of a concatenation continues the state left by the first part |
| Organization.CollapseSpaces | supabase/functions/create-organization/index.ts:17 | a block of whitespace yields one hyphen |
| Organization.CollapseRun | supabase/functions/create-organization/index.ts:17 | each maximal run of whitespace becomes exactly one `-` between its neighbours' replacements |
| Organization.SlugOfSpacedName | supabase/functions/create-organization/index.ts:17 | a name whose parts are separated by any whitespace run gets one hyphen per gap |
| Organization.CollapseKeepsLetters | supabase/functions/create-organization/index.ts:17 | every character other than whitespace and `-` is kept, in order |
| Organization.SlugKeepsLetters | supabase/functions/create-organization/index.ts:17 | apart from hyphens, the slug is the lower-cased name with its whitespace left out |
| Organization.SlugIdempotent | supabase/functions/create-organization/index.ts:17 | the slug of a slug is the slug |

## Left out

- Transport: the backend client, subscriptions, channel teardown and presence are not modelled.
  Each backend answer is a parameter, and the model covers only the reducers.
  Event ordering and races between handlers are not modelled.
- `useRealtimeStats` and `useRealtimeDonorScores` only re-issue stored-procedure calls.
  The stored procedures themselves (`get_next_donor`, `get_realtime_stats`, `calculate_donor_score`) are not in these files.
  The ranking procedure is an input to `LoadNextDonor`.
- Timers: `setInterval`, `clearInterval` and `window.callTimer` are not modelled.
  A tick is a method call, and the clock is a parameter (`now`).
- Dates: date parsing, `toISOString`, `getHours`, `toLocaleDateString` and the previous-period date arithmetic are not modelled.
  Hours, day keys, date text and timestamps are inputs, and the previous period's amounts are a parameter.
- Analytics.OverviewStats: the ratios are exact reals, not IEEE doubles. Rounding and NaN are not modelled, only the zero guards.
- Analytics.OverviewStats: the page reads a call's `duration` column while the dialer writes `duration_seconds`. The schema is not part of this model, so the durations are an input.
- DonorStore.SortKey: the `name` order (`localeCompare`) is given a constant key.
  So it keeps the filtered order, which weakens what is stated about that order.
  The `recent` order compares integer timestamps instead of parsed dates.
- Common.Lower: `toLowerCase` is modelled for ASCII letters only. This affects the donor search and the slug; non-ASCII letters are kept as they are.
- Tally.FirstKeys: `Object.values` lists integer-like keys (a caller id or a day such as "12") in ascending order before the other keys. The model keeps first-occurrence order for every key.
- Analytics.OutcomeColor: keys inherited from `Object.prototype` (such as `constructor`) would find a non-string colour. The model treats every other key as unknown.
- RecentActivity.AmountOf: a donation row without a numeric `amount` shows "undefined" in the source. The model shows 0.
- Realtime.Broadcasts, Realtime.BroadcastMessage: the model assumes `useRef` is imported. As written, `src/hooks/useRealtime.js` imports only `useEffect`, `useState` and `useCallback` (line 1), so `useBroadcast` throws at `useRef(null)` (line 325) on its first render, before it subscribes or can send.
- Dialer.DialerStore.EndCall: the source reads `get().callStartTime`, but `get` is not in scope in `useDialer`, so the line would throw. The model reads the store's start time.
- Dialer.DialerStore.RecordOutcome: the result of the queue update is not checked, as in the source. Organization and team-member ids are not modelled.
- Toasts and console logging are not modelled, nor CSV export through the DOM, the dialer page glue, or `tel:` navigation.
- The `parseFloat`/`isNaN` validation in `DonationForm.tsx` is not modelled.
- Dialer.OutcomePlan, RecentActivity.DonationMessage, Realtime.LoadedStats, Realtime.SumAmounts: amounts are integers. The donation form passes `parseFloat(amount)`, so fractional amounts such as 25.5 reach the donation insert, the live sums and the "Donation received: $25.5" text; the model covers whole amounts only.
- The persisted auth store is not modelled, nor the UI components, layout or configuration.
- The organization function's inserts and response are backend I/O and are not modelled. Only the slug is.

## Findings

| source | as written | input that shows it | evidently intended | confidence | as-written member | corrected member |
|---|---|---|---|---|---|---|
| src/hooks/useDialer.js:108-111 | the timer computes `Math.floor((Date.now() - Date.now()) / 1000)`, reading the clock twice | a call started at time `t`, ticking at `t + 5000`: the duration shown is 0 (or -1 if the millisecond changes between the two reads) | the whole seconds since `callStartTime`, which is 5 here | not executed | Dialer.TickAsWrittenIgnoresStart | Dialer.DialerStore.TimerTick |
