# Verified models of the OnDex back end

The project models the parts of the back end whose correctness depends on interleaving, on time or on
exact arithmetic, and proves what they guarantee. Two kinds of models meet in it:

* **Protocols.** Where requests and goroutines interleave, a state machine has one event per critical section,
  channel operation or store call. A run is any sequence of enabled events; `Reachable` says that a state ends
  some run. The main lemmas hold in every reachable state, or for every run.
* **Objects and loops.** Where the source updates fields or loops over slices there is a class or a method with
  the same branches, proved against a specification function or against the property itself. The modules
  `DispatchRuns`, `DraftService` and `AlertService`, and the classes in `GrantLocks` and `LiveRoute` themselves, show
  that what these objects do are runs of the protocols.

| module | models |
|---|---|
| `Dispatch`, `Dispatcher`, `DispatchRuns` | the courier search: waves of three, buffered replies, atomic claim, cancel and restart, missed offers |
| `LateReplies` | which replies are lost, which cancelled searches still win, which offers are withdrawn |
| `Availability` | who is available, and why: claims, the end of a won search, couriers switching themselves on and off |
| `Ranking` | travel times by group, fallback estimates, scores, the kept rank, open apps first |
| `Drafts`, `DraftService` | agent orders: confirmation, approval, rejection, the order behind a draft |
| `DraftLimits`, `DraftLife` | when the daily limit is kept; when what was decided about a draft stays decided |
| `GrantLocks` | the reference-counted mutex per grant |
| `Links` | linking a partner with a user: requests, grants, the one-time token |
| `Hours` | weekly working hours and the next change |
| `Alerts`, `AlertService` | the numbered notification stream and resuming it |
| `SpeedGate`, `LiveRoute` | the gate against impossible speeds; the budget of paid route requests |
| `Polyline`, `BookText` | the polyline decoder; cleaning and cutting a book's text |
| `Promotions`, `Discounts`, `Cart` | promotion conflicts; spreading a discount; the discount of a cart |
| `Outcomes`, `Sequences`, `Sorting` | an option type; sequences and sums; the contract of Go's sorting |

Conventions: time is an integer (nanoseconds, seconds in `LiveRoute`) that does not go back where a module says
so; distances and estimates are function parameters, so results hold for any; scores and speeds are exact
reals; ids, codes and tokens are fresh; whether a store write, a claim or a read works is an argument of the
step. History fields (`log`, `sent`, `handed`, `chosen`, `check`, `agent` and the like) are read by no step.

## Where the code and its comments differ

The models follow the code. Each difference is proved, together with the exact condition where there is one.

* The daily limit of a grant (`internal/agentapi/service.go:700-715`) is checked against `SpentSince`, which goes
  by the drafts that say that they are placed and by the time they were made
  (`internal/storage/memory_agent.go:288`, `internal/storage/postgres_agent.go:407`). It limits what the agent really
  buys in a day in every run in which drafts are confirmed on the date they were made and none of four things happens:
  an order made on a later date than its check, a placed draft that cannot be saved, a rejection written over a
  placement, an order of another total that cannot be cancelled. If any one of these five is allowed, some run exceeds
  it: `DraftLimits.LimitIsKeptExactly`, `DraftLimits.NothingMayGoWrong`, with the runs `MidnightDefeatsTheLimit`,
  `LateOrderDefeatsTheLimit`, `LostSaveDefeatsTheLimit`, `RejectionDefeatsTheLimit`, `StuckOrderDefeatsTheLimit`.
* `UserRejectDraft` takes no lock, so a rejection can be written over, and can itself be written over a placement:
  `DraftLife.RejectionCanBeLost`, `DraftLife.PlacementCanBeLost`. These are the only ways in which what was decided is
  undone, and neither happens if no rejection overlaps with a confirmation or an approval of the same draft:
  `DraftLife.DecisionUndoneExactly`, `DraftLife.DecidedForEver`.
* "All of them refused" ends a wave by the number of replies, not of couriers: `Dispatch.EarlyEnd`,
  `Dispatch.OneCourierCanEndTheWave`.
* A cancelled search can still win, beside its successor (`Dispatch.CancelledSearchCanStillWin`): exactly if it is about
  to claim, or has an acceptance to handle or early enough in its channel (`LateReplies.CancelledSearchWinsExactly`).
* A search gives its winner back when the order cannot take him (`internal/httpapi/dispatch.go:140-148`), without looking
  whether another order has taken him meanwhile. A courier whose order took him is then available during that delivery
  though he did not switch himself on since: `Availability.BusyCourierIsGivenBack`. It takes a courier who switched himself on
  between being won and being given back; if none did, only he himself ends it: `Availability.BusyUntilHeReturns`.
* A courier who was told true may not be heard: a reply is received by no continuation exactly if it comes between two
  waves or behind as many replies as the wave has couriers (`LateReplies.ReceivedExactly`).
* A panel that received nothing cannot resume without a gap; it misses some exactly if there are more than one
  page: `Alerts.ResumeFromNothing`.
* The rank kept between cycles is current exactly as long as no courier is shown at the unknown location:
  `Ranking.KeepingIsSafeExactly`.
* What rounding loses is not given back one tiyin each: the heaviest line takes all it has room for. It comes to one
  each exactly if it is used up before a line with room for two has its second turn:
  `Discounts.RestIsSharedExactly`, `Discounts.RestIsNotShared`, `Discounts.RestGoesToTheHeaviest`.
* A promotion all of whose targets are taken is reported as stopped but stays active, covering nothing:
  `Promotions.TakenOverButActive`.
* Invalid UTF-8 is not removed from a book's text (`internal/books/pdf.go:194-196`): `strings.Map` has turned every invalid
  byte into a replacement character before `ToValidUTF8` looks for it: `BookText.InvalidBytesAreKept`.
* The polyline decoder inverts its format exactly for 64-bit coordinates and steps of 63 bits:
  `Polyline.PolylineRoundTrip`.

## Model

| member | source | states |
|---|---|---|
| Dispatch.WinnerIsSound | internal/couriers/dispatch.go:661-730 | In every reachable state a winner accepted, in the wave that was open, a reply delivered after that wave was opened and before the claim; the search itself flipped the courier to unavailable, once; the other couriers' offers are withdrawn. |
| Dispatch.NoCourierWonTwice | internal/couriers/courier.go:101-109 | Two searches win one courier only if in between he switched himself on or was given back, and a courier that was won is available again only after one of these; which of them it can be is said by Availability.WonAgainBecause. |
| Dispatch.RepliesStayInTheirWave | internal/couriers/dispatch.go:422-435 | Whatever reply a search receives was delivered to that search in the wave still open at the receipt, by a courier of that wave; none is received twice. |
| Dispatch.LateWinUsesAnEarlierReply | internal/couriers/dispatch.go:784-796 | A search that was cancelled or has left the table wins only with a reply delivered before that; when it does is said by LateReplies.CancelledSearchWinsExactly. |
| Dispatch.ExitKeepsTheSuccessor | internal/couriers/dispatch.go:337-346 | Leaving removes a search's own registration and no other, so a cancelled search never removes its successor. |
| Dispatch.LeavesWhenEnded | internal/couriers/dispatch.go:337-346 | A search that has left has won or failed, and stays so. |
| Dispatch.EarlyEnd | internal/couriers/dispatch.go:676-713 | When refusals end a wave there were as many replies as couriers; the whole wave replied if and only if nobody replied twice. |
| Dispatch.OneCourierCanEndTheWave | internal/couriers/dispatch.go:680-687 | For any wave of three there is a run in which one courier's three refusals end it. |
| Dispatch.CancelledSearchCanStillWin | internal/couriers/dispatch.go:784-796 | There is a run in which a cancelled search and its successor both win, different couriers for one order. |
| Dispatch.FirstReplyIsKept | internal/couriers/dispatch.go:755-775 | As long as nobody replied twice in a wave, the first reply of any courier of the wave is accepted: the buffer never overflows. |
| Dispatch.EveryThirdMiss | internal/couriers/missed.go:35-57 | Over all searches together a courier is taken off the line at every third missed offer in a row and at no other; the counter is the streak modulo three. |
| Dispatch.ExpiryRecordsTheSilent | internal/couriers/dispatch.go:715-723 | When time runs out exactly the couriers of the wave whose reply was never received are recorded, each once, and every offer of the wave is withdrawn. |
| LateReplies.CancelledSearchWinsExactly | internal/couriers/dispatch.go:661-730 | A search that was cancelled, or has left, has a continuation in which it wins if and only if it has won, is about to claim, or has an acceptance to handle or in its channel before the wave has had as many replies as couriers. |
| LateReplies.ReceivedExactly | internal/couriers/dispatch.go:422-435 | A reply in the channel is received by some continuation if and only if its wave is under way and has not had as many replies as couriers before it; between waves, and in the pause, it is lost. |
| LateReplies.OffersAfterTheWave | internal/couriers/dispatch.go:676-730 | When a wave ends, all its offers stay out after refusals and after a failed claim, the winner's stays after a win, and none when time runs out or the search is cancelled. |
| Availability.ReleasedExactly | internal/httpapi/dispatch.go:134-151 | Over any run a search has given a courier back if and only if it won him, its order could not take him and the write worked; and then its order never took him. |
| Availability.AvailableAfter | internal/couriers/courier.go:98-109 | A courier is available after a step if and only if he switched himself on or was given back in it, or was available and neither switched himself off, nor was claimed, nor missed his third offer in a row in it. |
| Availability.WonAgainBecause | internal/httpapi/dispatch.go:134-151 | Two searches win one courier only if in between he switched himself on, the first of them gave him back, or one did that had won him before. |
| Availability.TakenIsAvailableBecause | internal/httpapi/dispatch.go:134-151 | A courier whose order took him is available only if since he was won he switched himself on, or a search gave him back that had won him before. |
| Availability.BusyUntilHeReturns | internal/httpapi/dispatch.go:134-151 | The same without the second case, if no courier switched himself on between being won by a search and being given back by it. |
| Availability.BusyCourierIsGivenBack | internal/httpapi/dispatch.go:134-151 | A run in which a courier whose order took him is available though he did not switch himself on since. |
| Availability.CourierTable.ClaimIfAvailable | internal/couriers/courier.go:101-109 | Exactly one of several claims of an available courier gets him. |
| Availability.CourierTable.AssignWinner | internal/httpapi/dispatch.go:134-151 | The end of a won search: the Assign step of the protocol, giving the winner back exactly if the order could not take him. |
| Dispatch.InvAlways | internal/couriers/dispatch.go:314-499 | The invariant (registrations, waves, phases, claims, order of replies, counters) holds after any run from any state in which it holds. |
| Dispatcher.Dispatcher.Register | internal/couriers/dispatch.go:322-336 | A search starts with an empty record exactly if none is registered for the order. |
| Dispatcher.Dispatcher.StartWave | internal/couriers/dispatch.go:422-436 | The wave becomes the batch, its offer and the time it ends are set, the channel and the refusals are emptied, whatever was in them. |
| Dispatcher.Dispatcher.HandleResponse | internal/couriers/dispatch.go:755-775 | True exactly if the order is registered, the courier is in its wave and the buffer has room; then the reply is last in the channel. A refusal is remembered even if it does not fit, and nothing else changes. |
| Dispatcher.Dispatcher.Cancel | internal/couriers/dispatch.go:784-796 | Removes the registration and cancels its context, leaving the record as it was and all others alone. |
| Dispatcher.Dispatcher.Exit | internal/couriers/dispatch.go:337-346 | Removes the registration exactly if it is still the search's own. |
| Dispatcher.Dispatcher.ResetMissed | internal/couriers/missed.go:28-32 | A reply clears the courier's counter and no other. |
| Dispatcher.Dispatcher.RecordMissed | internal/couriers/missed.go:35-57 | Counts one up, starts over at three, and tells exactly then that the courier goes offline. |
| Dispatcher.Dispatcher.AwaitWave | internal/couriers/dispatch.go:661-730 | For any sequence of replies, claim results, time-outs and cancellations: which wake decides the wave and how, which offers are withdrawn, every counter afterwards, and who is taken off the line. |
| Dispatcher.Dispatcher.RecordSilent | internal/couriers/dispatch.go:718-723 | Adds one miss to each courier of the wave that did not answer and to nobody else. |
| Dispatcher.Dispatcher.CycleWaves | internal/couriers/dispatch.go:402-418 | The waves concatenate to the ranking; each has one to three couriers and all but the last have three. |
| Dispatcher.EveryRankedCourierIsOffered | internal/couriers/dispatch.go:402-418 | Over a whole cycle a courier is in some wave if and only if ranked, and never in two. |
| Dispatcher.Dispatcher.BackoffPause | internal/couriers/dispatch.go:282-291 | The pause after n failed cycles is the first pause times two to the n-1, at most the longest one. |
| Dispatcher.Dispatcher.PendingOffer | internal/couriers/reach.go:120-140 | An offer open for the courier, not refused and with at least a second left, with the time that is left, if there is any; none exactly if there is none. |
| DispatchRuns.AwaitWaveIsARun | internal/couriers/dispatch.go:661-730 | Whatever wakes the waiting loop up, the protocol has a run in which the search ends the same way with the same counters for every courier. |
| DispatchRuns.RecordAll | internal/couriers/dispatch.go:718-723 | The protocol can record the misses of any list of silent couriers one by one, each counter going up by one modulo three. |
| Ranking.FetchETAs | internal/geo/distance_matrix.go:83-109 | The loop over groups gives the results of the groups in order of first appearance, or nothing if one group fails. |
| Ranking.FetchGroup | internal/geo/distance_matrix.go:111-172 | Results exactly if the service answers with as many rows as candidates, each for its candidate in order. |
| Ranking.FetchConserves | internal/geo/distance_matrix.go:83-172 | If nothing fails, every id has as many results as candidates. |
| Ranking.FetchedExactly | internal/geo/distance_matrix.go:83-172 | There are results if and only if there is a key and the service has a row for each candidate of each mode; every result is that of one candidate's row: usable exactly if the row says so, with its time then. |
| Ranking.ListAnswered | internal/couriers/dispatch.go:578-590 | Every result about a known courier becomes an entry, with the straight-line estimate unless it is usable, and unknown ids are skipped. |
| Ranking.ListUnanswered | internal/couriers/dispatch.go:591-598 | Every located courier that no result is about is listed with the straight-line estimate. |
| Ranking.Rank | internal/couriers/dispatch.go:510-614 | The ranking made with an error, with no results, or with any results is the specified one. |
| Ranking.ListConserves | internal/couriers/dispatch.go:548-598 | Before sorting, each courier is listed once, or as often as there are results about them. |
| Ranking.RankConserves | internal/couriers/dispatch.go:510-614 | The rank lists exactly the couriers with a known location, each once unless the service repeats an id. |
| Ranking.EverybodyIsRankedOnce | internal/couriers/dispatch.go:510-614 | With the results of FetchETAs, or without, everybody with a known location is ranked exactly once. |
| Ranking.RankedTimes | internal/couriers/dispatch.go:510-614 | Whoever is ranked has a known location, the time of a usable result about them, or the straight-line estimate where there is none, and the score of that time. |
| Ranking.ScoreAndSort | internal/couriers/scoring.go:58-71 | The loop fills in every score and sorts stably, best first. |
| Ranking.ScoredInOrder | internal/couriers/scoring.go:58-71 | The list is a permutation of the scored entries, best score first, each entry with the score of its courier and time. |
| Ranking.TimingHasOnePeak | internal/couriers/scoring.go:73-101 | Up to the ideal window a later arrival never scores less, from it on never more. |
| Ranking.TimingBounds | internal/couriers/scoring.go:73-101 | Full marks exactly inside the window; too early costs at most 20 points; the full penalty exactly from twice the window's end on. Without a time for cooking, full marks exactly at once and the full penalty exactly from 18 minutes on. |
| Ranking.TimingEnds | internal/couriers/scoring.go:73-101 | 80 points for coming at once, 100 at both ends of the window, 10 at twice its end. |
| Ranking.EarlyIs | internal/couriers/scoring.go:80-89 | Before the window the points lie on the straight line between those. |
| Ranking.LateIs | internal/couriers/scoring.go:90-101 | Behind the window they lie on the other one. |
| Ranking.WindowIs | internal/couriers/scoring.go:58-71 | The window is from a quarter to half of the time for cooking, rounded down. |
| Ranking.ScoreAddsUp | internal/couriers/scoring.go:103-113 | Of two couriers with the same time, the scores differ by ten points a star and two for ten orders, up to fifty orders. |
| Ranking.KeptRankIsCurrent | internal/couriers/dispatch.go:387-398 | After any number of cycles the rank, made anew or kept, lists exactly the located couriers of the last pool once each, if no location is shown as unknown without being it. |
| Ranking.KeepingIsSafeExactly | internal/couriers/dispatch.go:296-308 | A rank may be kept for every pool with the same key if and only if no courier of its pool is shown at the unknown location. |
| Ranking.KeyIsBlindAtZero | internal/couriers/dispatch.go:296-308 | A courier first seen next to the unknown location is not ranked, for the key did not change. |
| Ranking.ShownIsNearest | internal/couriers/dispatch.go:296-308 | A coordinate is shown as the nearest number of tenthousandths, with its sign. |
| Ranking.PreferOnlineIsStablePartition | internal/couriers/reach.go:95-109 | Couriers with an open app come first, then the others, in both parts in ranking order. |
| Ranking.Candidates | internal/couriers/reach.go:58-90 | The reachable couriers nearby in their order, then those of the second list who are on neither the first nor online and can be woken up, in theirs, and who is in it: if and only if near and online or reachable by push, or in the second list alone, not online and reachable by push; nobody twice; a failed second read leaves the first part. |
| DraftLimits.LimitIsKeptExactly | internal/agentapi/service.go:700-758 | For any set of times at which drafts are made and checked: if nothing else goes wrong, every run with these times keeps what the agent really buys within every grant's daily limit on every day if and only if the two times never lie on different dates. |
| DraftLimits.NothingMayGoWrong | internal/agentapi/service.go:676-757 | With drafts confirmed on the date they were made, the limit is kept in all runs in which certain mishaps may happen if and only if these are none of: an order later than its check, a lost save, a rejection over a placement, an order of another total that stays. |
| DraftLimits.DailyLimitWithoutMishaps | internal/agentapi/service.go:665-741 | Under any interleaving without these mishaps the agent's live orders of a calendar day total at most the limit. |
| DraftLimits.DailyLimit | internal/agentapi/service.go:747-758 | In every reachable state the agent's live orders of a day exceed the limit by no more than those of which their drafts do not say so, with that date and that total. |
| DraftLimits.PlacementIsSeen | internal/storage/memory_agent.go:282-293 | Placing a draft raises the sum that later checks of the same day see if and only if the draft was made that day. |
| DraftLimits.MidnightDefeatsTheLimit | internal/agentapi/service.go:700-715 | For any limit, any number n and any two times with midnight in between, a run buys n times the limit in one day. |
| DraftLimits.LostSaveDefeatsTheLimit | internal/agentapi/service.go:860-871 | A run with two live orders of the whole limit each on one day, because the first draft could not be saved. |
| DraftLimits.RejectionDefeatsTheLimit | internal/agentapi/service.go:818-837 | The same because a rejection was written over the first placement. |
| DraftLimits.LateOrderDefeatsTheLimit | internal/agentapi/service.go:845-858 | The same because the first order was made after midnight and checked before it. |
| DraftLimits.StuckOrderDefeatsTheLimit | internal/httpapi/routes_agent.go:600-612 | A run with one live order of any total above the limit, because it could not be cancelled. |
| DraftLife.DecisionUndoneExactly | internal/agentapi/service.go:676-741 | After any run a step changes the status of a placed, rejected or expired draft if and only if it writes a rejection that read the draft before the decision, or saves what was read before a rejection. |
| DraftLife.LockKeepsOthersOut | internal/agentapi/service.go:665-741 | Between a read under the lock and the write that follows it nothing but a rejection writes the draft. |
| DraftLife.DecidedForEver | internal/agentapi/service.go:676-741 | In every run in which no rejection overlaps with a confirmation or an approval of the same draft, what was decided stays for ever. |
| DraftLife.NeverOpenAgain | internal/agentapi/service.go:725-741 | A draft that waits for its user never becomes open again, whatever is written. |
| DraftLife.GoesOnExactly | internal/agentapi/service.go:686-715 | A confirmation goes on exactly with an open draft of its grant, in time, with the total it names; an approval exactly with a waiting one, in time, of a usable grant; either ends the draft exactly if it is theirs, undecided and too late. |
| DraftLife.PlacedInTime | internal/agentapi/service.go:701-709 | After any run, whatever was placed was looked at by a confirmation or an approval before it ran out. |
| DraftLife.RevocationStops | internal/agentapi/service.go:552-572 | Whatever runs after a revocation, the user approves no more of the grant's drafts: each that is placed by approval was so before, or its approval had got past the checks before. |
| DraftLife.NothingApprovedOnceEnded | internal/agentapi/service.go:807-809 | The same for every grant that is switched off or over, at any moment of any run. |
| DraftLife.RejectionCanBeLost | internal/agentapi/service.go:818-837 | There is a run in which a rejected draft becomes placed, with an order, because rejecting takes no lock. |
| DraftLife.PlacementCanBeLost | internal/agentapi/service.go:818-837 | There is a run in which a placed draft becomes rejected while its order stays live. |
| Drafts.PlacedAsAgreed | internal/agentapi/service.go:845-874 | A draft has at most one order, whatever fails and is retried; a live placed draft has exactly one of its total; what the agent placed has the total it named and is within the limit per order. |
| Drafts.OrdersAsAgreed | internal/httpapi/routes_agent.go:591-614 | Every order has its draft's total, or is cancelled, or cancelling it was tried and failed. |
| Drafts.InvAlways | internal/agentapi/service.go:665-874 | The invariant (locks, drafts, requests in flight, limits, orders) holds after any run. |
| DraftService.Service.CreateDraft | internal/agentapi/service.go:589-658 | The new draft, open or waiting for the user, and nothing else, or nothing if it cannot be stored; the whole call is a run of the protocol. |
| DraftService.Service.ConfirmDraft | internal/agentapi/service.go:665-741 | All branches, and each answer exactly in its case: not found, decided, waiting for the user (waiting before, or over the daily limit now), too late, another total, placed, not placed, not saved. Repeating the confirmation of a placed draft returns it and changes nothing. |
| DraftService.Service.UserApproveDraft | internal/agentapi/service.go:762-815 | The same for the user, who is not held to the daily limit: each answer exactly in its case; success if and only if the draft is placed. |
| DraftService.Service.UserRejectDraft | internal/agentapi/service.go:818-837 | Rejects an open or waiting draft unless the write fails, and leaves a decided one alone; each answer exactly in its case. |
| DraftService.Service.Place | internal/agentapi/service.go:845-874 | Places the draft, or leaves it as it was with an order of another total cancelled or a failed write; it answers that it was not placed exactly if no order of its total came about. |
| DraftService.Service.CreateOrFind | internal/httpapi/routes_agent.go:577-590 | One order per idempotency key: the existing one, or a new one. |
| DraftService.Service.SpentSince | internal/storage/memory_agent.go:282-293 | The sum of the grant's placed drafts made since then. |
| DraftService.Service.CheckDaily | internal/agentapi/service.go:747-758 | Whether the amount would exceed the daily limit; never without one. |
| DraftService.ConfirmIsARun | internal/agentapi/service.go:665-741 | A whole confirmation leads from a reachable state to a reachable state of the interleaved protocol. |
| DraftService.ApproveIsARun | internal/agentapi/service.go:762-815 | A whole approval is a run of the protocol. |
| DraftService.PlacedAloneExactly | internal/agentapi/service.go:589-758 | The limits say only who has to agree: if every call works, a draft made and confirmed at once is placed if and only if it is within the limit per order and the rest of the daily limit; else it waits without an order, and the user's approval places it if and only if the grant may be used. |
| GrantLocks.MutualExclusion | internal/agentapi/service.go:135-157 | Two threads never hold one id's lock at once. |
| GrantLocks.NobodyWaitsInVain | internal/agentapi/service.go:135-157 | In every reachable state who waits can go on if and only if nobody holds the id's lock, and who holds it can always give it back. |
| GrantLocks.OneEntryPerId | internal/agentapi/service.go:135-157 | Concurrent users share an entry object if and only if they use the same id. |
| GrantLocks.NothingLeftBehind | internal/agentapi/service.go:149-156 | The count is the number of users and positive; an id is in the table if and only if somebody uses it; without users the table is empty. |
| GrantLocks.RefinesMutexes | internal/agentapi/service.go:135-157 | Seen from outside it is one mutex per id: acquiring takes a free lock, unlocking gives back the holder's, and bookkeeping changes nothing. |
| GrantLocks.InvAlways | internal/agentapi/service.go:135-157 | Sharing, separation, counts and ownership hold after any interleaving. |
| GrantLocks.Locks.Join | internal/agentapi/service.go:136-146 | Finds the id's entry or makes one, and counts the caller in: the Join step of the protocol. |
| GrantLocks.Locks.Acquire | internal/agentapi/service.go:148 | Takes the entry's free mutex: the Acquire step of the protocol. |
| GrantLocks.Locks.Unlock | internal/agentapi/service.go:149-150 | Gives the entry's mutex back: the Unlock step of the protocol. |
| GrantLocks.Locks.Leave | internal/agentapi/service.go:149-156 | Counts the caller out, and drops the entry exactly at zero: the Leave step of the protocol. |
| Links.IntersectionIsCommon | internal/agentapi/agentapi.go:157-165 | The result holds exactly the scopes that both sides allow, each once. |
| Links.IntersectScopes | internal/agentapi/agentapi.go:157-165 | The loop computes the intersection. |
| Links.OneActiveGrant | internal/agentapi/service.go:478-495 | After any requests, with any writes failing, a user has at most one active grant per partner. |
| Links.ScopesOnlyShrink | internal/agentapi/service.go:294-339 | After any requests every grant has exactly the scopes that its user chose and its link asked for, at least one, without repetition; and the link asked for no more than the partner may have. |
| Links.OneTokenPerLink | internal/agentapi/service.go:347-411 | No link hands out a second token. |
| Links.TokensAreForApprovedLinks | internal/agentapi/service.go:347-411 | Every link that handed out a token was approved before it ran out, and is consumed. |
| Links.DecisionsStand | internal/agentapi/service.go:415-438 | A decided link stays decided except that an approved one is consumed by a poll with its secret; approving needs a link that has not run out. |
| Links.DecisionsStandForEver | internal/agentapi/service.go:415-438 | The same over any number of requests. |
| Links.ApprovedExactly | internal/agentapi/service.go:446-521 | An approval succeeds exactly if the link can be decided, the user and the choice are sound, something is left and the writes work. Then there is one more grant: active, of this user, link and partner, with exactly the two limits named and a scope if and only if it was chosen and asked for; no other of the two is active; the link points to it; nothing else changes. |
| Links.NotApprovedBecause | internal/agentapi/service.go:446-521 | A failed approval leaves the links alone, and each error has its cause. |
| Links.StartedExactly | internal/agentapi/service.go:294-339 | A link is started exactly if all the wanted scopes exist and some are the partner's; it then has exactly those, waits for its user and runs out after ten minutes. |
| Links.DeniedExactly | internal/agentapi/service.go:524-538 | Denying needs a link that can be decided, and changes nothing but that link. |
| Links.CollectedExactly | internal/agentapi/service.go:347-411 | A token is handed out if and only if the partner polls its own approved link with its secret, the grant may be used and both writes work; the answer in every other state; a stranger learns and changes nothing. |
| Links.RevokedExactly | internal/agentapi/service.go:552-572 | A revocation succeeds exactly for the user's own grant, which is not active then; nothing else changes. |
| Links.Service.StartLink | internal/agentapi/service.go:294-339 | The state and the answer after starting a link, with all errors. |
| Links.Service.ApproveLink | internal/agentapi/service.go:446-521 | The state and the answer after an approval, with every check and every point at which a write fails; what these come to is said by Links.ApprovedExactly. |
| Links.Service.ResolveUserCode | internal/agentapi/service.go:415-438 | Which link may be decided, and the error otherwise. |
| Links.Service.DenyLink | internal/agentapi/service.go:524-538 | The state and the answer after a denial. |
| Links.Service.PollLink | internal/agentapi/service.go:347-411 | The state and the answer after a poll; a token is handed out exactly when the link becomes consumed. |
| Links.Service.RevokeGrant | internal/agentapi/service.go:552-572 | The state and the answer after a revocation. |
| Hours.ClockRoundTrip | internal/catalog/hours.go:50-65 | A clock string is read as minute n if and only if it is the canonical spelling of n. |
| Hours.OpenExactly | internal/catalog/hours.go:115-154 | Open if and only if the instant lies within the hours of some calendar day, from its opening to its closing, which is on the next day if it is earlier, and the whole day if they are equal; that day is the instant's or the one before. Without a schedule always. |
| Hours.NextChangeAfter | internal/catalog/hours.go:163-197 | Returns the least instant after t at which the schedule answers otherwise than at t, and nothing if and only if it never changes: overnight, 24-hour, disabled and malformed days included. |
| Hours.CollectCandidates | internal/catalog/hours.go:167-188 | The candidates are whole minutes and include every opening and closing of the ten days around t. |
| Hours.FlipIsCandidate | internal/catalog/hours.go:115-154 | Wherever the answer changes from one minute to the next, that minute is a candidate of its day or the day before. |
| Hours.QuietWeekIsConstant | internal/catalog/hours.go:156-162 | A week without a change is a schedule without one. |
| Hours.OpenStateAt | internal/catalog/hours.go:252-264 | Open if and only if not closed by hand and within the hours of some day, with the reason otherwise; what is shown stays right until the shown change, at which it flips; without one it stays right for ever. |
| Hours.Validate | internal/catalog/hours.go:70-93 | Accepted if and only if each weekday is there once with readable clocks; the result is Monday to Sunday, trimmed. |
| Hours.ValidationKeepsMeaning | internal/catalog/hours.go:70-93 | The validated copy is open at exactly the instants at which the trimmed input is. |
| Hours.TrimsBothEnds | internal/catalog/hours.go:80-88 | What is trimmed is space, from both ends; and no space is left there. |
| Alerts.SentAsInserted | internal/alerts/service.go:91-133 | New notifications are sent in the order of their numbers, each event once; at most the newest is not sent yet, and all are whenever nobody is in between. |
| Alerts.ResumeWithoutGap | internal/alerts/service.go:164-171 | A panel with any nonempty beginning of the stream that later asks for pages, each after its last number then, whatever is published in between, has a beginning of the stream in order and nothing twice; after enough pages all there was at first, and unless the last page was full all there is. |
| Alerts.ResumeFromNothing | internal/storage/memory_alerts.go:53-80 | Asking after 0 gives the newest page, newest first; it misses some if and only if there are more than fit on it. |
| Alerts.NextPage | internal/storage/memory_alerts.go:53-80 | A page after the first k notifications is exactly the next ones. |
| Alerts.BadgeIsRight | internal/alerts/service.go:188-225 | After any run the number the panels were last told differs from the unread ones by exactly what was stored less what was marked since without telling a number. |
| Alerts.CountingKeepsBadgeRight | internal/alerts/service.go:188-225 | In every run in which counting works the number is right whenever nothing is about to be sent. |
| Alerts.ChangeIsCounted | internal/storage/memory_alerts.go:99-150 | Storing one, marking one and marking all change the number of unread ones by exactly what they store and mark. |
| Alerts.ReadUpTo | internal/storage/memory_alerts.go:137-150 | Exactly the restaurant's notifications up to the number the panel has seen become read. |
| Alerts.RunKeepsInv | internal/alerts/service.go:73-133 | Numbering, distinct keys, exclusive locks and the stream hold after any interleaving, for any hash of restaurants to locks. |
| Alerts.MemoryAlertStore.Insert | internal/storage/memory_alerts.go:39-51 | Stores with the next number exactly if the restaurant has no notification with that key. |
| Alerts.MemoryAlertStore.ListPage | internal/storage/memory_alerts.go:53-80 | The requested page. |
| Alerts.MemoryAlertStore.UnreadCount | internal/storage/memory_alerts.go:99-109 | The number of the restaurant's unread notifications. |
| Alerts.MemoryAlertStore.MarkRead | internal/storage/memory_alerts.go:123-135 | Marks the first unread one with that id, and says whether anything changed. |
| Alerts.MemoryAlertStore.MarkAllRead | internal/storage/memory_alerts.go:137-150 | Marks all up to the number and counts exactly those it changed. |
| Alerts.MarksAreCounted | internal/storage/memory_alerts.go:137-150 | Marking lowers the unread number by exactly the reported count, which is positive if and only if something changed. |
| AlertService.Service.Publish | internal/alerts/service.go:118-132 | Stores and sends, or does neither; the whole call is a run of the protocol. |
| AlertService.Service.MarkRead | internal/alerts/service.go:188-204 | The call is one step of the protocol and answers with the number that is left. |
| AlertService.Service.MarkAllRead | internal/alerts/service.go:206-225 | The call is one step of the protocol and answers with the number of those marked and the number that is left, which add up to what was unread. |
| AlertService.PublishIsARun | internal/alerts/service.go:91-133 | Publishing leads from a reachable state to a reachable state of the interleaved protocol. |
| SpeedGate.CleanUpIsUnobservable | internal/delivery/speedgate.go:104-117 | With a clock that does not go back, no sequence of reports is answered otherwise because stale fixes are dropped. |
| SpeedGate.AcceptedMovesAreExplained | internal/delivery/speedgate.go:91-138 | Between two accepted reports in a row, 3 s to 5 min apart, the speed was possible, or a rejected report within 150 m had been made 1 to 5 min before and no rejection since was elsewhere; a rejected report was too fast. |
| SpeedGate.AcceptedExactly | internal/delivery/speedgate.go:91-138 | For any reports: one is accepted if and only if it is the courier's first accepted one, or the move from the last accepted one is possible or not judged, or the suspicion that stands by the log of reports and answers alone is one to five minutes old and within 150 m. |
| SpeedGate.NewPlaceIsBelieved | internal/delivery/speedgate.go:132-137 | A courier who keeps to a new place is believed: after a rejection that began a suspicion and only rejected reports near it since, a report near it is accepted one to five minutes after it. |
| SpeedGate.MemoryIsBounded | internal/delivery/speedgate.go:104-117 | After an accepted report at most a thousand fixes are left, or only ones that are not stale; and none that is not stale was dropped. |
| SpeedGate.SpeedGate.Accept | internal/delivery/speedgate.go:91-119 | The answer and both maps after a report, cleaning included. |
| SpeedGate.SpeedGate.IsPlausible | internal/delivery/speedgate.go:122-138 | Whether the report is believed, and what becomes the suspect fix if not. |
| SpeedGate.DropStale | internal/delivery/speedgate.go:104-117 | Exactly the fixes older than five minutes go. |
| LiveRoute.OneRequestPerOrder | internal/httpapi/order_tracking.go:341-376 | No order has two requests under way, each still owns its entry, and an entry in flight has a request that will end it. |
| LiveRoute.SweepingIsUnobservable | internal/httpapi/order_tracking.go:409-424 | A request begins if and only if the order's earlier requests allow it; that entries were swept away makes no difference. |
| LiveRoute.SweptExactly | internal/httpapi/order_tracking.go:409-418 | A sweep leaves of the entries exactly those under way, found or tried within the last hour. |
| LiveRoute.RequestsKeepTheirDistance | internal/httpapi/order_tracking.go:351-384 | A later request begins 15 s after an earlier one, 30 s after one that succeeded, and 3 min if the courier hardly moved since the latest success. |
| LiveRoute.SpendingIsBounded | internal/httpapi/order_tracking.go:341-376 | Within any span of L seconds at most L/15 + 1 requests begin for an order. |
| LiveRoute.PlannedRoutesAreSpread | internal/httpapi/order_tracking.go:388-398 | Planned routes are allowed at most once a minute. |
| LiveRoute.RunKeepsInv | internal/httpapi/order_tracking.go:341-424 | The entries recall the requests in every run of calls, results, forgetting, planning and waiting. |
| LiveRoute.LiveRouteCache.Begin | internal/httpapi/order_tracking.go:343-362 | The Call step of the protocol: sweeps, finds or makes the entry, and answers from it, makes the caller wait or starts a request; all objects are afterwards as the protocol has them. |
| LiveRoute.LiveRouteCache.Finish | internal/httpapi/order_tracking.go:364-375 | The Finish step of the protocol: a result replaces the earlier one, an error keeps it. |
| LiveRoute.LiveRouteCache.AllowPlanned | internal/httpapi/order_tracking.go:388-398 | The Plan step of the protocol: allowed exactly if the last time was a minute ago, and then remembered. |
| LiveRoute.LiveRouteCache.Forget | internal/httpapi/order_tracking.go:400-406 | The Forget step of the protocol: drops the entry exactly if no request is under way. |
| LiveRoute.LiveRouteCache.SweepEntries | internal/httpapi/order_tracking.go:409-418 | Exactly the stale entries go. |
| Polyline.PolylineRoundTrip | internal/httpapi/geoext.go:86-134 | Decoding inverts encoding if and only if all coordinates are 64-bit integers and all steps take 63 bits. |
| Polyline.TruncationKeepsCompletePoints | internal/httpapi/geoext.go:114-124 | However an encoded line is cut, exactly the points whose encodings are complete are returned. |
| Polyline.CompleteMeansFits | internal/httpapi/geoext.go:114-124 | The number of complete points is the largest whose encodings fit into the bytes. |
| Polyline.CoordinateRoundTrip | internal/httpapi/geoext.go:93-103 | One coordinate arrives if and only if it is a 64-bit integer a short step away. |
| Polyline.GlobeFits | internal/httpapi/geoext.go:103 | Any coordinates on the globe are within these bounds. |
| Polyline.DecodePolyline | internal/httpapi/geoext.go:86-107 | On any bytes, without reading past their end, the points of the reference decoder. |
| Polyline.DecodeValue | internal/httpapi/geoext.go:114-134 | The value and the bytes it takes, or failure exactly if the bytes end before the value does. |
| Promotions.AdaptedMeansNoConflict | internal/httpapi/routes_promotions.go:109-145 | Another promotion changes if and only if it is in conflict, and is in none afterwards unless it was stopped; it is stopped exactly if one of the two is for whole orders. |
| Promotions.AdaptedCovers | internal/httpapi/routes_promotions.go:116-147 | Of two targeted promotions the older covers afterwards exactly the lines it claims in a way the new one does not. |
| Promotions.TakenOverButActive | internal/httpapi/routes_promotions.go:149-159 | A promotion all of whose targets are taken stays active and covers nothing. |
| Promotions.StatusExactly | internal/promotions/promotion.go:149-160 | Active if and only if switched on, begun, and not past its end unless it has none; and each other state exactly in its case. |
| Promotions.KeepsTheOthers | internal/httpapi/routes_promotions.go:122-130 | What is kept is what is not taken. |
| Promotions.KeepOthers | internal/httpapi/routes_promotions.go:117-131 | The kept targets in their order, and whether any was taken. |
| Promotions.Adapt | internal/httpapi/routes_promotions.go:116-151 | The adapted promotion, and whether it changed. |
| Promotions.ResolveOne | internal/httpapi/routes_promotions.go:102-160 | What becomes of one other promotion and what is reported, save errors included. |
| Promotions.ResolveConflicts | internal/httpapi/routes_promotions.go:93-163 | Every row afterwards and both lists of names, for any failing saves. |
| Promotions.ReportsAreTrue | internal/httpapi/routes_promotions.go:149-159 | Reported as stopped if and only if there was a conflict and it is paused or covers nothing; not reported if and only if there was none. |
| Promotions.NobodyElseClaimsIt | internal/httpapi/routes_promotions.go:93-163 | If every save works no other promotion that is switched on, begun and not past its end claims what the new one claims, and a promotion changed if and only if it was running and in conflict. |
| Discounts.SpreadIsExact | internal/promotions/apply.go:271-309 | The parts add up to exactly the amount, or to the sum of the weights if that is less, and none exceeds its weight. |
| Discounts.RestGoesToTheHeaviest | internal/promotions/apply.go:293-307 | A line gets more than its proportional part rounded down only if all heavier lines are full. |
| Discounts.RestIsSharedExactly | internal/promotions/apply.go:293-307 | For any amount and weights, no line gets more than one of the lost tiyins if and only if, for every line with room for two, they are at most one more than the lines before it with room for just one. |
| Discounts.RestIsNotShared | internal/promotions/apply.go:262-269 | Over equal lines the lost tiyins are shared if and only if there is just one of them or every line is one tiyin short of full; else the first line takes more than one. |
| Discounts.RestFits | internal/promotions/apply.go:285-293 | Rounding loses less than one tiyin for each line of positive weight. |
| Discounts.SpreadFitsInt64 | internal/promotions/apply.go:290 | No product overflows 64 bits for any amount and any weights of a sum if and only if the sum is at most 3 037 000 499. |
| Discounts.Spread | internal/promotions/apply.go:271-309 | The loops compute the specified parts. |
| Cart.TotalsAddUp | internal/promotions/apply.go:28-44 | Line discounts add up to the cart's, contributions to the promotions' part; each is from a promotion that applies to the cart, and at most its maximum; the largest is first. |
| Cart.EligibleExactly | internal/promotions/apply.go:195-209 | A promotion applies exactly while it runs, if it is not for the delivery, the cart is as dear as it asks for and a loyal customer has ordered as often. |
| Cart.SharesAddUp | internal/promotions/apply.go:255-263 | The shares of a promotion on a sum add up to its value in hundredths of what the lines cost that it is about, rounded down, or to its amount; at most the whole, and nothing if negative. |
| Cart.SharesByPiece | internal/promotions/apply.go:330-409 | An amount off is taken off each piece, up to its price; of one free in two every second piece is free; an incomplete bundle and a free delivery take nothing off. |
| Cart.CompleteExactly | internal/promotions/apply.go:330-409 | A bundle is complete if and only if everything it names is in the cart. |
| Cart.LinesAreFair | internal/promotions/apply.go:55-82 | A line gets at least its own discount and at most that or its price; anything more is from one promotion that applies and is about it, and at most its share. |
| Cart.WithoutLimitsTheBest | internal/promotions/apply.go:113-127 | Without maxima every line gets at least the share of every promotion that applies and gives anything. |
| Cart.UncappedKeepAll | internal/promotions/apply.go:129-168 | A promotion within its maximum keeps all it won, whatever happens to the others. |
| Cart.CapHolds | internal/promotions/apply.go:129-168 | After capping, a promotion's winnings are at most its maximum, and later caps do not change that. |
| Cart.CapIsUsedUp | internal/promotions/apply.go:129-168 | A promotion over its maximum gives exactly that, if it loses no line to the line's own discount. |
| Cart.ShareWithinSubtotal | internal/promotions/apply.go:330-409 | A promotion's share of a line is at most its price, and nothing on lines it is not about. |
| Cart.Apply | internal/promotions/apply.go:83-192 | The loops compute the specified total. |
| Cart.ShareOut | internal/promotions/apply.go:330-409 | The shares of the lines for every kind of promotion. |
| BookText.NormalIsFixed | internal/books/pdf.go:165-206 | Normalizing leaves a valid text alone if and only if it is normal, and normalizing twice is normalizing once, whatever bytes there were at first. |
| BookText.NormalizedIsNormal | internal/books/pdf.go:165-206 | The result has no control characters but line ends and tabs, no two empty lines and no two spaces in a row. |
| BookText.Squeeze | internal/books/pdf.go:198-204 | Replacing until nothing is left to replace ends, and comes to one pass that keeps at most m in a row. |
| BookText.ShortMeansNotContained | internal/books/pdf.go:198-204 | A text has no run of more than m if and only if it does not contain one of m + 1. |
| BookText.Normalize | internal/books/pdf.go:165-206 | The steps compute the specified text, on characters and invalid bytes alike. |
| BookText.OnePassIsEnough | internal/books/pdf.go:165-192 | The three replacements and the map come to one pass that looks one character ahead: a line end for CR LF, CR and LF, an apostrophe for 0x19, no other control characters but tabs, and all else kept in order. |
| BookText.InvalidBytesAreKept | internal/books/pdf.go:185-196 | The result has as many replacement characters as the text had invalid bytes and replacement characters: none is removed. |
| BookText.TruncateAtRune | internal/books/pdf.go:214-222 | Of any bytes that are too long, the part up to the last place within the limit at which a character starts, or nothing; all if they fit. |
| BookText.KeepsWholeCharacters | internal/books/pdf.go:208-222 | Of a text exactly the first characters that fit into the limit, never part of one. |

## Left out

- HTTP handlers, authentication, JSON, WebSocket, push, Postgres, Mongo and Redis: reached through arguments and contracts only (atomic claim, idempotent create, unique keys, increasing numbers).
- `internal/httpapi/dispatch_watchdog.go`: it rests on predicates of orders that are not part of this model.
- The conditions under which a search is aborted from outside (order cancelled, candidate query failed): one event, `Abort`, at any place where the code checks them.
- ClaimIfAvailable failing after it wrote: a claim error changes nothing in the model.
- The end of a delivery: a courier is available again by an event of his own, whoever makes it.
- Ranking: reals stand for floating point, so rounding of scores and ties by rounding are not covered; the key is a multiset of parts instead of one joined string.
- Drafts: a link to the customer, addresses, payment and items of a draft; only totals, limits and states are kept. Grants are read as they are at the step, not as loaded by the middleware. Creating an order either works or makes none. The lock is that of one process.
- Links: Approve, Poll and the other requests are one step each; the code takes no lock there, and interleavings of their store calls are not covered.
- Alerts: filters other than the sequence number, retention deletes, and checking and shortening of texts.
- LiveRoute: assumes that a clock reading is used within 57 minutes of being taken; the order's result itself is a number.
- Polyline: dividing by 1e5.
- BookText.Normalize: works on what Go's range sees of a string, so decoding UTF-8 itself is not modelled; trimming and hasProse are left out.
- Discounts, Cart: amounts are unbounded; Discounts.SpreadFitsInt64 gives the bound for the products of Spread.
- Promotions: a promotion that the repository hands out is a copy, so a failed save leaves the stored one as it was.
- Sorting: Go's sort.Slice is not stable; where the source uses it, no two elements compare equal or only the order of the keys is used.
