# The credit economy and routing plane of AHP, in Dafny

This project models how AHP moves credit between wallets while agents call each
other, how it prices and routes a call, and the text formats (addresses,
patterns, provisioning specifications, cache keys) that name the parties. It
proves what the repository promises about that behaviour, for all inputs and all
runs; where a promise fails of the code, it states exactly when the code does
keep it.

`dafny verify dfyconfig.toml` checks the whole project.

## How it is organised

| files | what they model |
|---|---|
| `wallet.dfy`, `cas.dfy`, `wallet_store.dfy`, `registry.dfy` | one wallet as a hold/release/refund/credit machine; the WATCH / read / MULTI / EXEC protocol as interleaved client steps over a versioned key; its two users |
| `pricing.dfy`, `reputation.dfy` | the settlement formula and the hold estimate; reputation, survey score and visibility |
| `ledger.dfy`, `broker.dfy`, `dispatch.dfy`, `send_get.dfy`, `cast_get.dfy`, `admission.dfy`, `leaf_billing.dfy`, `payments.dfy`, `records.dfy`, `engine.dfy` | all wallets together, one settlement, and whole brokered dispatches: who is reached, at which leaf they are billed, who is paid, what is recorded |
| `solvency.dfy`, `solvency_cast.dfy`, `interference.dfy`, `interference_send.dfy` | which terms keep credit conserved and every answer settled; both dispatches among other parties and failing infrastructure |
| `examples.dfy` | one call from end to end, in numbers |
| `agent_banker.dfy`, `surveys.dfy` | the two other movers of money |
| `text.dfy`, `glob.dfy`, `compute_provider.dfy`, `router.dfy` | strings and sorting, the glob compiler, leaf ranking, the routing decision |
| `percent.dfy`, `address.dfy`, `message.dfy`, `cache.dfy`, `provisioning.dfy` | percent-encoding, canonical addresses, patterns and messages, the cache, bulk-spawn specifications |

Each operation that the program performs by updating state is a method of a
class with those fields; its postcondition equates the new state with a function
of the old one, and the theorems are lemmas about those functions; what each
function means is stated without it, in numbers and fields. Redis is a
finite map; what the bus, the clock and the random generator answer are inputs,
unconstrained unless a row says otherwise. Money, rates and times are `real`.
A wallet that was never written holds 100 credits. Of the decimal logarithm only
`log10(1) = 0` and strict monotonicity are used, and SHA-256 is taken as
injective.

## Where the code departs from its documentation

- *"Balance never goes negative"* (`ahp/economy/wallet.py`): a release may exceed
  its hold by `1e-9`. `Wallets.OverdraftExactly` says when that overdraws,
  `Wallets.OverdraftExample` is one, `Wallets.RunAccounts` bounds it over any run.
- *"Conservative dispatch-time hold"* (`ahp/economy/pricing.py`): the hold uses the
  small tier and neutral multipliers, the bill does not. `Pricing.HoldFallsShort`
  is a bill above its hold, `Pricing.HoldCoversExactly` says when there is none, and
  `Solvency.SettlesExactly` when every answer is settled. Otherwise the settlement
  is refused, and then `Broker.UncoveredIsRefunded` applies.
- Credit is conserved only while every settled server can afford its leaf: a
  negative server share is skipped while the other shares are paid.
  `Solvency.SendGetConservesExactly` and `BroadcastSolvency.CastGetConservesExactly`
  are the condition on the terms, known before anything is sent;
  `Solvency.FreeServerIssuesCredit` is a call that issues a tenth
  of a credit. `CastGets.CastGetConserves` and `SendGets.SendGetConserves` give the
  amount for any run.
- *"Targets that don't respond by timeout have their hold refunded"*
  (`ahp/engine/router.py`): not when the hold loop of the broadcast raises after its
  retries, or when a refund raises; those holds stay open.
  `Interference.CastGetAmidIsExact` says which, and
  `InterferenceSend.SendGetAmidIsExact` says when the hold of a single request does.
- Draining an agent that still has open holds duplicates its balance
  (`AgentBankers.DrainConservesExactly`, `AgentBankers.DrainDuplicates`).
- *"Mirror of funding"* (`ahp/economy/agent_banker.py`, of a session's refund): an
  empty host name counts as absent only when funding, so such a session is funded by
  the commons and refunded to the wallet with the empty name.
  `AgentBankers.RefundMirrorsFundingExactly` is the exact condition,
  `AgentBankers.SessionMirrorFails` and `AgentBankers.EmptyHostStrandsFund` are the
  failing cases and what they do to the money.
- When servers share an organisation, SEND-GET bills the first one listed and
  CAST-GET the last (`SendGets.SameServerExactly`, `SendGets.TwoServersExample`).
- Model names may contain dots, but a binding pattern has exactly three fields
  (`ComputeProvider.ReachableExactly`, `ComputeProvider.VersionedModelUnreachable`).
- Address validation forbids blanks, tabs and line feeds but not the other white
  space that `strip` removes, so some valid addresses do not survive printing and
  parsing (`Addresses.ParseOfPrint`, `Addresses.RoundTripFails`). The codec is section
  2.1 of RFC 3986 with the unreserved set of its section 2.3; `+` is read as a blank.
- `N-*` with `N = 1` prints as `*` (`Provisioning.PrintedSpecParsesBack`,
  `Provisioning.LostDashExample`), the specification parser accepts fixed tokens that
  the address constructor refuses (`Provisioning.MaterializesExactly`,
  `Provisioning.AcceptedButRefused`), and the fresh addresses that fill up a
  registry-aware materialization may repeat a reused one
  (`Provisioning.AsyncDistinctExactly`, `Provisioning.ReuseRepeatsExample`).
- A survey id whose request expired can be enqueued, and then sent, again
  (`Surveys.EnqueueIsSafeExactly`, `Surveys.ReusedIdIsSentTwice`,
  `Surveys.ReusedIdExample`).
- A sweep of due surveys looks at a bounded page that sent but unanswered surveys
  can fill for as long as they live (`Surveys.IdleExactlyWhenClogged`,
  `Surveys.CloggedExample`).

## Model

| member | source | states |
|---|---|---|
| Wallets.RunAccounts | ahp/economy/wallet.py:110-189 | over any sequence of calls, accepted or refused: held total is the sum of the open holds, holds are non-negative, balance is initial plus recorded credits minus debits, available is at least -1e-9 per release |
| Wallets.HoldsOpenAndClose | ahp/economy/wallet.py:110-189 | a hold id is closed exactly as often as it is opened, up to whether it is open before and after |
| Wallets.HistoryReplays | ahp/economy/wallet.py:104-189 | replaying only the recorded operations rebuilds the wallet: refused and repeated calls change nothing |
| Wallets.RefundUndoesHold | ahp/economy/wallet.py:181-189 | refunding a fresh hold restores the wallet exactly |
| Wallets.HoldDecided | ahp/economy/wallet.py:110-139 | in any sound wallet a new hold is granted exactly when it is not negative and the balance covers it on top of all the open holds |
| Wallets.RetryDecided | ahp/economy/wallet.py:110-139 | a hold under a name in use is a retry without effect if the amounts agree to 1e-9, even when the wallet could not cover it, and otherwise a conflict |
| Wallets.ReleaseDecided | ahp/economy/wallet.py:142-169 | a release is granted exactly for a known hold and a debit between zero and the hold plus 1e-9; what is then available grows by the hold less the debit |
| Wallets.OverdraftExactly | ahp/economy/wallet.py:142-169 | an accepted release can overdraw some sound wallet exactly when its debit exceeds the hold |
| Wallets.OverdraftExample | ahp/economy/wallet.py:142-169 | a concrete wallet left below zero by an accepted release |
| Wallets.WithinHoldsNeverNegative | ahp/economy/wallet.py:142-169 | a run that never debits above the hold never makes balance or available negative |
| Wallets.WalletState.ApplyHold | ahp/economy/wallet.py:110-139 | in place: refused without effect, repeated without effect, or the hold is added and the held total raised |
| Wallets.WalletState.ApplyRelease | ahp/economy/wallet.py:142-169 | in place: the hold is removed and the debit taken from the balance, or refused without effect |
| Wallets.WalletState.ApplyCredit | ahp/economy/wallet.py:172-178 | in place: the balance grows by a non-negative amount |
| Wallets.WalletState.ApplyRefund | ahp/economy/wallet.py:181-189 | in place: the hold disappears, the balance stays; an unknown hold is refused without effect |
| Cas.EveryInterleavingLinearizes | ahp/economy/wallet.py:224-301 | for any interleaving of any clients' WATCH, read, EXEC steps with bounded retries, and of plain commands that write at once: the stored value is the commit log played on the sequential object, every log entry is the commit of exactly one returned call, every reply is the sequential one at its place in the log |
| Cas.UninterruptedAttemptDecides | ahp/economy/wallet.py:224-301 | an attempt nobody interrupts returns or is refused as the sequential object would have it |
| WalletStore.ConcurrentWalletAccounts | ahp/economy/wallet.py:224-301 | concurrent wallet clients: no update is lost, each call commits at most once, the balance is the initial one plus all committed credits minus debits |
| WalletStore.TransactionIsAtomic | ahp/economy/wallet.py:224-301 | the retry loop of one call is one atomic operation among its rivals'; giving up takes a rival write per attempt and changes nothing |
| WalletStore.WalletKey.Transact | ahp/economy/wallet.py:241-301 | the loop itself computes that atomic transaction on the versioned key |
| Registry.ConcurrentUpdates | ahp/registry/registry.py:104-287 | however concurrent reputation updates, registrations and removals interleave, an agent's record is exactly its own committed operations replayed in commit order, each once; its score stays within [0,1] unless registered outside; "not registered" is told only when it was so at some moment of the call |
| Reputation.RunKeepsSound | ahp/economy/reputation.py:121-197 | scores stay in [0,1], accepted is at most completed, every outcome is counted once and under its own kind, every survey answer once |
| Reputation.RunIsMonotoneAndNonExpansive | ahp/economy/reputation.py:121-159 | the same history never reverses two actors' order and never widens their distance |
| Reputation.FailuresDelist | ahp/economy/reputation.py:121-218 | failures cost their full price; they take an actor off the routing table exactly when they exceed its margin over the floor |
| Reputation.SuccessesReward | ahp/economy/reputation.py:121-159 | accepted calls earn their full reward up to the maximum |
| Reputation.CsatIsAnAverage | ahp/economy/reputation.py:172-197 | from the first answer on, the survey score lies between the lowest and the highest answer, over any mixture of events |
| Reputation.CsatMovesToAnswer | ahp/economy/reputation.py:172-197 | the first answer replaces the default, each further one closes a tenth of the gap |
| Reputation.VisibilityRange | ahp/economy/reputation.py:200-218 | visibility is 0 below the floor and within [0.05, 1] otherwise |
| Reputation.VisibilityGrows | ahp/economy/reputation.py:200-218 | more accepted calls never cost visibility |
| Reputation.VisibilityCurve | ahp/economy/reputation.py:200-218 | a twentieth for a newcomer, all from the five hundredth accepted call on, and in between in proportion to the logarithm |
| Reputation.VisibilityGrowsStrictly | ahp/economy/reputation.py:200-218 | below five hundred every accepted call makes an actor strictly more visible |
| Pricing.SharesSumToPreTax | ahp/economy/pricing.py:226-284 | the four shares sum exactly to the bill |
| Pricing.SharesByHundred | ahp/economy/pricing.py:226-284 | of each hundred billed three go to the broker and two to the commons; the leaf gets its rate for every thousand characters charged; the server the rest |
| Pricing.NeutralBill | ahp/economy/pricing.py:226-284 | a neutral small-tier answer costs twice the base rate for each character |
| Pricing.BillByOverage | ahp/economy/pricing.py:287-294 | against the same call of a server that keeps to its budget: 1.1 times at an average overage of 0.9 or less, half at 1.5 or more, (2 - overage) times in between |
| Pricing.RamblingNeverPays | ahp/economy/pricing.py:287-294 | more overage never raises a bill |
| Pricing.BillByReputation | ahp/economy/pricing.py:244-256 | against the same call of an unknown server: (0.5 + reputation) times, from half at 0 to one and a half at 1 and beyond |
| Pricing.BillByPace | ahp/economy/pricing.py:297-308 | under 60, 180, 450 or 1200 ms by tier half is paid, for a lesser tier than asked half, for both a quarter |
| Pricing.BillByTier | ahp/economy/pricing.py:226-284 | each tier costs twice the one below |
| Pricing.BillByHistory | ahp/economy/pricing.py:246-248 | a returning caller pays a twentieth more for each power of ten of earlier calls |
| Pricing.BillByLength | ahp/economy/pricing.py:238-241 | characters are charged one by one up to the budget, at the server's rate, and silence is free |
| Pricing.HoldIsNeutralBill | ahp/economy/pricing.py:201-223 | the hold is the neutral bill of prompt and budget together, in proportion to the tier |
| Pricing.ServerShareNonNegative | ahp/economy/pricing.py:226-284 | the server's residual is non-negative exactly when its taxed unit price covers the leaf's, or nothing was said |
| Pricing.DebitWithinBound | ahp/economy/pricing.py:201-308 | every engine settlement debits at most 1.65 times the tier ratio times the hold |
| Pricing.HoldCoversExactly | ahp/economy/pricing.py:201-308 | the hold covers every possible response exactly when the stated condition on the terms holds; the multipliers in it are those that BillByReputation and BillByOverage put a price on |
| Pricing.NeutralSmallTierIsCovered | ahp/economy/pricing.py:201-308 | small tier, reputation at most 0.5, average overage at least 1: always covered |
| Pricing.HoldFallsShort | ahp/economy/pricing.py:201-308 | a concrete call whose bill exceeds its hold |
| Pricing.AvgOverageIsAverage | ahp/economy/pricing.py:314-328 | the rolling overage lies between old value and sample and closes a fixed share of the gap |
| Ledger.OpensMatchClosings | ahp/economy/wallet.py:104-189 | in any book explained by its history, openings and closings of a hold differ only by whether it is open |
| Ledger.PostAllMovesSupply | ahp/economy/wallet.py:224-301 | a sequence of accepted operations moves the total over any owner set by its net amount, however owners coincide |
| Ledger.TransferIsAtomic | ahp/economy/agent_banker.py:124-150 | hold, settle, credit is all or nothing: it moves exactly the amount or leaves the book unchanged, and keeps no hold |
| Ledger.Bank.Transact | ahp/economy/wallet.py:215-301 | load, apply, write back equals one posting on the book of all wallets |
| Broker.CompleteSettlementNet | ahp/broker/broker.py:299-351 | a complete settlement nets to minus the negative part of the server share |
| Broker.SettleOrRefundEffect | ahp/broker/broker.py:299-363 | one response, whatever fails: the hold is closed, all other holds stay, the supply moves by the receipt's issue |
| Broker.UncoveredIsRefunded | ahp/broker/broker.py:439-463 | a bill above the hold changes no balance and gives the caller the whole hold back |
| Broker.BrokerFacade.Settle | ahp/broker/broker.py:299-351 | release, then up to four credits in order, stopping where the infrastructure fails, equals the corresponding postings |
| Broker.BrokerFacade.CalculateAndSettle | ahp/broker/broker.py:409-527 | in place: bill, settle, then record the outcome, including every point where it may fail; what it pays and records is stated by SettlementPays and SettlementRecords |
| Broker.BrokerFacade.RecordOutcome | ahp/broker/broker.py:381-407 | in place: whatever the outcome of a call, the record of its server becomes the one whose whole-history promises RecordsStaySound states, and no other record changes |
| Broker.RecordsStaySound | ahp/broker/broker.py:381-407 | over any sequence of calls of any outcome, a record stays in its ranges and counts each call once, its survey score is untouched, and its rolling overage stays within the range of its start and the ratios of the calls that had a budget |
| Broker.SettlementRecords | ahp/broker/broker.py:409-527 | a settlement that is covered and undisturbed, and no other, adds one accepted call to its server's record: both counts, 0.005 of reputation up to 1, a latency above zero, a twentieth of the way to this answer's ratio; no other record changes |
| Records.CastGetRecords | ahp/engine/router.py:351-529 | after a broadcast each server's counts of completed and accepted calls have grown by exactly its covered and undisturbed settlements, its failures and survey score are as before, and without any its record is untouched |
| Records.SendGetRecords | ahp/engine/router.py:193-323 | the same for a single request |
| Dispatch.EngineBillBound | ahp/engine/router.py:351-529 | every bill of a broadcast is within 1.65 times the tier ratio of that target's hold |
| Dispatch.CoveredResponsesSettle | ahp/engine/router.py:473-515 | in particular, a response priced under the covering condition is settled whatever its length and latency |
| Solvency.SettlesExactly | ahp/broker/broker.py:409-527 | for any charge, every answer is settled, not refunded, exactly when the price of a full and unhurried answer is within the hold and the 1e-9 a release allows |
| Solvency.HarmlessExactly | ahp/economy/pricing.py:226-284 | no length and latency of an answer makes a settled server share negative exactly when the call allows no answer, half the price of a character pays for the leaf, or even that half price is above the hold |
| Solvency.SettlementConservesExactly | ahp/broker/broker.py:299-351 | once a call is held for, its settlement conserves credit for every fault-free answer exactly under that condition |
| CastGets.CastGetIsSafe | ahp/engine/router.py:351-529 | for every target list, response list (duplicates, strangers, truncated), failing settlements and a raising dispatch: no hold leaks, each hold placed is opened once and closed once, no other hold is touched |
| CastGets.CastGetConserves | ahp/engine/router.py:351-529 | without infrastructure faults total credit is unchanged exactly when no settled server share is negative, and otherwise grows by exactly those shares, with owners coinciding in any way |
| BroadcastSolvency.CastGetConservesExactly | ahp/engine/router.py:351-529 | a broadcast whose held targets have a server each conserves credit under every fault-free delivery exactly when the terms of each held target, known after the hold loop, are solvent |
| BroadcastSolvency.InsolventIssues | ahp/engine/router.py:351-529 | whether or not targets share servers, a held target with insolvent terms can issue credit, by one character said too fast |
| Interference.CastGetAmidIsExact | ahp/engine/router.py:351-529 | with arbitrary wallet operations of others, on the caller's wallet too, and changing reputations between any two steps, with a hold loop that may raise and refunds that may be lost: exactly the stated holds stay open, every other one placed is opened once and closed once, and the supply moves by what the settlements issue and what others add |
| Interference.CastGetAmidIsSafe | ahp/engine/router.py:351-529 | without such failures no hold is left, whatever the others do |
| Interference.QuietIsCastGet | ahp/engine/router.py:351-529 | with nobody else about and nothing failing, the interleaved broadcast is the broadcast of the other rows: same book, holds and receipts |
| InterferenceSend.SendGetAmidIsExact | ahp/engine/router.py:193-323 | a single request with arbitrary operations of others before its hold and during the flight, a hold that may raise and a refund that may be lost: its hold is opened once if placed, closed once unless it is left open, which is exactly when its refund is lost and no settlement released it; the supply moves by what the settlement issues and what others add |
| InterferenceSend.QuietIsSendGet | ahp/engine/router.py:193-323 | with nobody else about and nothing failing, that is the request of the other rows |
| SendGets.SendGetIsSafe | ahp/engine/router.py:193-323 | the same safety for a single brokered request |
| SendGets.SendGetConserves | ahp/engine/router.py:193-323 | the same conservation for a single brokered request |
| SendGets.SameServerExactly | ahp/engine/router.py:225-228 | the server a request bills is the one a broadcast (lines 394-405) bills exactly when the organisation has none or its first and last listed servers are the same |
| SendGets.TwoServersExample | ahp/engine/router.py:225-228 | two servers of one organisation: the same target costs 4 credits to ask and 8 to broadcast to |
| Solvency.SendGetConservesExactly | ahp/engine/router.py:193-323 | a held request conserves credit under every fault-free answer exactly when its terms are solvent |
| Solvency.FreeServerIssuesCredit | ahp/engine/router.py:193-323 | a concrete request from an empty book after which there is a tenth of a credit more |
| Payments.SettlementPays | ahp/broker/broker.py:299-351 | one settlement attempt changes every owner's balance by exactly its part: the caller pays the bill, server, provider, broker and commons receive their positive shares, whatever roles coincide; an uncovered one changes none |
| Payments.CastGetPays | ahp/engine/router.py:351-529 | over a whole broadcast every owner's balance changes by exactly the sum of its parts in the covered settlements |
| Payments.SendGetPays | ahp/engine/router.py:193-323 | the same for a single request |
| Payments.CastGetBills | ahp/engine/router.py:473-499 | a broadcast bills exactly the held targets among the responders, each once and at its own server, however often it answers |
| LeafBilling.HeldLeavesAreRight | ahp/engine/router.py:394-449 | when no two servers share an id, every target held for is bound to a leaf that is healthy, that its server's binding reaches and that no such leaf outranks under the server's own ranking; to none exactly when there is none |
| LeafBilling.CastGetBillsRightLeaf | ahp/engine/router.py:473-499 | each settlement of a broadcast is for the first answer of a held target, priced at the tier of that leaf, with its rate as the compute share and its provider as the one credited |
| LeafBilling.SendGetBillsRightLeaf | ahp/engine/router.py:230-311 | the same for a single request, at the record its server has when it is sent |
| Admission.ReachesWhoCanBePaid | ahp/engine/router.py:394-449 | a broadcast goes, in the order given, to exactly the targets nobody bills for and those held for; what is reserved is the sum of their prices, and a target left out could not be paid even at the end |
| Admission.CastGetAnswers | ahp/engine/router.py:351-529 | the caller gets the responses, nothing if nobody was reached, or the exception of the bus |
| Admission.SendGetAnswers | ahp/engine/router.py:193-323 | without a server a request is free; with one it is sent exactly when the caller can pay the estimate |
| Examples.SendGetInNumbers | ahp/engine/router.py:193-323 | one request from fresh wallets: what is left in every wallet and on record, with a dearer leaf first on the menu that is down |
| Examples.CastGetInNumbers | ahp/engine/router.py:351-529 | a broadcast to one target comes to the same |
| Engine.ProtocolEngine.BrokerCastGet | ahp/engine/router.py:351-529 | in place: the three loops, holds, settlements and refund sweep, compute the broadcast function, which the rows on CastGets, Admission, LeafBilling, Payments and Records pin down |
| Engine.ProtocolEngine.BrokerSendGet | ahp/engine/router.py:193-323 | the method computes the request function on every exit |
| Engine.ProtocolEngine.PlaceHolds | ahp/engine/router.py:394-449 | in place: the hold loop; who is held for and at which leaf is stated by ReachesWhoCanBePaid and HeldLeavesAreRight |
| Engine.ProtocolEngine.SettleResponses | ahp/engine/router.py:473-515 | the response loop: one settlement per responder, strangers ignored, failures refunded |
| AgentBankers.FundingIsAtomic | ahp/economy/agent_banker.py:103-150 | funding moves exactly its amount from the funder to the agent and leaves no hold, or changes nothing |
| AgentBankers.FundingDecided | ahp/economy/agent_banker.py:103-150 | it is granted exactly when the funder can pay and has no hold of another amount under the same name |
| AgentBankers.FundingTerms | ahp/economy/agent_banker.py:43-62 | sessions with a named host are paid by it, all others by the commons: 5, 15, 1 and 3 credits by lifecycle unless another amount is asked for |
| AgentBankers.DrainConservesExactly | ahp/economy/agent_banker.py:152-193 | draining conserves credit exactly when its hold can succeed; otherwise the whole residual is duplicated |
| AgentBankers.DrainDuplicates | ahp/economy/agent_banker.py:152-193 | a concrete book in which a drain creates 100 credits |
| AgentBankers.CleanDrain | ahp/economy/agent_banker.py:152-193 | an agent without open holds ends at zero, the destination gets the full residual, nobody else is touched |
| AgentBankers.BankingConserves | ahp/economy/agent_banker.py:103-193 | over any sequence of fundings and drains the supply changes by the duplicated residuals and nothing else |
| AgentBankers.LongtermStays | ahp/economy/agent_banker.py:65-84 | over any sequence of drains, its own included, a long-term agent's wallet keeps its holds and loses nothing: it gains exactly the residuals that other agents' drains send there |
| AgentBankers.RefundMirrorsFundingExactly | ahp/economy/agent_banker.py:51-84 | the refund goes where the funding came from exactly for one-shot agents, sessions with a named host, and stale-ok agents hosted by the commons |
| AgentBankers.SessionMirrorFails | ahp/economy/agent_banker.py:51-84 | sessions with an empty or absent host name: funded by the commons, refunded to the empty name or to nobody |
| AgentBankers.EmptyHostStrandsFund | ahp/economy/agent_banker.py:103-193 | funding and draining such a session takes 5 credits from the commons and leaves them, with all the agent had, in the wallet with the empty name |
| AgentBankers.AgentBanker.FundAgent | ahp/economy/agent_banker.py:103-150 | the wallet calls, in order, compute the funding function |
| AgentBankers.AgentBanker.DrainAgent | ahp/economy/agent_banker.py:152-193 | the wallet calls, destination first, compute the draining function |
| Surveys.SurveysAreSafe | ahp/broker/surveys.py:230-580 | any legal run from an empty queue: queued surveys have requests and no answers, fired ones are queued, none is dispatched twice, the commons opens and closes a reward hold at most once and only for an answer. Legal is only that listings are pages of the queue, that what others post leaves reward holds alone, and that a new request meets the condition that EnqueueIsSafeExactly proves necessary |
| Surveys.EnqueueIsSafeExactly | ahp/broker/surveys.py:230-268 | from any sound store a new request leaves every otherwise legal continuation safe exactly when its id is unanswered and, if that id was ever sent, this request can never be delivered; for a deliverable request: never sent and never answered |
| Surveys.RewardedAtMostOnce | ahp/broker/surveys.py:446-566 | over any run at all, reused ids and answers before questions included, an id is rewarded at most once and only for an answer |
| Surveys.SubmitPaysExactly | ahp/broker/surveys.py:446-566 | a first answer that reaches the broker, to a stored request with a reward the commons can pay, moves exactly that reward from the commons to the one who was asked; any other submission changes no wallet |
| Surveys.SubmitScoresExactly | ahp/broker/surveys.py:446-566 | it is folded into the survey score of the server the request is about, the first as it is, later ones by a tenth of the difference, and into no other record; any other submission changes no record |
| Surveys.RewardedWhenEarned | ahp/broker/surveys.py:446-566 | over any run an id is rewarded exactly as often as an answer to it earned its reward, and that is once or never |
| Surveys.ReusedIdIsSentTwice | ahp/broker/surveys.py:324-442 | in a run whose listings and due sweeps see the queue as it is, an id enqueued again after its request expired is sent twice |
| Surveys.ReusedIdExample | ahp/broker/surveys.py:324-442 | a concrete such run: sent at 0, expired at 2, due again at 1 under the same id, sent again |
| Surveys.SurveysConserve | ahp/broker/surveys.py:446-566 | over any run at all surveys only move credit: the supply changes by other parties' operations alone |
| Surveys.PayoutIsExact | ahp/broker/surveys.py:504-556 | a payout moves exactly the reward from commons to actor, or nothing, and the latter exactly when the commons cannot afford it |
| Surveys.FireSends | ahp/broker/surveys.py:324-442 | a dispatch sends the first waiting surveys of its page that can be delivered: live, queued, never sent, not answered |
| Surveys.FireMeans | ahp/broker/surveys.py:324-442 | what is sent are, of the first so many waiting surveys, those whose actor has an address and whose message gets through |
| Surveys.WaitingMeans | ahp/broker/surveys.py:359-386 | waiting are the stored requests of the page that expire later and are not marked as sent, in the order of the page |
| Surveys.TidyMeans | ahp/broker/surveys.py:278-386 | a walk drops exactly the expired requests of its page with their marks, and the entries without a request |
| Surveys.IdleExactlyWhenClogged | ahp/broker/surveys.py:359-386 | with surveys waiting, a sweep finds none exactly when its page is full of sent or expired ones |
| Surveys.CloggedExample | ahp/broker/surveys.py:359-386 | two sent surveys keep a third from being dispatched |
| Surveys.ListingIsFilter | ahp/broker/surveys.py:278-320 | a listing is exactly the live page entries that pass the actor filter |
| Surveys.ListingMeans | ahp/broker/surveys.py:278-320 | a listing shows the stored requests of its page that expire later and are for the actor asked about, in the order of the page |
| Surveys.SurveyQueue.ListPending | ahp/broker/surveys.py:278-320 | the loop tidies the page and returns that listing |
| Surveys.SurveyQueue.FireDueSurveys | ahp/broker/surveys.py:324-442 | both loops, dry run and invalid source address included, compute the dispatch function |
| Surveys.SurveyQueue.EnqueueRequest | ahp/broker/surveys.py:230-268 | first enqueue wins, repeats change nothing |
| Surveys.SurveyQueue.SubmitResponse | ahp/broker/surveys.py:446-566 | in place: first answer wins, leaves the queue and the fired set; who is paid and scored is stated by SubmitPaysExactly and SubmitScoresExactly |
| Glob.CompiledBodyParses | ahp/economy/compute_provider.py:125-133 | escaping a glob and replacing the escaped stars always yields a regular expression of literals and `.*`, item for item the glob |
| Glob.AcceptsIsGlobsLine | ahp/economy/compute_provider.py:125-133 | that expression accepts exactly the glob's language, up to one final line feed |
| Glob.PatternMatchesIsGlob | ahp/economy/compute_provider.py:114-133 | a pattern matches exactly when both sides have three fields and each field globs |
| ComputeProvider.ReachableExactly | ahp/economy/compute_provider.py:97-133 | some binding reaches a leaf exactly when its model name has no dot |
| ComputeProvider.VersionedModelUnreachable | ahp/economy/compute_provider.py:97-133 | no binding reaches a valid leaf whose model is `opus-4.7` |
| ComputeProvider.ScoreRange | ahp/economy/compute_provider.py:146-212 | leaf scores lie in [0,1] |
| ComputeProvider.GradeIsProportional | ahp/economy/compute_provider.py:146-168 | on each signal a leaf is graded from 0 at the worst to 1 at the best, in proportion, and everybody gets 1 when they differ by less than 1e-12 |
| ComputeProvider.ScoreInHundredths | ahp/economy/compute_provider.py:31-42 | what each strategy weighs the four grades with |
| ComputeProvider.PreferredSignalDecides | ahp/economy/compute_provider.py:170-212 | under each strategy the leaf that is best on its signal beats the one that is worst on it, whatever the other three say |
| ComputeProvider.DominanceRespected | ahp/economy/compute_provider.py:146-212 | a leaf at least as good on every signal never scores below the other |
| ComputeProvider.BestLeafIsBest | ahp/economy/compute_provider.py:170-227 | the winner is healthy, reached by the pattern and outranked by no such leaf; there is one as soon as a leaf qualifies |
| ComputeProvider.BestLeafIgnoresOrder | ahp/economy/compute_provider.py:170-227 | the choice depends only on which leaves are on the menu |
| Routing.SuccessIsSound | ahp/broker/router.py:158-282 | a successful decision meets every hard requirement, is the best survivor under the requested strategy with ties by name, names a healthy bound leaf and an affordable hold, and reports exactly the preferences the winner misses |
| Routing.FailsExactly | ahp/broker/router.py:158-282 | routing fails exactly when nobody meets the requirements, the winner has no live leaf, or the hold is over the limit |
| Routing.FailureIsExplained | ahp/broker/router.py:158-282 | the caller reads nothing unmet after a success, otherwise the requirements it made if nobody met them, the binding that reached no leaf, or the hold that was too dear |
| Routing.RejectionsAreExplained | ahp/broker/router.py:201-226 | the rejections are exactly the candidates that were turned away, each with its reason, and those that were not seen |
| Routing.RejectedBecause | ahp/broker/router.py:286-316 | the reason given is the first that applies, in the order blocked, reputation, survey score, specialty, integration |
| Routing.WishesFulfilledOrReported | ahp/broker/router.py:318-350 | exactly the wishes the chosen server does not fulfil are reported |
| Routing.SuccessNamesBestLeaf | ahp/broker/router.py:241-262 | the leaf named is the best of those the winner's binding reaches under the ranking the caller asked for, all providers counting as equally reputed |
| Routing.NarrowHonoursOrReports | ahp/broker/router.py:318-350 | narrowing never empties the set; each preference holds of all survivors, or of none and is reported |
| Routing.NarrowKeepsEverybody | ahp/broker/router.py:318-350 | narrowing keeps everybody who satisfies the preferences that were honoured |
| Routing.EarlierComesFirst | ahp/broker/router.py:318-350 | a preference is given up exactly when nobody whom the earlier ones left satisfies it |
| Routing.GatedExactly | ahp/broker/router.py:210-227 | after the throttle there are exactly those whose roll is below their visibility, or everybody if there are none |
| Routing.SeenByRoll | ahp/broker/router.py:210-227 | a reliable newcomer passes on a roll below 0.05, an actor with five hundred accepted calls always, a distrusted one never |
| Routing.InvisibleOnlyAsLastResort | ahp/broker/router.py:223-242 | a server below the reputation floor survives only when every qualified candidate failed its roll |
| Routing.HardFilter | ahp/broker/router.py:201-211 | the loop keeps exactly the candidates that meet the requirements |
| Routing.ApplySoftFilter | ahp/broker/router.py:318-350 | the loops compute the narrowing by all preferences in order |
| Routing.RankedFirstIsMinimal | ahp/broker/router.py:352-377 | nobody is ahead of the first ranked candidate |
| Routing.AheadMeans | ahp/broker/router.py:352-377 | the sort key means the strategy: not ahead is exactly at least as cheap, reputed, rated or fast, with ties by name |
| Routing.Route | ahp/broker/router.py:158-282 | the pipeline computes the decision function on every exit |
| Utf8.DecodeOfEncode | ahp/core/address.py:135-177 | decoding with replacement inverts encoding for all text |
| Percent.UnquoteOfQuote | ahp/core/address.py:135-177 | percent-decoding inverts percent-encoding |
| Addresses.ParamsRoundTrip | ahp/core/address.py:135-177 | every parameter map comes back from its query text |
| Addresses.PrintInjective | ahp/core/address.py:168-188 | equal canonical URIs mean equal fields and parameters |
| Addresses.ParseOfPrint | ahp/core/address.py:135-177 | parsing a printed valid address gives it back exactly when it has no outer white space |
| Addresses.RoundTripFails | ahp/core/address.py:73-166 | a concrete valid address that does not come back |
| Addresses.ParsedIsValid | ahp/core/address.py:84-166 | whatever parses satisfies every constructor check |
| Addresses.AcceptsExactly | ahp/core/address.py:101-118 | fifteen accept fields there are: some of the four tiers, each once, in the order s, j, b, e |
| Addresses.OrgIsFirstField | ahp/engine/router.py:225-228 | the organisation that selects the billed server is the canonical URI's text before its first dot |
| Messages.ParsePatternOfPrint | ahp/core/pattern.py:47-85 | the same round trip for routing patterns |
| Messages.MessageRoundTrip | ahp/core/message.py:181-235 | a message comes back from its dictionary exactly when its addresses survive trimming |
| Messages.KindlessRoundTrip | ahp/core/message.py:205-235 | a dictionary without the kind of its target comes back exactly when the verb decides on the right one and its addresses survive trimming |
| Messages.MoreTiersMatchMore | ahp/core/pattern.py:92-112 | an agent that accepts more tiers keeps everything that reached it before |
| Messages.MissingTierNeverMatches | ahp/core/pattern.py:92-112 | a pattern never reaches an agent that lacks a tier it asks for, and one that asks for fewer reaches at least as many |
| Messages.OwnPatternMatches | ahp/core/pattern.py:76-112 | every address is reached by its own fields as a pattern, and by stars alone |
| Cache.SameSlot | ahp/core/message.py:55-176 | two requests share a slot exactly when address, code and hashed body agree |
| Cache.CacheIsItsHistory | ahp/transport/cache.py:68-122 | after any history of puts, expiries, clears and invalidations, raising ones included, each slot holds exactly the latest put with that address, code and digest that has not since expired, been cleared or been reached by an invalidation |
| Cache.HitIsLatestPut | ahp/transport/cache.py:68-91 | a hit answers with the response of that put as its dictionary form reads back; a miss means there is none |
| Cache.TrimmedReadsBack | ahp/transport/cache.py:68-112 | that is the response itself, and an invalidation tests the address itself, exactly for addresses that survive trimming |
| Cache.InvalidationDecides | ahp/transport/cache.py:26-42 | an entry that reads back is deleted exactly when the pattern reaches its target and the target carries all parameters with the values asked for |
| Cache.EphemeralNeverStored | ahp/transport/cache.py:64-91 | ephemeral targets are never stored |
| Cache.StoredExactly | ahp/transport/cache.py:76-91 | stored are exactly responses without a raw body from long-term, session and stale-ok agents, for a day, an hour and a week at most |
| Cache.ProtocolCache.PutResponse | ahp/transport/cache.py:76-91 | what is stored under which key, and when nothing is |
| Cache.ProtocolCache.InvalidateMatching | ahp/transport/cache.py:93-112 | among the entries visited exactly those whose reparsed target matches are deleted and counted, the rest stay; every entry is visited unless a stored target does not parse, where it raises |
| Cache.ProtocolCache.Clear | ahp/transport/cache.py:114-122 | every entry is deleted |
| Products.ProductAt | ahp/adapters/provisioning.py:337-341 | element j of a product has the mixed-radix digits of j |
| Provisioning.ParseFieldOfPrint | ahp/adapters/provisioning.py:147-201 | a printed field parses to itself, but for the lost dash |
| Provisioning.CyclingNotation | ahp/adapters/provisioning.py:147-180 | a number before the star cycles, with a dash for new agents only; zero and uncountable fields are refused |
| Provisioning.CrossingNotation | ahp/adapters/provisioning.py:147-180 | a number behind the star crosses |
| Provisioning.TierNotation | ahp/adapters/provisioning.py:183-191 | a tier field is refused exactly when it is empty, names an unknown tier, or has two out of order |
| Provisioning.PrintedSpecParsesBack | ahp/adapters/provisioning.py:127-236 | every accepted specification text parses, prints and parses to the same fields, except that a count-one prefix field loses its dash; equality holds exactly without such a field |
| Provisioning.LostDashExample | ahp/adapters/provisioning.py:127-236 | `1-*.r.d.t.s.session.i` is accepted and does not come back |
| Provisioning.CountTotal | ahp/adapters/provisioning.py:212-223 | in place: the loops compute rounds times combinations, which RoundsAreLongest and MaterializedCount say what they are |
| Provisioning.RoundsAreLongest | ahp/adapters/provisioning.py:221-223 | no cycling field counts further than there are rounds, and one counts as far unless there is a single round |
| Provisioning.MaterializedCount | ahp/adapters/provisioning.py:212-219 | there are as many addresses as the longest cycle times the product of the crossing counts |
| Provisioning.Combine | ahp/adapters/provisioning.py:312-347 | in place: the nested loops build exactly the addresses of the index formula, or raise if one is invalid; EveryChoiceOccurs says that none is missing |
| Provisioning.MaterializedAt | ahp/adapters/provisioning.py:255-347 | the address at index i*P+j takes value i modulo the count in cycling fields and the mixed-radix digit of j in crossing fields |
| Provisioning.EveryChoiceOccurs | ahp/adapters/provisioning.py:312-347 | in every round every choice of values for the crossing fields occurs in some address, with the cycling fields at that round |
| Provisioning.EveryValueOccurs | ahp/adapters/provisioning.py:312-347 | every value of every cycling or crossing field occurs in some address |
| Provisioning.ThreeExample | ahp/adapters/provisioning.py:312-347 | two organisations cycling against three domains make these three addresses |
| Provisioning.MaterializedDistinct | ahp/adapters/provisioning.py:78-80 | no address is generated twice under a namer that keeps indices apart |
| Provisioning.DefaultNamerInjective | ahp/adapters/provisioning.py:78-80 | the default namer keeps indices apart |
| Provisioning.MaterializesExactly | ahp/adapters/provisioning.py:105-110 | an accepted specification materializes exactly when its fixed tokens are valid address tokens |
| Provisioning.AcceptedButRefused | ahp/adapters/provisioning.py:105-110 | `o.r.d.t.ss.session.i` is accepted and cannot be materialized |
| Provisioning.AsyncIsReuseThenFresh | ahp/adapters/provisioning.py:264-308 | exactly total() addresses, all matching the skeleton: a prefix of the sorted alive matches, then the tail of the fresh ones; with a dash anywhere, the fresh ones |
| Provisioning.AsyncDistinctExactly | ahp/adapters/provisioning.py:264-308 | the answer has no repetition exactly when no fresh address from the number of matches on belongs to an alive agent |
| Provisioning.ReuseRepeatsLast | ahp/adapters/provisioning.py:303-308 | whenever the last fresh address is the only registered match, it is returned twice |
| Provisioning.ReuseRepeatsExample | ahp/adapters/provisioning.py:303-308 | a concrete registry and specification that return one agent twice |

## Left out

- Redis connections, pub/sub, streams, asyncio scheduling and lifetimes: keys are map entries, the version check of WATCH is modelled, and expiry is an event that may come at any time.
- The wallet retry loops decide a lost race by the reply of EXEC, as the code does; a client library that raises instead of returning nothing is not part of the model.
- The wallet history list (capped at 50), reasons and timestamps, audit events and log lines; the mirror keys of holds.
- One settlement (release, credits, refund) is a single step with respect to other parties; what an infrastructure failure inside it leaves behind is modelled.
- Floating-point rounding, infinities and not-a-number: amounts are real numbers.
- Settlement faults are modelled after any number of wallet writes (`RaisesAfter`), but a survey payout, a funding or a drain interrupted by the infrastructure between two wallet writes is not.
- The automatic survey request after a settlement, survey consent flags, free text and the training-data export.
- A bus that raises after delivering a survey message, and a stop between sending a survey and marking it.
- Liveness, metadata other than the score, and policies of the agent registry; the registries of servers, compute providers, skills and groups, the compatibility matrix and scope policies: their answers are inputs (targets, servers, candidates, leaves, alive agents).
- SEND, CAST, CAST-SUB and thread handling in the engine; only the brokered SEND-GET and CAST-GET move credit.
- Digits outside ASCII in provisioning counts, which the regular expressions also accept; negative page limits of the survey queue.
- JSON text layout: a message in dictionary form and a body by its canonical text.
- Regular expressions outside the fragment the glob compiler emits.
- BroadcastSolvency.CastGetConservesExactly: for held targets that share a server only one half is proved (InsolventIssues); each settlement changes the terms of the next there.
- Dispatch.CoveredResponsesSettle: one direction; Solvency.SettlesExactly has both.
- CastGets.CastGetConserves: assumes no settlement is cut short by an infrastructure fault; with faults the supply moves by the receipts' issue, which CastGetIsSafe states.
- The knowledge graph, gateways, information sources, agent frameworks, prompts, command line and examples.
