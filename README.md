# Carrier voice agent: negotiation policy and conversation state machine

This project models the core of a freight-brokering voice agent, in Dafny, and proves properties of the model.

- **The negotiation policy** (`negotiation_policy.dfy`, module `NegotiationPolicy`). Given a listed rate, a carrier's offer, a round number and optional market-average and broker-minimum figures, `Evaluate` decides to accept, counter or reject, and computes a counter-offer. It works in three steps:
  - It derives its figures: a market average that defaults to the listed rate, an initial offer of 85% of the market average, a fair market rate equal to the listed rate, and a broker minimum that defaults to 85% of the listed rate.
  - It applies its ordered rule: reject below the minimum, accept at or below the initial offer, accept or reject in round 3 and later, otherwise counter.
  - It computes a counter with a round-dependent formula, clamps it to [minimum, fair], and rounds it to the nearest 10 with ties to even (Python's `round`).
  Rates are exact `real`s. `NegotiationSummary` reports the same derived figures.
- **The conversation layer** (`conversation_manager.dfy`, module `Conversations`). A `ConversationManager` object holds a map from call id to a conversation record: a state, a round counter and a data record. Its methods are the transitions:
  - start a call;
  - verify the carrier's MC number;
  - present the first load found;
  - run one negotiation round against the policy;
  - take the answer to a final offer.
  The module also models the summary classifiers (outcome, sentiment, rate sensitivity), the location string built for the no-match message, and the loop that filters loads for same-state alternatives. The carrier registry's verdict and the load search results are parameters.
- `text.dfy` (module `Text`) models the Python string operations used: `lower`, `upper`, the substring test and `join`. `wrappers.dfy` holds `Option`.

`ConversationManager.Valid()` is the invariant every transition keeps. For every record, it says:
- it holds one history entry per counted round, numbered 1, 2, 3, …;
- it is in the negotiation state only after a counter in round 1 or 2, so never from the third round on;
- its stored counter-offer is a multiple of 10;
- it never holds a "final offer".

The lemma `StoreKeepsWellFormed` is a proof helper: it only shows that storing a well-formed record keeps `Valid()`.

## Divergences from the source

The transitions model what the code evidently intends in the four places where the code as written cannot run that way. A last point concerns the policy itself.

- The call to `evaluate_offer` in `handle_negotiation` (api/services/conversation_manager.py:236-241) passes `carrier_ask` and `broker_maximum` keywords. That method has no such parameters (api/services/negotiation_policy.py:28-29), so the call raises `TypeError`. It does so after the round counter was already incremented. The model passes the ask as `offer`, the listed rate as the market average, and leaves the broker minimum at its default (`PolicyVerdict`). The 1.20 "broker maximum" computed at line 234 is not used.
- The counter reply refers to an undefined `message_variations` (line 282). Message text is not modelled, so the reply carries the counter, the round and the maximum number of rounds.
- `handle_final_offer_response` is not indented as a method (lines 370-371), so the module would not parse. The model gives the method the body it was written with.
- `data["final_offer"]` is read (line 380) but never written anywhere. The model keeps the field. `Valid()` proves it is always absent, so an accepted final offer records no final rate. In the source, that `None` would then fail in the reply's currency formatting.
- The policy's round-3 counter formula (80% toward the fair market rate, api/services/negotiation_policy.py:167-172) is never reached for rounds 3 and later, because those rounds accept or reject first. A round number of 0 or below does reach it, since such a round is below 3 and is neither 1 nor 2 (`CounterFormula`).

## Model

| member | source | states |
|---|---|---|
| `NegotiationPolicy.Evaluate` | api/services/negotiation_policy.py:28-131 | Defaults: missing market average becomes the listed rate, missing minimum becomes 85% of the listed rate. Initial offer is 85% of the market average; fair rate equals the listed rate. An offer below the minimum is rejected with no counter, in every round. Accept happens iff minimum ≤ offer and (offer ≤ initial offer, or round ≥ 3 and offer ≤ fair rate). Counter happens iff minimum ≤ offer, initial offer < offer and round < 3. The outcome is always accept, counter or reject, never max-rounds-reached. An accepted rate is present iff accepting, and equals the offer. A counter is present iff countering, is a multiple of 10, and comes from the three-round formula. |
| `NegotiationPolicy.RoundHalfEven` | api/services/negotiation_policy.py:182 | Python `round`: the result is within 1/2 of its argument, and is even when exactly 1/2 away. |
| `NegotiationPolicy.RoundToNearest10` | api/services/negotiation_policy.py:180-182 | The result is a multiple of 10 within 5 of the amount; at exactly 5 away it is a multiple of 20. |
| `NegotiationPolicy.Clamp` | api/services/negotiation_policy.py:174-176 | `min(max(c, lo), hi)` is never above `hi` and never below `lo` when `lo ≤ hi`. Its exact value: `c` when `lo ≤ c ≤ hi`, `lo` when `c < lo ≤ hi`, and `hi` when `c > hi` or `lo > hi`. |
| `NegotiationPolicy.RawCounter` | api/services/negotiation_policy.py:154-172 | The round-1 counter lies between the initial offer and the carrier's offer. Every other round's counter lies between the initial offer and the fair rate. |
| `NegotiationPolicy.Counter3Round` | api/services/negotiation_policy.py:133-178 | The counter is a multiple of 10 and at most fair + 5. It is at least minimum − 5 when minimum ≤ fair. Outside round 1, with minimum ≤ initial ≤ fair, it is within 5 of the raw formula. |
| `NegotiationPolicy.NegotiationSummary` | api/services/negotiation_policy.py:184-218 | Reports `max_rounds = 3` and the multipliers 0.85, 0.85, 1.0, 0.30 and 0.80. Its market average, initial offer, fair rate and minimum equal those of an evaluation with a default minimum, for every offer and round. |
| `NegotiationPolicy.DefaultsAcceptLowOnlyAtMinimum` | api/services/negotiation_policy.py:48-85 | Under the defaults, the initial offer equals the minimum, which is 85% of the listed rate. The "excellent rate" acceptance fires iff the offer is exactly that amount. |
| `NegotiationPolicy.FinalRoundAcceptOrReject` | api/services/negotiation_policy.py:87-114 | From round 3 on there is never a counter. The offer is accepted iff it is at least the minimum and at most the fair rate or the initial offer. |
| `NegotiationPolicy.CounterFormula` | api/services/negotiation_policy.py:154-178 | A counter happens only in a round below 3. Before clamping and rounding, it is: initial + 0.30 × (offer − initial) in round 1; initial + 0.60 × (fair − initial) in round 2; initial + 0.80 × (fair − initial) only for rounds ≤ 0. |
| `NegotiationPolicy.CounterWithinBand` | api/services/negotiation_policy.py:174-178 | When minimum ≤ fair rate, every counter is a multiple of 10 in [minimum − 5, fair + 5]. The bound holds before rounding only. |
| `NegotiationPolicy.RoundTwoCounterIgnoresOffer` | api/services/negotiation_policy.py:160-165 | Any two round-2 counters for the same listed rate and figures are equal, whatever the carrier offered. |
| `NegotiationPolicy.CounterCanExceedOffer` | api/services/negotiation_policy.py:160-165 | Listed 2000, offer 1750, round 2, defaults: the counter is 1880, above the offer. |
| `NegotiationPolicy.CountersNotMonotone` | api/services/negotiation_policy.py:154-176 | Listed 2000, offer 3000, defaults: round 1 counters 2000 and round 2 counters 1880. |
| `NegotiationPolicy.RoundsHalfToEven` | api/services/negotiation_policy.py:182 | 1625 rounds to 1620 and 1635 to 1640. |
| `Text.Lower` | api/services/conversation_manager.py:544 | Python's `str.lower()` on ASCII: the same length, each upper-case ASCII letter replaced by its lower-case letter (code + 32), every other character kept; no upper-case ASCII letter remains. |
| `Text.Upper` | api/services/conversation_manager.py:543 | Python's `str.upper()` on ASCII: the same length, each lower-case ASCII letter replaced by its upper-case letter (code − 32), every other character kept; no lower-case ASCII letter remains. |
| `Text.Join` | api/services/conversation_manager.py:513 | `sep.join(parts)`: "" for no parts, the part itself for one, the two parts around the separator for two. |
| `Text.Contains` | api/services/conversation_manager.py:377 | Python's `t in s` for strings is true iff `t` occurs in `s` at some position. |
| `Conversations.DetermineOutcome` | api/services/conversation_manager.py:334-346 | AGREEMENT, FAILED, FINAL_OFFER and TRANSFER map to accepted, rejected, final_offer_pending and transferred, each iff. Every other state maps to incomplete. |
| `Conversations.AnalyzeSentiment` | api/services/conversation_manager.py:348-357 | Positive iff the state is AGREEMENT, negative iff FAILED, else neutral. |
| `Conversations.CalculateRateSensitivity` | api/services/conversation_manager.py:405-415 | 0, 1, 2 and ≥ 3 counted rounds map to unknown, low, medium and high, each iff. |
| `Conversations.SensitivityFromHistory` | api/services/conversation_manager.py:229-250 | On a well-formed record, the sensitivity is unknown iff the history is empty, and high iff the history has at least 3 entries. |
| `Conversations.PolicyVerdict` | api/services/conversation_manager.py:232-242 | The verdict asked for a round uses the listed rate as market average and fair rate, and the default minimum of 85% of the listed rate, which is also the initial offer. It counters only in rounds below 3, and then carries a counter. |
| `Conversations.AcceptsFinalOffer` | api/services/conversation_manager.py:377 | A response accepts iff its lower-cased text has an occurrence of "yes" or of "accept". |
| `Conversations.AfterNegotiationRound` | api/services/conversation_manager.py:229-287 | The record after a round keeps its call id and presented load, counts one more round, has one more history entry, and is in AGREEMENT, NEGOTIATION or FAILED. |
| `Conversations.NegotiationRoundEffect` | api/services/conversation_manager.py:227-297 | One round on a record with a presented load does the following. The round count rises by exactly 1. Exactly one history entry is appended: its round is the new count, and it holds the ask and the verdict. The ask is stored. Agreement happens iff the verdict accepts, with final rate = ask. Negotiation happens iff it counters, with the counter stored. Failure happens iff it rejects. Nothing else in the record changes. |
| `Conversations.NoNegotiationFromThirdRound` | api/services/conversation_manager.py:229-287 | A round counted as the third or later never leaves the record negotiating. This follows from the policy's final-round rule. |
| `Conversations.NegotiationRoundKeepsWellFormed` | api/services/conversation_manager.py:229-270 | A round keeps the record well formed: history length equals the round count, entries are numbered 1, 2, …, negotiation happens only in rounds 1 and 2, and the stored counter is a multiple of 10. |
| `Conversations.BuildLocationString` | api/services/conversation_manager.py:497-513 | The origin part comes before the destination part, joined by one space. A part appears only when its state is given. It names the city only when the city is given too. |
| `Conversations.Alternatives` | api/services/conversation_manager.py:536-553 | A load is kept iff it is in the input and it matches the requested origin state case-insensitively with a different city or none requested, or likewise for the destination. The result is never longer than the input. |
| `Conversations.AlternativesAppend` | api/services/conversation_manager.py:537-553 | Filtering a concatenation concatenates the filtered parts, so the filter keeps the loads in their original order. |
| `Conversations.CheckForStateAlternatives` | api/services/conversation_manager.py:537-553 | The loop builds exactly `Alternatives(loads, preferences)`. |
| `Conversations.ConversationManager.constructor` | api/services/conversation_manager.py:54-55 | With no stored file, the store starts empty and valid. |
| `Conversations.ConversationManager.StartConversation` | api/services/conversation_manager.py:78-94 | The record for the id becomes a fresh one: GREETING, 0 rounds, empty data. It overwrites any earlier record; other ids are unchanged. |
| `Conversations.ConversationManager.ProcessMcNumber` | api/services/conversation_manager.py:96-136 | Creates a missing record. Always stores the MC number and the verification. If eligible: LOAD_SEARCH with the carrier name stored. Otherwise: FAILED. The rest of the record and other ids are unchanged. |
| `Conversations.ConversationManager.SearchAndPresentLoads` | api/services/conversation_manager.py:138-208 | Creates a missing record and stores the preferences in both cases. No results: FAILED. Otherwise the first result becomes the presented load, the equipment type is stored, and the state becomes LOAD_PRESENTATION. |
| `Conversations.ConversationManager.HandleNegotiation` | api/services/conversation_manager.py:210-297 | Unknown id, or no presented load: an error reply, and the store does not change. Otherwise the round count rises by exactly 1 and exactly one history entry is appended, numbered with the new count. Accept: AGREEMENT with final rate = ask. Counter: NEGOTIATION with the counter stored. Anything else: FAILED. From the third round on, the state is never NEGOTIATION. |
| `Conversations.ConversationManager.HandleFinalOfferResponse` | api/services/conversation_manager.py:370-403 | Unknown id: an error reply, and the store does not change. Otherwise: AGREEMENT iff the lower-cased response contains "yes" or "accept", with the final rate set to the (never stored) final offer, and so absent. Otherwise: FAILED. |

## Left out

- Persistence of the conversations to a JSON file (`_load_conversations`, `_save_conversations`): file I/O. The constructor models only the case where no file exists.
- `_save_mc_verification_to_db` and the other database writes: external I/O.
- The carrier registry call and the load search are external services. Their results are method parameters: a `Verification` record and a sequence of `Load`s.
- `_get_timestamp` and the `created_at` field: a clock.
- All caller-facing message text and currency formatting: `_format_load_presentation`, `_create_no_match_message`, the messages of `_check_for_state_alternatives`, and the f-string messages of the policy. Replies and evaluations carry a tagged `Message` or reply variant with the figures the text would quote. The "next_action" strings follow from the reply variant.
- `_calculate_negotiation_aggressiveness` and `_extract_structured_data`. The first returns "unknown" for an empty history; for a non-empty one it reads a `"carrier_offer"` key that history entries never contain, so it raises `KeyError`. It also computes float percentages.
- `get_conversation_summary`: it only assembles a dictionary from the record and the classifiers above.
- Floating point: rates are exact reals. The model does not capture that `0.85 × listed` or `x / 10` are inexact in binary floating point.
- `lower()` and `upper()` are modelled on ASCII letters only; Python's Unicode case mapping is left out.
- The "upward from the listed rate" policy variant that the call site's argument names and its `listed_rate * 1.20` "broker maximum" suggest (api/services/conversation_manager.py:234-241). The policy file as written negotiates downward, and that is what is modelled.
- Concurrency: the source keeps one in-memory dictionary per manager with no locking. The model is sequential.
