/** The per-call conversation state machine of the carrier voice agent:
    records keyed by call id, the transitions that verify a carrier, present
    a load and negotiate its rate, the classification helpers used for call
    summaries, and the location and alternative-load helpers used when a
    search finds nothing. The registry verification, the load search and
    the policy's verdict reach the model as values. */
module Conversations {
  import opened Wrappers
  import opened Text
  import NP = NegotiationPolicy

  datatype ConversationState =
    | Greeting | McCollection | McVerification | LoadSearch | LoadPresentation
    | Negotiation | FinalOffer | Agreement | Transfer | Complete | Failed

  /** The carrier registry's answer for an MC number. */
  datatype Verification = Verification(eligible: bool, carrierName: string, reason: string)

  /** A load record as the load search returns it (the fields used here). */
  datatype Load = Load(
    loadId: string,
    originCity: string,
    originState: string,
    destinationCity: string,
    destinationState: string,
    totalRate: real)

  /** The search parameters stored under "search_preferences". */
  datatype SearchPreferences = SearchPreferences(
    equipmentType: Option<string>,
    originCity: string,
    originState: string,
    destinationCity: Option<string>,
    destinationState: Option<string>)

  /** One entry of "negotiation_history". */
  datatype HistoryEntry = HistoryEntry(round: int, carrierAsk: real, evaluation: NP.Evaluation)

  /** The record's "data" dictionary; a missing key is `None`, and a missing
      history reads as the empty list. */
  datatype ConversationData = ConversationData(
    mcNumber: Option<string>,
    fmcsaVerification: Option<Verification>,
    carrierName: Option<string>,
    searchPreferences: Option<SearchPreferences>,
    presentedLoad: Option<Load>,
    equipmentType: Option<string>,
    lastCarrierAsk: Option<real>,
    negotiationHistory: seq<HistoryEntry>,
    lastCounterOffer: Option<int>,
    finalRate: Option<real>,
    finalOffer: Option<real>)

  const EmptyData: ConversationData :=
    ConversationData(None, None, None, None, None, None, None, [], None, None, None)

  /** One call's record. */
  datatype Conversation = Conversation(
    callId: string,
    state: ConversationState,
    data: ConversationData,
    negotiationRounds: nat)

  /** The record `start_conversation` creates. */
  function NewConversation(callId: string): Conversation {
    Conversation(callId, Greeting, EmptyData, 0)
  }

  /** The record for `callId`, or a fresh one where the source creates it
      on demand. */
  function RecordOrNew(conversations: map<string, Conversation>, callId: string): Conversation {
    if callId in conversations then conversations[callId] else NewConversation(callId)
  }

  /** The verdict `handle_negotiation` asks of the policy: the carrier's ask
      as the offer, the listed rate as market average, the default minimum. */
  function PolicyVerdict(load: Load, carrierAsk: real, roundNumber: int): (e: NP.Evaluation)
    ensures e.marketAverage == load.totalRate && e.fairMarketRate == load.totalRate
    ensures e.brokerMinimum == load.totalRate * 0.85 && e.initialOffer == load.totalRate * 0.85
    ensures e.outcome == NP.Counter ==> roundNumber < 3 && e.counterOffer.Some?
  {
    NP.Evaluate(load.totalRate, carrierAsk, roundNumber, Some(load.totalRate), None)
  }

  /** What each operation returns, without the caller-facing message text. */
  datatype Reply =
    | ConversationNotFound
    | Greeted(callId: string)
    | CarrierVerified(callId: string, carrierName: string)
    | CarrierNotVerified(callId: string, reason: string)
    | NoLoadsFound(callId: string)
    | LoadPresented(callId: string, load: Load)
    | NoLoadPresented(callId: string)
    | RateAgreed(callId: string, finalRate: real)
    | CounterOffered(callId: string, counterOffer: int, round: int, maxRounds: int)
    | NegotiationRejected(callId: string, verdictMessage: NP.Message)
    | FinalOfferAccepted(callId: string, storedFinalOffer: Option<real>)
    | FinalOfferDeclined(callId: string)

  /** The "state" field a reply reports, where it has one. */
  function ReportedState(reply: Reply): Option<ConversationState> {
    match reply
    case ConversationNotFound => None
    case Greeted(_) => Some(Greeting)
    case CarrierVerified(_, _) => Some(LoadSearch)
    case CarrierNotVerified(_, _) => Some(Failed)
    case NoLoadsFound(_) => Some(Failed)
    case LoadPresented(_, _) => Some(LoadPresentation)
    case NoLoadPresented(_) => Some(Failed)
    case RateAgreed(_, _) => Some(Agreement)
    case CounterOffered(_, _, _, _) => Some(Negotiation)
    case NegotiationRejected(_, _) => Some(Failed)
    case FinalOfferAccepted(_, _) => Some(Agreement)
    case FinalOfferDeclined(_) => Some(Failed)
  }

  /** The carrier's answer to a final offer is a yes: its lower-cased text
      contains "yes" or "accept". */
  predicate AcceptsFinalOffer(response: string)
    ensures AcceptsFinalOffer(response) <==>
              (exists i :: OccursAt(Lower(response), "yes", i)) ||
              (exists i :: OccursAt(Lower(response), "accept", i))
  {
    Contains(Lower(response), "yes") || Contains(Lower(response), "accept")
  }

  /** What every record reachable through the transitions satisfies. */
  ghost predicate WellFormed(callId: string, c: Conversation) {
    && c.callId == callId
    // one history entry per counted round, numbered 1, 2, ...
    && |c.data.negotiationHistory| == c.negotiationRounds
    && (forall i :: 0 <= i < |c.data.negotiationHistory| ==> c.data.negotiationHistory[i].round == i + 1)
    // still negotiating only after a counter in round 1 or 2
    && (c.state == Negotiation ==> 1 <= c.negotiationRounds < 3 && c.data.lastCounterOffer.Some?)
    && (c.data.lastCounterOffer.Some? ==> c.data.lastCounterOffer.value % 10 == 0)
    // no transition ever stores "final_offer"
    && c.data.finalOffer == None
  }

  /** Every record of the store is well formed. */
  ghost predicate WellFormedStore(conversations: map<string, Conversation>) {
    forall callId :: callId in conversations ==> WellFormed(callId, conversations[callId])
  }

  /** Storing a well-formed record keeps the store well formed. */
  lemma StoreKeepsWellFormed(conversations: map<string, Conversation>, callId: string, c: Conversation)
    requires WellFormedStore(conversations) && WellFormed(callId, c)
    ensures WellFormedStore(conversations[callId := c])
  {
  }

  /** The record after one negotiation round on a record with a presented
      load: the round is counted, the policy is asked, the round is logged,
      and the verdict decides the next state. */
  function AfterNegotiationRound(before: Conversation, carrierAsk: real): (after: Conversation)
    requires before.data.presentedLoad.Some?
    ensures after.callId == before.callId && after.data.presentedLoad == before.data.presentedLoad
    ensures after.negotiationRounds == before.negotiationRounds + 1
    ensures |after.data.negotiationHistory| == |before.data.negotiationHistory| + 1
    ensures after.state in {Agreement, Negotiation, Failed}
  {
    var round := before.negotiationRounds + 1;
    var e := PolicyVerdict(before.data.presentedLoad.value, carrierAsk, round);
    var data := before.data.(
      lastCarrierAsk := Some(carrierAsk),
      negotiationHistory := before.data.negotiationHistory + [HistoryEntry(round, carrierAsk, e)]);
    if e.outcome == NP.Accept then
      before.(negotiationRounds := round, state := Agreement, data := data.(finalRate := Some(carrierAsk)))
    else if e.outcome == NP.Counter then
      before.(negotiationRounds := round, state := Negotiation, data := data.(lastCounterOffer := e.counterOffer))
    else
      before.(negotiationRounds := round, state := Failed, data := data)
  }

  /** A negotiation round counts exactly one round and logs exactly one
      entry, numbered with the new count, and maps accept to agreement at the
      carrier's ask, counter to further negotiation with the counter stored,
      and anything else to failure. Nothing else in the record changes. */
  lemma NegotiationRoundEffect(before: Conversation, carrierAsk: real)
    requires before.data.presentedLoad.Some?
    ensures var after := AfterNegotiationRound(before, carrierAsk);
            var e := PolicyVerdict(before.data.presentedLoad.value, carrierAsk, after.negotiationRounds);
            && after.negotiationRounds == before.negotiationRounds + 1
            && after.data.negotiationHistory ==
                 before.data.negotiationHistory + [HistoryEntry(after.negotiationRounds, carrierAsk, e)]
            && after.data.lastCarrierAsk == Some(carrierAsk)
            && (after.state == Agreement <==> e.outcome == NP.Accept)
            && (after.state == Negotiation <==> e.outcome == NP.Counter)
            && (after.state == Failed <==> e.outcome == NP.Reject)
            && after.data.finalRate == (if e.outcome == NP.Accept then Some(carrierAsk) else before.data.finalRate)
            && after.data.lastCounterOffer ==
                 (if e.outcome == NP.Counter then e.counterOffer else before.data.lastCounterOffer)
            && after.callId == before.callId
            && after.data.(negotiationHistory := before.data.negotiationHistory, lastCarrierAsk := before.data.lastCarrierAsk,
                           finalRate := before.data.finalRate, lastCounterOffer := before.data.lastCounterOffer) == before.data
  {
    var round := before.negotiationRounds + 1;
    var e := PolicyVerdict(before.data.presentedLoad.value, carrierAsk, round);
    assert e.outcome == NP.Accept || e.outcome == NP.Counter || e.outcome == NP.Reject;
  }

  /** Combined with the policy's final-round rule: from the third counted
      round on, a round never leaves the record negotiating. */
  lemma NoNegotiationFromThirdRound(before: Conversation, carrierAsk: real)
    requires before.data.presentedLoad.Some? && before.negotiationRounds >= 2
    ensures AfterNegotiationRound(before, carrierAsk).state != Negotiation
  {
    var round := before.negotiationRounds + 1;
    NP.FinalRoundAcceptOrReject(before.data.presentedLoad.value.totalRate, carrierAsk, round,
                                Some(before.data.presentedLoad.value.totalRate), None);
  }

  /** A negotiation round keeps a record well formed. */
  lemma NegotiationRoundKeepsWellFormed(callId: string, before: Conversation, carrierAsk: real)
    requires before.data.presentedLoad.Some? && WellFormed(callId, before)
    ensures WellFormed(callId, AfterNegotiationRound(before, carrierAsk))
  {
    var after := AfterNegotiationRound(before, carrierAsk);
    var h := after.data.negotiationHistory;
    assert h == before.data.negotiationHistory + [h[|h| - 1]];
    assert forall i :: 0 <= i < |h| - 1 ==> h[i] == before.data.negotiationHistory[i];
  }

  // ---------------------------------------------------------------------
  // Classification helpers for the call summary

  datatype CallOutcome = Accepted | Rejected | FinalOfferPending | Transferred | Incomplete

  /** `_determine_outcome`. */
  function DetermineOutcome(c: Conversation): (o: CallOutcome)
    ensures o == Accepted <==> c.state == Agreement
    ensures o == Rejected <==> c.state == Failed
    ensures o == FinalOfferPending <==> c.state == FinalOffer
    ensures o == Transferred <==> c.state == Transfer
    ensures o == Incomplete <==> c.state !in {Agreement, Failed, FinalOffer, Transfer}
  {
    match c.state
    case Agreement => Accepted
    case Failed => Rejected
    case FinalOffer => FinalOfferPending
    case Transfer => Transferred
    case _ => Incomplete
  }

  datatype Sentiment = Positive | Negative | Neutral

  /** `_analyze_sentiment`, derived from the outcome. */
  function AnalyzeSentiment(c: Conversation): (s: Sentiment)
    ensures s == Positive <==> c.state == Agreement
    ensures s == Negative <==> c.state == Failed
    ensures s == Neutral <==> c.state != Agreement && c.state != Failed
  {
    var outcome := DetermineOutcome(c);
    if outcome == Accepted then Positive
    else if outcome == Rejected then Negative
    else Neutral
  }

  datatype RateSensitivity = Unknown | Low | Medium | High

  /** `_calculate_rate_sensitivity`, from the number of counted rounds. */
  function CalculateRateSensitivity(c: Conversation): (r: RateSensitivity)
    ensures r == Unknown <==> c.negotiationRounds == 0
    ensures r == Low <==> c.negotiationRounds == 1
    ensures r == Medium <==> c.negotiationRounds == 2
    ensures r == High <==> c.negotiationRounds >= 3
  {
    var rounds := c.negotiationRounds;
    if rounds == 0 then Unknown
    else if rounds == 1 then Low
    else if rounds <= 2 then Medium
    else High
  }

  /** On a well-formed record the sensitivity reads off the history length. */
  lemma SensitivityFromHistory(callId: string, c: Conversation)
    requires WellFormed(callId, c)
    ensures CalculateRateSensitivity(c) == Unknown <==> c.data.negotiationHistory == []
    ensures CalculateRateSensitivity(c) == High <==> |c.data.negotiationHistory| >= 3
  {
  }

  // ---------------------------------------------------------------------
  // Location string and alternative loads

  /** A possibly-absent text parameter; `None` and "" are both falsy. */
  function TextOf(o: Option<string>): string {
    o.GetOr("")
  }

  /** One part of a location string: the preposition, then the city and a
      comma when a city is given, then the state. */
  function Place(preposition: string, city: string, state: string): string {
    if city != "" then preposition + city + ", " + state else preposition + state
  }

  /** `_build_location_string`: an origin part, then a destination part,
      joined by a space; a part exists only when its state is given, and
      names its city only when the city is given too. */
  method BuildLocationString(p: SearchPreferences) returns (s: string)
    ensures var origin := Place("from ", p.originCity, p.originState);
            var destination := Place("to ", TextOf(p.destinationCity), TextOf(p.destinationState));
            var hasOrigin, hasDestination := p.originState != "", TextOf(p.destinationState) != "";
            s == if hasOrigin && hasDestination then origin + " " + destination
                 else if hasOrigin then origin
                 else if hasDestination then destination
                 else ""
  {
    var parts: seq<string> := [];
    var destinationCity, destinationState := TextOf(p.destinationCity), TextOf(p.destinationState);
    if p.originCity != "" && p.originState != "" {
      parts := parts + ["from " + p.originCity + ", " + p.originState];
    } else if p.originState != "" {
      parts := parts + ["from " + p.originState];
    }
    ghost var originParts := parts;
    assert originParts == if p.originState != "" then [Place("from ", p.originCity, p.originState)] else [];
    if destinationCity != "" && destinationState != "" {
      parts := parts + ["to " + destinationCity + ", " + destinationState];
    } else if destinationState != "" {
      parts := parts + ["to " + destinationState];
    }
    assert parts == originParts +
      (if destinationState != "" then [Place("to ", destinationCity, destinationState)] else []);
    s := Join(parts, " ");
  }

  /** The load starts in the requested origin state (ignoring case) but not
      in the requested city, or no city was requested. */
  predicate OriginAlternative(load: Load, p: SearchPreferences) {
    && p.originState != ""
    && Upper(load.originState) == Upper(p.originState)
    && (p.originCity == "" || Lower(load.originCity) != Lower(p.originCity))
  }

  /** The same test for the destination. */
  predicate DestinationAlternative(load: Load, p: SearchPreferences) {
    var dc, ds := TextOf(p.destinationCity), TextOf(p.destinationState);
    && ds != ""
    && Upper(load.destinationState) == Upper(ds)
    && (dc == "" || Lower(load.destinationCity) != Lower(dc))
  }

  predicate IsAlternative(load: Load, p: SearchPreferences) {
    OriginAlternative(load, p) || DestinationAlternative(load, p)
  }

  /** The loads that are alternatives, as a filter over the search results. */
  function Alternatives(loads: seq<Load>, p: SearchPreferences): (r: seq<Load>)
    ensures |r| <= |loads|
    ensures forall load :: load in r <==> load in loads && IsAlternative(load, p)
  {
    if loads == [] then []
    else (if IsAlternative(loads[0], p) then [loads[0]] else []) + Alternatives(loads[1..], p)
  }

  /** The filter keeps the original order: filtering a concatenation
      concatenates the filtered parts. */
  lemma {:induction false} AlternativesAppend(a: seq<Load>, b: seq<Load>, p: SearchPreferences)
    ensures Alternatives(a + b, p) == Alternatives(a, p) + Alternatives(b, p)
  {
    if a == [] {
      assert a + b == b;
    } else {
      assert (a + b)[1..] == a[1..] + b;
      AlternativesAppend(a[1..], b, p);
    }
  }

  /** The filter loop of `_check_for_state_alternatives`, over the loads a
      state-only search returned. */
  method CheckForStateAlternatives(p: SearchPreferences, loads: seq<Load>) returns (alternatives: seq<Load>)
    ensures alternatives == Alternatives(loads, p)
  {
    alternatives := [];
    for i := 0 to |loads|
      invariant alternatives == Alternatives(loads[..i], p)
    {
      var load := loads[i];
      var originMatch, destinationMatch := false, false;
      if p.originState != "" && Upper(load.originState) == Upper(p.originState) {
        if p.originCity == "" || Lower(load.originCity) != Lower(p.originCity) {
          originMatch := true;
        }
      }
      var destinationCity, destinationState := TextOf(p.destinationCity), TextOf(p.destinationState);
      if destinationState != "" && Upper(load.destinationState) == Upper(destinationState) {
        if destinationCity == "" || Lower(load.destinationCity) != Lower(destinationCity) {
          destinationMatch := true;
        }
      }
      assert originMatch == OriginAlternative(load, p);
      assert destinationMatch == DestinationAlternative(load, p);
      assert Alternatives([load], p) == if IsAlternative(load, p) then [load] else [];
      if originMatch || destinationMatch {
        alternatives := alternatives + [load];
      }
      assert loads[..i + 1] == loads[..i] + [load];
      AlternativesAppend(loads[..i], [load], p);
    }
    assert loads[..|loads|] == loads;
  }

  // ---------------------------------------------------------------------
  // The conversation store and its transitions

  class ConversationManager {
    /** `self.conversations`: call id to record. */
    var conversations: map<string, Conversation>

    ghost predicate Valid()
      reads this
    {
      WellFormedStore(conversations)
    }

    /** A manager with no stored conversations. */
    constructor ()
      ensures Valid() && conversations == map[]
    {
      conversations := map[];
    }

    /** `start_conversation`: (re)creates the record, overwriting any
        previous one for the same id. */
    method StartConversation(callId: string) returns (reply: Reply)
      requires Valid()
      modifies this
      ensures Valid()
      ensures conversations == old(conversations)[callId := NewConversation(callId)]
      ensures reply == Greeted(callId) && ReportedState(reply) == Some(conversations[callId].state)
    {
      StoreKeepsWellFormed(conversations, callId, NewConversation(callId));
      conversations := conversations[callId := NewConversation(callId)];
      reply := Greeted(callId);
    }

    /** `process_mc_number`: records the MC number and the registry's answer,
        then moves on to the load search or fails. */
    method ProcessMcNumber(callId: string, mcNumber: string, verification: Verification) returns (reply: Reply)
      requires Valid()
      modifies this
      ensures Valid()
      ensures var before := RecordOrNew(old(conversations), callId);
              var data := before.data.(mcNumber := Some(mcNumber), fmcsaVerification := Some(verification));
              conversations == old(conversations)[callId :=
                if verification.eligible then
                  before.(state := LoadSearch, data := data.(carrierName := Some(verification.carrierName)))
                else
                  before.(state := Failed, data := data)]
      ensures reply == if verification.eligible then CarrierVerified(callId, verification.carrierName)
                       else CarrierNotVerified(callId, verification.reason)
      ensures ReportedState(reply) == Some(conversations[callId].state)
    {
      // a missing record starts as the one `start_conversation` stores
      var conversation := RecordOrNew(conversations, callId);
      conversation := conversation.(data := conversation.data.(
        mcNumber := Some(mcNumber), fmcsaVerification := Some(verification)));
      if verification.eligible {
        conversation := conversation.(
          state := LoadSearch,
          data := conversation.data.(carrierName := Some(verification.carrierName)));
        reply := CarrierVerified(callId, verification.carrierName);
      } else {
        conversation := conversation.(state := Failed);
        reply := CarrierNotVerified(callId, verification.reason);
      }
      assert ReportedState(reply) == Some(conversation.state);
      StoreKeepsWellFormed(conversations, callId, conversation);
      conversations := conversations[callId := conversation];
    }

    /** `search_and_present_loads`, given the search's results: stores the
        preferences and presents the first load, or fails on no results. */
    method SearchAndPresentLoads(callId: string, preferences: SearchPreferences, loads: seq<Load>)
      returns (reply: Reply)
      requires Valid()
      modifies this
      ensures Valid()
      ensures var before := RecordOrNew(old(conversations), callId);
              var data := before.data.(searchPreferences := Some(preferences));
              conversations == old(conversations)[callId :=
                if loads == [] then
                  before.(state := Failed, data := data)
                else
                  before.(state := LoadPresentation,
                          data := data.(presentedLoad := Some(loads[0]), equipmentType := preferences.equipmentType))]
      ensures reply == if loads == [] then NoLoadsFound(callId) else LoadPresented(callId, loads[0])
      ensures ReportedState(reply) == Some(conversations[callId].state)
    {
      // a missing record starts as the one `start_conversation` stores
      var conversation := RecordOrNew(conversations, callId);
      if loads == [] {
        conversation := conversation.(
          state := Failed,
          data := conversation.data.(searchPreferences := Some(preferences)));
        reply := NoLoadsFound(callId);
      } else {
        var bestLoad := loads[0];
        conversation := conversation.(data := conversation.data.(
          presentedLoad := Some(bestLoad),
          equipmentType := preferences.equipmentType,
          searchPreferences := Some(preferences)));
        conversation := conversation.(state := LoadPresentation);
        reply := LoadPresented(callId, bestLoad);
      }
      assert ReportedState(reply) == Some(conversation.state);
      StoreKeepsWellFormed(conversations, callId, conversation);
      conversations := conversations[callId := conversation];
    }

    /** `handle_negotiation`: counts a round, asks the policy, logs the
        round, and moves to agreement, further negotiation or failure. */
    method HandleNegotiation(callId: string, carrierAsk: real) returns (reply: Reply)
      requires Valid()
      modifies this
      ensures Valid()
      ensures callId !in old(conversations) ==>
                reply == ConversationNotFound && conversations == old(conversations)
      ensures callId in old(conversations) && old(conversations[callId]).data.presentedLoad == None ==>
                reply == NoLoadPresented(callId) && conversations == old(conversations)
      ensures callId in old(conversations) && old(conversations[callId]).data.presentedLoad.Some? ==>
                var before := old(conversations[callId]);
                var round := before.negotiationRounds + 1;
                var e := PolicyVerdict(before.data.presentedLoad.value, carrierAsk, round);
                && conversations == old(conversations)[callId := AfterNegotiationRound(before, carrierAsk)]
                && reply == (if e.outcome == NP.Accept then RateAgreed(callId, carrierAsk)
                             else if e.outcome == NP.Counter then CounterOffered(callId, e.counterOffer.value, round, 3)
                             else NegotiationRejected(callId, e.message))
                && ReportedState(reply) == Some(conversations[callId].state)
      ensures callId in conversations && conversations[callId].negotiationRounds >= 3 ==>
                conversations[callId].state != Negotiation
    {
      if callId !in conversations {
        return ConversationNotFound;
      }
      var conversation := conversations[callId];
      if conversation.data.presentedLoad == None {
        return NoLoadPresented(callId);
      }
      conversation := conversation.(negotiationRounds := conversation.negotiationRounds + 1);
      var roundNumber := conversation.negotiationRounds;
      var evaluation := PolicyVerdict(conversation.data.presentedLoad.value, carrierAsk, roundNumber);
      conversation := conversation.(data := conversation.data.(
        lastCarrierAsk := Some(carrierAsk),
        negotiationHistory := conversation.data.negotiationHistory + [HistoryEntry(roundNumber, carrierAsk, evaluation)]));
      if evaluation.outcome == NP.Accept {
        conversation := conversation.(
          state := Agreement,
          data := conversation.data.(finalRate := Some(carrierAsk)));
        reply := RateAgreed(callId, carrierAsk);
      } else if evaluation.outcome == NP.Counter {
        var counterOffer := evaluation.counterOffer.value;
        conversation := conversation.(
          state := Negotiation,
          data := conversation.data.(lastCounterOffer := Some(counterOffer)));
        reply := CounterOffered(callId, counterOffer, roundNumber, evaluation.maxRounds);
      } else {
        conversation := conversation.(state := Failed);
        reply := NegotiationRejected(callId, evaluation.message);
      }
      assert ReportedState(reply) == Some(conversation.state);
      assert conversation == AfterNegotiationRound(conversations[callId], carrierAsk);
      NegotiationRoundKeepsWellFormed(callId, conversations[callId], carrierAsk);
      StoreKeepsWellFormed(conversations, callId, conversation);
      conversations := conversations[callId := conversation];
    }

    /** `handle_final_offer_response`: a yes ("yes" or "accept" in the
        lower-cased reply) is an agreement at the stored final offer, anything
        else a failure. No transition stores a final offer, so an agreement
        reached here carries no final rate. */
    method HandleFinalOfferResponse(callId: string, carrierResponse: string) returns (reply: Reply)
      requires Valid()
      modifies this
      ensures Valid()
      ensures callId !in old(conversations) ==>
                reply == ConversationNotFound && conversations == old(conversations)
      ensures callId in old(conversations) ==>
                var before := old(conversations[callId]);
                && conversations == old(conversations)[callId :=
                     if AcceptsFinalOffer(carrierResponse) then
                       before.(state := Agreement, data := before.data.(finalRate := before.data.finalOffer))
                     else
                       before.(state := Failed)]
                && reply == (if AcceptsFinalOffer(carrierResponse) then FinalOfferAccepted(callId, before.data.finalOffer)
                             else FinalOfferDeclined(callId))
                && ReportedState(reply) == Some(conversations[callId].state)
      ensures callId in old(conversations) && AcceptsFinalOffer(carrierResponse) ==>
                conversations[callId].data.finalRate == None
    {
      if callId !in conversations {
        return ConversationNotFound;
      }
      var conversation := conversations[callId];
      var answer := Lower(carrierResponse);
      if Contains(answer, "yes") || Contains(answer, "accept") {
        conversation := conversation.(state := Agreement);
        var finalRate := conversation.data.finalOffer;
        conversation := conversation.(data := conversation.data.(finalRate := finalRate));
        reply := FinalOfferAccepted(callId, finalRate);
      } else {
        conversation := conversation.(state := Failed);
        reply := FinalOfferDeclined(callId);
      }
      assert ReportedState(reply) == Some(conversation.state);
      StoreKeepsWellFormed(conversations, callId, conversation);
      conversations := conversations[callId := conversation];
    }
  }
}
