/**
 * The offer feed of `components/job-offers.tsx`: two shuffled offers shown
 * at first, the others revealed one at a time on a timer, each newly shown
 * offer highlighted and time-stamped, and per offer an action state that
 * drives the Accept, Deny and Save buttons. React's `setState` updates are
 * the field updates of the methods; `Date.now()` and `Math.random()` are
 * parameters, and the random shuffle is the permutation the caller passes.
 */
module JobOffers {
  import opened Wrappers
  import opened Http
  import opened OffersData
  import GenerateDocuments
  import LibGenerateResume
  import LibGenerateCoverLetter

  /** `crypto.randomUUID()` of the entry at position `n` of the offers data. */
  datatype OfferId = OfferId(n: nat)

  /** An entry with its id; the first recruiter and hiring manager are read from `posting` when the entry is posted. */
  datatype FeedOffer = FeedOffer(id: OfferId, posting: Posting)

  /** The values of `actionStates[offer.id]`; an offer with no entry has no state yet. */
  datatype ActionState = Idle | Accepted | Denied | Saved | Generating | Ready

  /** What a press of the Accept button does. */
  datatype AcceptPress = Redirect | StartGeneration

  /** The ids of a list of offers. */
  function IdsOf(offers: seq<FeedOffer>): set<OfferId> {
    set o | o in offers :: o.id
  }

  /** No two offers of the list share an id. */
  predicate DistinctOffers(offers: seq<FeedOffer>) {
    forall i, j :: 0 <= i < j < |offers| ==> offers[i].id != offers[j].id
  }

  /**
   * The entries of the offers data, each with an id of its own: the
   * postings are kept in their order, and no two entries share an id.
   */
  function Identified(data: seq<Posting>): (r: seq<FeedOffer>)
    ensures |r| == |data|
    ensures forall k :: 0 <= k < |r| ==> r[k] == FeedOffer(OfferId(k), data[k])
    ensures DistinctOffers(r)
  {
    seq(|data|, k requires 0 <= k < |data| => FeedOffer(OfferId(k), data[k]))
  }

  /** A list without repeated elements holds each value at most once. */
  lemma {:induction false} CountAtMostOnce<T>(s: seq<T>, x: T)
    requires forall i, j :: 0 <= i < j < |s| ==> s[i] != s[j]
    ensures multiset(s)[x] <= 1
  {
    if s != [] {
      assert s == [s[0]] + s[1..];
      CountAtMostOnce(s[1..], x);
      if s[0] == x {
        assert x !in s[1..];
      }
    }
  }

  /** A value found at two positions of a list is counted at least twice. */
  lemma CountTwice<T>(s: seq<T>, i: nat, j: nat)
    requires i < j < |s| && s[i] == s[j]
    ensures multiset(s)[s[i]] >= 2
  {
    assert s == s[..i] + [s[i]] + s[i + 1..j] + [s[j]] + s[j + 1..];
  }

  /** Any shuffle of the entries shows no id twice: an id determines its entry, and each entry occurs once. */
  lemma ShuffledDistinct(data: seq<Posting>, order: seq<FeedOffer>)
    requires multiset(order) == multiset(Identified(data))
    ensures DistinctOffers(order)
  {
    var entries := Identified(data);
    forall i, j | 0 <= i < j < |order| ensures order[i].id != order[j].id {
      if order[i].id == order[j].id {
        assert order[i] in multiset(entries) && order[j] in multiset(entries);
        assert order[i] == order[j];
        CountTwice(order, i, j);
        CountAtMostOnce(entries, order[i]);
        assert false;
      }
    }
  }

  // ---------------------------------------------------------------------
  // Timing

  /** One tick's pruning: the entries time-stamped more than 60 seconds before `now` are gone, the others kept as they were. */
  function Pruned(times: map<OfferId, int>, now: int): (r: map<OfferId, int>)
    ensures r.Keys <= times.Keys
    ensures forall id :: id in r ==> r[id] == times[id]
  {
    map id | id in times && now - times[id] <= 60000 :: times[id]
  }

  /** An offer stays time-stamped for exactly 60 seconds after it was added. */
  lemma PrunedExactly(times: map<OfferId, int>, now: int, id: OfferId)
    requires id in times
    ensures id in Pruned(times, now) <==> now <= times[id] + 60000
  {
  }

  /**
   * Ticks compose: pruning at an earlier time and again at a later one is
   * pruning once at the later time, and a second tick at the same time
   * changes nothing.
   */
  lemma PrunedTwice(times: map<OfferId, int>, earlier: int, later: int)
    requires earlier <= later
    ensures Pruned(Pruned(times, earlier), later) == Pruned(times, later)
  {
    var once := Pruned(times, earlier);
    assert forall id :: id in Pruned(once, later) <==> id in Pruned(times, later);
  }

  /**
   * The random part of the reschedule delay: `Math.floor(Math.random() *
   * (10000 - 1000 + 1)) + 5000` for a draw `r` of `Math.random()`.
   */
  function RandomDelay(r: real): (d: int)
    requires 0.0 <= r < 1.0
    ensures 5000 <= d <= 14000
  {
    (r * 9001.0).Floor + 5000
  }

  /** Every delay from 5000 to 14000 ms is drawn for some `r`; none reaches 15 seconds. */
  lemma RandomDelayCovers(d: int)
    requires 5000 <= d <= 14000
    ensures var r := (d - 5000) as real / 9001.0; 0.0 <= r < 1.0 && RandomDelay(r) == d
  {
    var r := (d - 5000) as real / 9001.0;
    assert r * 9001.0 == (d - 5000) as real;
  }

  /**
   * `scheduleNextOffer`: with exactly two offers shown and more to come the
   * next one arrives after 2 seconds; otherwise after the random delay.
   */
  function NextDelay(displayedCount: nat, remainingCount: nat, r: real): (d: int)
    requires 0.0 <= r < 1.0
    ensures displayedCount == 2 && remainingCount > 0 ==> d == 2000
    ensures !(displayedCount == 2 && remainingCount > 0) ==> 5000 <= d <= 14000
  {
    if displayedCount == 2 && remainingCount > 0 then 2000 else RandomDelay(r)
  }

  // ---------------------------------------------------------------------
  // Buttons

  /** `actionStates[id]`: `None` when the offer has no state yet. */
  function StateOf(states: map<OfferId, ActionState>, id: OfferId): (s: Option<ActionState>)
    ensures s.Some? <==> id in states
    ensures s.Some? ==> s.value == states[id]
  {
    if id in states then Some(states[id]) else None
  }

  /** Every offer whose state is `ready` has its documents stored. */
  predicate ReadyHasDocuments(states: map<OfferId, ActionState>, documents: map<OfferId, Documents>) {
    forall id :: id in states && states[id] == Ready ==> id in documents
  }

  /**
   * While every ready offer has its documents, a press of Accept that
   * redirects always finds documents to navigate with, and it redirects
   * exactly from a ready offer.
   */
  lemma ReadyRedirects(states: map<OfferId, ActionState>, documents: map<OfferId, Documents>, id: OfferId)
    requires ReadyHasDocuments(states, documents)
    ensures AcceptPressed(StateOf(states, id)) == Redirect <==> id in states && states[id] == Ready
    ensures AcceptPressed(StateOf(states, id)) == Redirect ==> id in documents
  {
  }

  /** The Accept button is disabled once the offer has been denied or saved. */
  predicate AcceptDisabled(s: Option<ActionState>) {
    s == Some(Denied) || s == Some(Saved)
  }

  /** The Deny and Save buttons are disabled as soon as the offer has any state. */
  predicate DismissDisabled(s: Option<ActionState>) {
    s.Some?
  }

  /** A ready offer's Accept button leads to its documents; in every other state it starts a generation. */
  function AcceptPressed(s: Option<ActionState>): AcceptPress {
    if s == Some(Ready) then Redirect else StartGeneration
  }

  /** The Accept button's caption. */
  function AcceptLabel(s: Option<ActionState>): string {
    if s == Some(Generating) then "Generating..."
    else if s == Some(Ready) then "Go to next steps"
    else "Accept"
  }

  /**
   * How the buttons relate: a disabled Accept button means Deny and Save
   * are disabled too; only an offer with no state has all three enabled;
   * Accept redirects only from a ready offer, whose Deny and Save are
   * disabled; and while a generation runs, a press of Accept starts another.
   */
  lemma ButtonRules(s: Option<ActionState>)
    ensures AcceptDisabled(s) ==> DismissDisabled(s)
    ensures !AcceptDisabled(s) && !DismissDisabled(s) <==> s.None?
    ensures AcceptPressed(s) == Redirect ==> !AcceptDisabled(s) && DismissDisabled(s) && AcceptLabel(s) == "Go to next steps"
    ensures s == Some(Generating) ==> !AcceptDisabled(s) && AcceptPressed(s) == StartGeneration
  {
  }

  class Feed {
    var displayed: seq<FeedOffer>
    var remaining: seq<FeedOffer>
    var actionStates: map<OfferId, ActionState>
    var generatedDocuments: map<OfferId, Documents>
    var highlighted: set<OfferId>
    var additionTimes: map<OfferId, int>
    /** The entries of the offers data with their ids, before the shuffle. */
    ghost var entries: seq<FeedOffer>
    /** The shuffled entries the feed was started with. */
    ghost var shuffled: seq<FeedOffer>

    /**
     * Shown and pending offers are the shuffled entries, in order: a
     * permutation of the entries, no id twice. Only shown offers are
     * highlighted or time-stamped, and a ready offer has its documents.
     */
    ghost predicate Valid()
      reads this
    {
      && displayed + remaining == shuffled
      && multiset(shuffled) == multiset(entries)
      && DistinctOffers(shuffled)
      && highlighted <= IdsOf(displayed)
      && additionTimes.Keys <= IdsOf(displayed)
      && ReadyHasDocuments(actionStates, generatedDocuments)
    }

    /**
     * The mount effect: the entries get their ids and are shuffled
     * (`shuffled` is the permutation the random sort produced); the first
     * two are shown and the rest wait in order.
     */
    constructor (data: seq<Posting>, order: seq<FeedOffer>)
      requires multiset(order) == multiset(Identified(data))
      ensures Valid() && entries == Identified(data) && shuffled == order
      ensures |order| >= 2 ==> displayed == order[..2] && remaining == order[2..]
      ensures |order| < 2 ==> displayed == order && remaining == []
      ensures actionStates == map[] && generatedDocuments == map[]
      ensures highlighted == {} && additionTimes == map[]
    {
      if |order| >= 2 {
        displayed := order[..2];
        remaining := order[2..];
      } else {
        displayed := order;
        remaining := [];
      }
      actionStates := map[];
      generatedDocuments := map[];
      highlighted := {};
      additionTimes := map[];
      entries := Identified(data);
      shuffled := order;
      ShuffledDistinct(data, order);
    }

    /**
     * `addNewOffer`: the first pending offer is shown after the others,
     * highlighted and time-stamped with `now`; its id is returned so that
     * the highlight can be removed five seconds later. With nothing pending
     * nothing changes.
     */
    method AddNewOffer(now: int) returns (added: Option<OfferId>)
      requires Valid()
      modifies this
      ensures Valid() && entries == old(entries) && shuffled == old(shuffled)
      ensures old(remaining) == [] ==>
        && added == None
        && displayed == old(displayed) && remaining == []
        && highlighted == old(highlighted) && additionTimes == old(additionTimes)
      ensures old(remaining) != [] ==>
        var offer := old(remaining)[0];
        && added == Some(offer.id) && offer.id !in IdsOf(old(displayed))
        && displayed == old(displayed) + [offer]
        && remaining == old(remaining)[1..]
        && highlighted == old(highlighted) + {offer.id}
        && additionTimes == old(additionTimes)[offer.id := now]
      ensures actionStates == old(actionStates) && generatedDocuments == old(generatedDocuments)
    {
      if remaining == [] {
        return None;
      }
      var offer := remaining[0];
      var whole := displayed + remaining;
      assert whole[|displayed|] == offer;
      forall c | c in displayed ensures c.id != offer.id {
        var k :| 0 <= k < |displayed| && displayed[k] == c;
        assert whole[k] == c;
      }
      assert displayed + [offer] + remaining[1..] == displayed + remaining;
      assert IdsOf(displayed + [offer]) == IdsOf(displayed) + {offer.id};
      displayed := displayed + [offer];
      remaining := remaining[1..];
      highlighted := highlighted + {offer.id};
      additionTimes := additionTimes[offer.id := now];
      added := Some(offer.id);
    }

    /** The timer five seconds after an addition: that offer's highlight goes, every other stays. */
    method Unhighlight(id: OfferId)
      requires Valid()
      modifies this
      ensures Valid() && entries == old(entries) && shuffled == old(shuffled)
      ensures highlighted == old(highlighted) - {id}
      ensures displayed == old(displayed) && remaining == old(remaining) && additionTimes == old(additionTimes)
      ensures actionStates == old(actionStates) && generatedDocuments == old(generatedDocuments)
    {
      highlighted := highlighted - {id};
    }

    /**
     * The interval's tick: a copy of the time stamps is walked key by key
     * and every stamp more than 60 seconds before `now` is deleted.
     */
    method Tick(now: int)
      requires Valid()
      modifies this
      ensures Valid() && entries == old(entries) && shuffled == old(shuffled)
      ensures additionTimes == Pruned(old(additionTimes), now)
      ensures displayed == old(displayed) && remaining == old(remaining) && highlighted == old(highlighted)
      ensures actionStates == old(actionStates) && generatedDocuments == old(generatedDocuments)
    {
      var times := additionTimes;
      var updated := times;
      var keys := times.Keys;
      while keys != {}
        invariant keys <= times.Keys
        invariant updated.Keys <= times.Keys
        invariant forall id :: id in updated ==> updated[id] == times[id]
        invariant forall id :: id in times ==>
          (id in updated <==> id in keys || now - times[id] <= 60000)
        decreases keys
      {
        var id :| id in keys;
        if now - updated[id] > 60000 {
          updated := updated - {id};
        }
        keys := keys - {id};
      }
      assert updated == Pruned(times, now);
      additionTimes := updated;
    }

    /**
     * `handleAction` up to its first `await`: the offer takes the action's
     * state; an acceptance moves it on to `generating` at once, and only
     * then is a generation started (the result).
     */
    method HandleAction(id: OfferId, action: ActionState) returns (generate: bool)
      requires Valid()
      requires action == Accepted || action == Denied || action == Saved || action == Generating
      modifies this
      ensures Valid() && entries == old(entries) && shuffled == old(shuffled)
      ensures generate <==> action == Accepted
      ensures actionStates == old(actionStates)[id := if action == Accepted then Generating else action]
      ensures DismissDisabled(StateOf(actionStates, id))
      ensures displayed == old(displayed) && remaining == old(remaining)
      ensures highlighted == old(highlighted) && additionTimes == old(additionTimes)
      ensures generatedDocuments == old(generatedDocuments)
    {
      actionStates := actionStates[id := action];
      generate := false;
      if action == Accepted {
        actionStates := actionStates[id := Generating];
        generate := true;
      }
    }

    /**
     * `handleAction` after the route has answered: `response` is `None` when
     * the request threw. A successful response stores the documents and makes
     * the offer ready; anything else puts the offer back to `idle`.
     */
    method CompleteAccept(id: OfferId, response: Option<Response>)
      requires Valid()
      modifies this
      ensures Valid() && entries == old(entries) && shuffled == old(shuffled)
      ensures response.Some? && Outcome(response.value).Some? ==>
        && generatedDocuments == old(generatedDocuments)[id := Outcome(response.value).value]
        && actionStates == old(actionStates)[id := Ready]
      ensures !(response.Some? && Outcome(response.value).Some?) ==>
        && generatedDocuments == old(generatedDocuments)
        && actionStates == old(actionStates)[id := Idle]
      ensures displayed == old(displayed) && remaining == old(remaining)
      ensures highlighted == old(highlighted) && additionTimes == old(additionTimes)
    {
      var documents := if response.Some? then Outcome(response.value) else None;
      if documents.Some? {
        generatedDocuments := generatedDocuments[id := documents.value];
        actionStates := actionStates[id := Ready];
      } else {
        actionStates := actionStates[id := Idle];
      }
    }

    /**
     * A whole acceptance, the route answering the body the feed posts: the
     * offer ends up ready with its documents exactly when its entry names a
     * recruiter and a hiring manager, and back to `idle` otherwise. The
     * documents are the `lib` resume and cover letter of that body.
     */
    method AcceptOffer(offer: FeedOffer) returns (documents: Option<Documents>)
      requires Valid()
      modifies this
      ensures Valid() && entries == old(entries) && shuffled == old(shuffled)
      ensures documents.Some? <==> |offer.posting.recruiters| > 0 && |offer.posting.hiringManagers| > 0
      ensures documents.Some? ==>
        var request := FeedRequest(offer.posting);
        documents.value == Documents(
          LibGenerateResume.GenerateResume(request).value,
          LibGenerateCoverLetter.GenerateCoverLetter(request).value)
      ensures documents.Some? ==>
        && generatedDocuments == old(generatedDocuments)[offer.id := documents.value]
        && actionStates == old(actionStates)[offer.id := Ready]
      ensures documents.None? ==>
        && generatedDocuments == old(generatedDocuments)
        && actionStates == old(actionStates)[offer.id := Idle]
      ensures displayed == old(displayed) && remaining == old(remaining)
      ensures highlighted == old(highlighted) && additionTimes == old(additionTimes)
    {
      var states0 := actionStates;
      var generate := HandleAction(offer.id, Accepted);
      var response := GenerateDocuments.Handle("POST", Some(FeedRequest(offer.posting)));
      FeedRequestResult(offer.posting);
      CompleteAccept(offer.id, Some(response));
      documents := Outcome(response);
      ghost var final := if documents.Some? then Ready else Idle;
      assert states0[offer.id := Generating][offer.id := final] == states0[offer.id := final];
    }

    /**
     * `handleRedirect`: the documents to navigate with, or `None` (no
     * navigation) when none were generated. On a valid feed, an Accept
     * press that redirects always navigates.
     */
    function RedirectTarget(id: OfferId): (r: Option<Documents>)
      reads this
      ensures Valid() && AcceptPressed(StateOf(actionStates, id)) == Redirect ==> r.Some?
      ensures r.Some? <==> id in generatedDocuments
      ensures r.Some? ==> r.value == generatedDocuments[id]
    {
      if id in generatedDocuments then Some(generatedDocuments[id]) else None
    }
  }
}
