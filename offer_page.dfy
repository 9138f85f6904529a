/** The offer detail page. On an id change it starts three independent
    requests (the offer, its comments, the offers nearby) whose completions
    update the page's held state one by one; it also appends posted comments,
    merges favourite toggles into the held offer, and decides between the
    spinner, the not-found redirect and the content. */
module OfferPageModel {
  import opened Wrappers
  import opened Types
  import opened NumberText

  const OfferFetchFailure := "Could not fetch the offer-page details."

  /** How many nearby offers the page keeps. */
  const NearbyLimit := 3

  // ---------------------------------------------------------------------------
  // Texts

  /** `getPluralizedText`: the count, a space, then the singular noun for a
      count of one and the plural noun otherwise. */
  function PluralizedText(count: int, singular: string, plural: string): string
  {
    IntText(count) + " " + (if count == 1 then singular else plural)
  }

  /** The text reads back: everything before its first space is the count,
      and everything after it is the noun, singular exactly for a count of one. */
  lemma PluralizedTextReadsBack(count: int, singular: string, plural: string)
    ensures var t := PluralizedText(count, singular, plural);
      exists k :: 0 <= k < |t| && t[k] == ' ' && (forall i :: 0 <= i < k ==> t[i] != ' ')
        && ParseInt(t[..k]) == Some(count)
        && t[k + 1..] == (if count == 1 then singular else plural)
  {
    var t := PluralizedText(count, singular, plural);
    var k := |IntText(count)|;
    assert t[..k] == IntText(count);
    IntTextRoundTrip(count);
    assert t[k + 1..] == (if count == 1 then singular else plural);
  }

  /** The text of a count field of the held offer: empty when there is no
      offer or the count is zero (a falsy number), pluralised otherwise. */
  function CountText(offer: Option<Offer>, count: Offer -> int, singular: string, plural: string): (t: string)
    ensures t == "" <==> offer.None? || count(offer.value) == 0
    ensures t != "" ==> t == PluralizedText(count(offer.value), singular, plural)
  {
    if offer.Some? && count(offer.value) != 0 then PluralizedText(count(offer.value), singular, plural) else ""
  }

  function BedroomsOf(o: Offer): int { o.bedrooms }
  function MaxAdultsOf(o: Offer): int { o.maxAdults }

  function BedroomsText(offer: Option<Offer>): string
  {
    CountText(offer, BedroomsOf, "Bedroom", "Bedrooms")
  }

  function AdultsText(offer: Option<Offer>): string
  {
    CountText(offer, MaxAdultsOf, "adult", "adults")
  }

  // ---------------------------------------------------------------------------
  // Map points

  /** The marker of an offer: its title at its own location. */
  function PointOf(o: Offer): Point
  {
    Point(o.title, o.location.latitude, o.location.longitude)
  }

  /** The markers of a list of offers, one per offer, in the same order. */
  function PointsOf(offers: seq<Offer>): (ps: seq<Point>)
    ensures |ps| == |offers|
    ensures forall i :: 0 <= i < |offers| ==> ps[i] == PointOf(offers[i])
  {
    if offers == [] then [] else [PointOf(offers[0])] + PointsOf(offers[1..])
  }

  /** `data.slice(0, 3)`: the first three offers, or all of them when fewer. */
  function Nearest(data: seq<Offer>): (r: seq<Offer>)
    ensures |r| == if |data| < NearbyLimit then |data| else NearbyLimit
    ensures r == data[..|r|]
  {
    if |data| < NearbyLimit then data else data[..NearbyLimit]
  }

  // ---------------------------------------------------------------------------
  // The page state and its transitions

  datatype PageState = PageState(
    offer: Option<Offer>,
    comments: seq<Comment>,
    nearbyOffers: seq<Offer>,
    points: seq<Point>,
    loading: bool,
    error: Option<string>)

  /** The only error the page ever holds is the offer-fetch failure. */
  predicate WellFormed(s: PageState)
  {
    s.error == None || s.error == Some(OfferFetchFailure)
  }

  /** The state the page mounts with: nothing held, loading. */
  function Mounted(): (s: PageState)
    ensures WellFormed(s) && s.loading && s.offer == None && s.comments == [] && s.points == []
  {
    PageState(None, [], [], [], true, None)
  }

  /** The effect run when the route id changes: for a present, non-empty id
      the page goes back to loading and forgets its error (the held offer,
      comments and points stay until the requests complete); an absent or
      empty id changes nothing. */
  function IdChanged(s: PageState, id: Option<string>): (g: PageState)
    ensures id.Some? && id.value != "" ==> g.loading && g.error == None
    ensures g.(loading := s.loading, error := s.error) == s
    ensures id.None? || id.value == "" ==> g == s
  {
    if id.Some? && id.value != "" then s.(loading := true, error := None) else s
  }

  /** The offer request completes: on success the offer is held and the points
      become that offer's single point; on failure the error is set; in both
      cases loading ends. Nothing else changes. */
  function OfferSettled(s: PageState, response: Settled<Offer>): (g: PageState)
    ensures !g.loading
    ensures g.comments == s.comments && g.nearbyOffers == s.nearbyOffers
    ensures response.Fulfilled? ==>
      g.offer == Some(response.value) && g.points == [PointOf(response.value)] && g.error == s.error
    ensures response.Rejected? ==>
      g.error == Some(OfferFetchFailure) && g.offer == s.offer && g.points == s.points
  {
    match response
    case Fulfilled(data) => s.(offer := Some(data), points := [PointOf(data)], loading := false)
    case Rejected => s.(error := Some(OfferFetchFailure), loading := false)
  }

  /** The comments request completes: on success the list is replaced; a
      failure is not caught and changes nothing. */
  function CommentsSettled(s: PageState, response: Settled<seq<Comment>>): (g: PageState)
    ensures response.Fulfilled? ==> g.comments == response.value
    ensures g.(comments := s.comments) == s
    ensures response.Rejected? ==> g == s
  {
    match response
    case Fulfilled(data) => s.(comments := data)
    case Rejected => s
  }

  /** The nearby request completes: on success at most the first three offers
      are kept and their points are appended after the points already held;
      a failure is not caught and changes nothing. */
  function NearbySettled(s: PageState, response: Settled<seq<Offer>>): (g: PageState)
    ensures response.Fulfilled? ==>
      g.nearbyOffers == Nearest(response.value)
      && |g.points| == |s.points| + |g.nearbyOffers| && g.points[..|s.points|] == s.points
      && forall i :: 0 <= i < |g.nearbyOffers| ==> g.points[|s.points| + i] == PointOf(g.nearbyOffers[i])
    ensures g.offer == s.offer && g.comments == s.comments && g.loading == s.loading && g.error == s.error
    ensures response.Rejected? ==> g == s
  {
    match response
    case Fulfilled(data) =>
      var limited := Nearest(data);
      s.(nearbyOffers := limited, points := s.points + PointsOf(limited))
    case Rejected => s
  }

  /** `handleCommentSubmit`: once the post succeeds, the comment the server
      returns is appended; before that, or on failure, nothing changes. */
  function CommentPosted(s: PageState, response: Settled<Comment>): (g: PageState)
    ensures response.Fulfilled? ==>
      |g.comments| == |s.comments| + 1 && g.comments[..|s.comments|] == s.comments
      && g.comments[|s.comments|] == response.value
    ensures response.Rejected? ==> g == s
    ensures g.(comments := s.comments) == s
  {
    match response
    case Fulfilled(newComment) => s.(comments := s.comments + [newComment])
    case Rejected => s
  }

  /** The favourite toggle: the held offer takes the new status and is
      otherwise the same; with no offer held nothing changes. */
  function FavoriteToggled(s: PageState, newFavoriteStatus: bool): (g: PageState)
    ensures s.offer.None? ==> g == s
    ensures s.offer.Some? ==>
      g.offer.Some? && g.offer.value.isFavorite == newFavoriteStatus
      && g.offer.value.(isFavorite := s.offer.value.isFavorite) == s.offer.value
    ensures g.(offer := s.offer) == s
  {
    s.(offer := if s.offer.Some? then Some(s.offer.value.(isFavorite := newFavoriteStatus)) else s.offer)
  }

  /** Toggling back to the earlier status restores the page exactly. */
  lemma FavoriteToggleUndo(s: PageState, newFavoriteStatus: bool)
    requires s.offer.Some?
    ensures FavoriteToggled(FavoriteToggled(s, newFavoriteStatus), s.offer.value.isFavorite) == s
  {
  }

  // ---------------------------------------------------------------------------
  // The render decision

  datatype View = Spinner | NotFound | Content

  /** A string is truthy when it is present and not empty. */
  predicate Truthy(error: Option<string>)
  {
    error.Some? && error.value != ""
  }

  /** The spinner while loading; otherwise the not-found redirect when there
      is an error or no offer; otherwise the content. */
  function Render(s: PageState): View
  {
    if s.loading then Spinner
    else if Truthy(s.error) || s.offer.None? then NotFound
    else Content
  }

  /** For the states the page can be in, the redirect is taken exactly when
      an error is held or no offer is. */
  lemma RenderDecision(s: PageState)
    requires WellFormed(s)
    ensures Render(s) == Spinner <==> s.loading
    ensures Render(s) == NotFound <==> !s.loading && (s.error.Some? || s.offer.None?)
    ensures Render(s) == Content <==> !s.loading && s.error.None? && s.offer.Some?
  {
  }

  /** Every transition keeps the page well formed. */
  lemma TransitionsKeepWellFormed(s: PageState, id: Option<string>, offer: Settled<Offer>,
      comments: Settled<seq<Comment>>, nearby: Settled<seq<Offer>>, posted: Settled<Comment>, status: bool)
    requires WellFormed(s)
    ensures WellFormed(IdChanged(s, id)) && WellFormed(OfferSettled(s, offer))
    ensures WellFormed(CommentsSettled(s, comments)) && WellFormed(NearbySettled(s, nearby))
    ensures WellFormed(CommentPosted(s, posted)) && WellFormed(FavoriteToggled(s, status))
  {
  }

  /** After an id change the spinner shows until the offer request completes,
      whatever the comments and nearby requests do in the meantime; then the
      content shows if the offer came back and the redirect if it failed. */
  lemma {:induction false} OfferDecidesView(s: PageState, id: string, comments: Settled<seq<Comment>>,
      nearby: Settled<seq<Offer>>, offer: Settled<Offer>)
    requires id != ""
    ensures var started := IdChanged(s, Some(id));
      var waiting := NearbySettled(CommentsSettled(started, comments), nearby);
      Render(waiting) == Spinner
      && Render(OfferSettled(waiting, offer)) == (if offer.Fulfilled? then Content else NotFound)
  {
    var started := IdChanged(s, Some(id));
    assert started.error == None && started.loading;
    var waiting := NearbySettled(CommentsSettled(started, comments), nearby);
    assert waiting.error == None && waiting.loading;
  }

  /** A failed offer request redirects, yet the comments and nearby offers
      fetched independently are still held. */
  lemma OfferFailureKeepsPartialData(s: PageState)
    ensures var g := OfferSettled(s, Rejected);
      Render(g) == NotFound && g.comments == s.comments && g.nearbyOffers == s.nearbyOffers
  {
  }

  // ---------------------------------------------------------------------------
  // The two arrival orders of the offer and nearby completions

  /** Offer first, then nearby: the map shows the offer and its neighbours. */
  lemma OfferThenNearby(s: PageState, o: Offer, data: seq<Offer>)
    ensures NearbySettled(OfferSettled(s, Fulfilled(o)), Fulfilled(data)).points
      == [PointOf(o)] + PointsOf(Nearest(data))
  {
  }

  /** Nearby first, then offer: the offer's completion overwrites the points,
      so the neighbours' markers are lost. */
  lemma NearbyThenOffer(s: PageState, o: Offer, data: seq<Offer>)
    ensures OfferSettled(NearbySettled(s, Fulfilled(data)), Fulfilled(o)).points == [PointOf(o)]
  {
  }

  /** The two orders agree on everything but the points. */
  lemma ArrivalOrdersAgreeButPoints(s: PageState, offer: Settled<Offer>, nearby: Settled<seq<Offer>>)
    ensures var a := NearbySettled(OfferSettled(s, offer), nearby);
      var b := OfferSettled(NearbySettled(s, nearby), offer);
      a.(points := []) == b.(points := [])
  {
  }

  /** The comments completion is independent of the other two: it commutes
      with each of them. */
  lemma CommentsCommute(s: PageState, comments: Settled<seq<Comment>>, offer: Settled<Offer>, nearby: Settled<seq<Offer>>)
    ensures CommentsSettled(OfferSettled(s, offer), comments) == OfferSettled(CommentsSettled(s, comments), offer)
    ensures CommentsSettled(NearbySettled(s, nearby), comments) == NearbySettled(CommentsSettled(s, comments), nearby)
  {
  }

  // ---------------------------------------------------------------------------
  // The component

  /** The mounted offer page and its held state. */
  class OfferPage {
    var offer: Option<Offer>
    var comments: seq<Comment>
    var nearbyOffers: seq<Offer>
    var points: seq<Point>
    var loading: bool
    var error: Option<string>

    function State(): PageState
      reads this
    {
      PageState(offer, comments, nearbyOffers, points, loading, error)
    }

    /** What the page shows now. */
    function View(): (v: View)
      reads this
      ensures WellFormed(State()) ==>
        && (v == Spinner <==> loading)
        && (v == NotFound <==> !loading && (error.Some? || offer.None?))
    {
      Render(State())
    }

    constructor ()
      ensures State() == Mounted()
    {
      offer, comments, nearbyOffers, points := None, [], [], [];
      loading, error := true, None;
    }

    /** The `useEffect` body, run for the route id. */
    method OnIdChange(id: Option<string>)
      modifies this
      ensures State() == IdChanged(old(State()), id)
    {
      if id.Some? && id.value != "" {
        loading := true;
        error := None;
      }
    }

    /** The `then`, `catch` and `finally` callbacks of the offer request. */
    method OnOfferSettled(response: Settled<Offer>)
      modifies this
      ensures State() == OfferSettled(old(State()), response)
    {
      match response {
        case Fulfilled(data) =>
          offer := Some(data);
          points := [Point(data.title, data.location.latitude, data.location.longitude)];
        case Rejected =>
          error := Some(OfferFetchFailure);
      }
      loading := false;
    }

    /** The `then` callback of the comments request. */
    method OnCommentsSettled(response: Settled<seq<Comment>>)
      modifies this
      ensures State() == CommentsSettled(old(State()), response)
    {
      if response.Fulfilled? {
        comments := response.value;
      }
    }

    /** The `then` callback of the nearby request. */
    method OnNearbySettled(response: Settled<seq<Offer>>)
      modifies this
      ensures State() == NearbySettled(old(State()), response)
    {
      if response.Fulfilled? {
        var limitedNearbyOffers := Nearest(response.value);
        nearbyOffers := limitedNearbyOffers;
        points := points + PointsOf(limitedNearbyOffers);
      }
    }

    /** `handleCommentSubmit`, once the post of the review settles. */
    method OnCommentPosted(response: Settled<Comment>)
      modifies this
      ensures State() == CommentPosted(old(State()), response)
    {
      if response.Fulfilled? {
        comments := comments + [response.value];
      }
    }

    /** The bookmark button's `onToggleFavorite` callback. */
    method OnToggleFavorite(newFavoriteStatus: bool)
      modifies this
      ensures State() == FavoriteToggled(old(State()), newFavoriteStatus)
    {
      if offer.Some? {
        offer := Some(offer.value.(isFavorite := newFavoriteStatus));
      }
    }
  }
}
