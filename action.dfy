/** The store's asynchronous coordinators: fetching the offers of a city and
    checking the login session. Each coordinator is a step-by-step sequence of
    dispatches; the store's reducers are not part of this model, so what the
    coordinators produce is the log of actions they dispatch. */
module StoreActions {
  import opened Wrappers
  import opened Types

  /** The store actions the coordinators dispatch. */
  datatype Action =
    | SetLoading(loading: bool)
    | SetOffers(offers: seq<Offer>)
    | SetCity(city: City)
    | SetError(error: Option<string>)
    | SetAuthorizationStatus(authorized: bool)

  const FetchOffersFailure := "Failed to fetch offers."
  const LoginFailure := "Failed to login."

  /** How the `/login` request ended: an answer with an HTTP status, or a thrown
      error carrying the status of its HTTP response (None when the error is
      not an HTTP error or has no response). */
  datatype LoginResponse = Answered(status: int) | Thrown(responseStatus: Option<int>)

  // ---------------------------------------------------------------------------
  // The city filter

  /** `s` can be obtained from `t` by deleting elements, keeping the order. */
  ghost predicate IsSubsequence<T>(s: seq<T>, t: seq<T>)
  {
    if s == [] then true
    else if t == [] then false
    else (s[0] == t[0] && IsSubsequence(s[1..], t[1..])) || IsSubsequence(s, t[1..])
  }

  /** The offers of `all` whose city is named `name`, in their original order:
      they are a subsequence of `all`, each of them lies in that city, and each
      offer of that city occurs as often as in `all`. */
  function FilterByCity(all: seq<Offer>, name: string): (r: seq<Offer>)
    ensures forall o :: o in r ==> o.city.name == name
    ensures forall o :: multiset(r)[o] == if o.city.name == name then multiset(all)[o] else 0
    ensures IsSubsequence(r, all)
  {
    if all == [] then []
    else
      var rest := FilterByCity(all[1..], name);
      assert all == [all[0]] + all[1..];
      if all[0].city.name == name then
        assert ([all[0]] + rest)[1..] == rest;
        [all[0]] + rest
      else
        rest
  }

  /** Filtering commutes with concatenation: the relative order of the kept
      offers of two lists, one after the other, is preserved. */
  lemma {:induction false} FilterByCityConcat(a: seq<Offer>, b: seq<Offer>, name: string)
    ensures FilterByCity(a + b, name) == FilterByCity(a, name) + FilterByCity(b, name)
  {
    if a == [] {
      assert a + b == b;
    } else {
      assert (a + b)[1..] == a[1..] + b;
      FilterByCityConcat(a[1..], b, name);
    }
  }

  /** A list all of whose offers lie in the city is kept whole; one that has an
      offer elsewhere loses something. */
  lemma {:induction false} FilterByCityKeepsAll(all: seq<Offer>, name: string)
    ensures FilterByCity(all, name) == all <==> forall o :: o in all ==> o.city.name == name
  {
    if all != [] {
      FilterByCityKeepsAll(all[1..], name);
      assert all == [all[0]] + all[1..];
      if all[0].city.name != name {
        FilterShorter(all[1..], name);
      }
    }
  }

  lemma {:induction false} FilterShorter(all: seq<Offer>, name: string)
    ensures |FilterByCity(all, name)| <= |all|
  {
    if all != [] {
      FilterShorter(all[1..], name);
    }
  }

  // ---------------------------------------------------------------------------
  // Reading the action log

  /** The value carried by the most recent action of the kind `pick` selects. */
  function MostRecent<T>(log: seq<Action>, pick: Action -> Option<T>): (r: Option<T>)
    ensures r.Some? ==> exists i :: 0 <= i < |log| && pick(log[i]) == r
    ensures r.None? ==> forall i :: 0 <= i < |log| ==> pick(log[i]).None?
  {
    if log == [] then None
    else if pick(log[|log| - 1]).Some? then pick(log[|log| - 1])
    else MostRecent(log[..|log| - 1], pick)
  }

  function LoadingOf(a: Action): Option<bool> {
    if a.SetLoading? then Some(a.loading) else None
  }

  function OffersOf(a: Action): Option<seq<Offer>> {
    if a.SetOffers? then Some(a.offers) else None
  }

  function CityOf(a: Action): Option<City> {
    if a.SetCity? then Some(a.city) else None
  }

  function ErrorOf(a: Action): Option<Option<string>> {
    if a.SetError? then Some(a.error) else None
  }

  function AuthorizationOf(a: Action): Option<bool> {
    if a.SetAuthorizationStatus? then Some(a.authorized) else None
  }

  /** What a later part of the log says wins over an earlier part; where the
      later part says nothing, the earlier part still stands. */
  lemma {:induction false} MostRecentConcat<T>(a: seq<Action>, b: seq<Action>, pick: Action -> Option<T>)
    ensures MostRecent(a + b, pick) == if MostRecent(b, pick).Some? then MostRecent(b, pick) else MostRecent(a, pick)
  {
    if b == [] {
      assert a + b == a;
    } else {
      assert (a + b)[..|a + b| - 1] == a + b[..|b| - 1];
      MostRecentConcat(a, b[..|b| - 1], pick);
    }
  }

  // ---------------------------------------------------------------------------
  // fetchOffersByCity

  /** The actions `fetchOffersByCity(city)` dispatches when `/offers` settles
      as `response`: loading on, then the outcome, then loading off. */
  function FetchOffersActions(city: City, response: Settled<seq<Offer>>): (acts: seq<Action>)
    ensures |acts| == if response.Fulfilled? then 5 else 3
  {
    [SetLoading(true)]
    + (match response
       case Fulfilled(all) => [SetOffers(FilterByCity(all, city.name)), SetCity(city), SetError(None)]
       case Rejected => [SetError(Some(FetchOffersFailure))])
    + [SetLoading(false)]
  }

  /** Loading is switched on first, off last, and nowhere in between. */
  lemma FetchBracketedByLoading(city: City, response: Settled<seq<Offer>>)
    ensures var acts := FetchOffersActions(city, response);
      acts[0] == SetLoading(true) && acts[|acts| - 1] == SetLoading(false)
      && forall i :: 0 < i < |acts| - 1 ==> !acts[i].SetLoading?
  {
  }

  /** On success the dispatches between the loading switches are exactly the
      filtered offers, the city and the cleared error, in that order. */
  lemma FetchSuccessActions(city: City, all: seq<Offer>)
    ensures var acts := FetchOffersActions(city, Fulfilled(all));
      acts[1..|acts| - 1] == [SetOffers(FilterByCity(all, city.name)), SetCity(city), SetError(None)]
  {
  }

  /** On failure exactly one error is dispatched, and neither offers nor a city. */
  lemma FetchFailureActions(city: City)
    ensures var acts := FetchOffersActions(city, Rejected);
      (forall i :: 0 <= i < |acts| ==> (acts[i].SetError? <==> i == 1))
      && acts[1] == SetError(Some(FetchOffersFailure))
      && forall a :: a in acts ==> !a.SetOffers? && !a.SetCity?
  {
  }

  /** Whatever was dispatched before, loading read from the log is true at
      every point strictly inside a run, when no other coordinator dispatches
      during the run (the run's actions form one contiguous block of the log). */
  lemma {:induction false} FetchLoadingInside(before: seq<Action>, city: City, response: Settled<seq<Offer>>, k: nat)
    requires 1 <= k < |FetchOffersActions(city, response)|
    ensures MostRecent(before + FetchOffersActions(city, response)[..k], LoadingOf) == Some(true)
  {
    var acts := FetchOffersActions(city, response);
    FetchBracketedByLoading(city, response);
    var inside := acts[1..k];
    assert forall i :: 0 <= i < |inside| ==> LoadingOf(inside[i]).None?;
    assert acts[..k] == [acts[0]] + inside;
    MostRecentConcat([acts[0]], inside, LoadingOf);
    MostRecentConcat(before, acts[..k], LoadingOf);
  }

  /** The last action of a run is what the log's tail says, however the run
      went: loading is false after it. */
  lemma {:induction false} FetchLoadingEnds(before: seq<Action>, city: City, response: Settled<seq<Offer>>)
    ensures MostRecent(before + FetchOffersActions(city, response), LoadingOf) == Some(false)
  {
    var acts := FetchOffersActions(city, response);
    assert (before + acts)[|before + acts| - 1] == SetLoading(false);
  }

  /** After a successful run whose actions form one contiguous block of the
      log, the log says: the offers are the filtered list, the city is the
      target and the error is cleared. */
  lemma {:induction false} FetchSuccessEffect(before: seq<Action>, city: City, all: seq<Offer>)
    ensures var after := before + FetchOffersActions(city, Fulfilled(all));
      MostRecent(after, OffersOf) == Some(FilterByCity(all, city.name))
      && MostRecent(after, CityOf) == Some(city)
      && MostRecent(after, ErrorOf) == Some(None)
  {
    var filtered := FilterByCity(all, city.name);
    var acts := FetchOffersActions(city, Fulfilled(all));
    var tail := [SetOffers(filtered), SetCity(city), SetError(None), SetLoading(false)];
    assert acts == [SetLoading(true)] + tail;
    assert before + acts == (before + [SetLoading(true)]) + tail;
    MostRecentConcat(before + [SetLoading(true)], tail, OffersOf);
    MostRecentConcat(before + [SetLoading(true)], tail, CityOf);
    MostRecentConcat(before + [SetLoading(true)], tail, ErrorOf);
    assert tail == [SetOffers(filtered), SetCity(city)] + [SetError(None), SetLoading(false)];
    MostRecentConcat([SetOffers(filtered), SetCity(city)], [SetError(None), SetLoading(false)], OffersOf);
    MostRecentConcat([SetOffers(filtered), SetCity(city)], [SetError(None), SetLoading(false)], CityOf);
    MostRecentConcat([SetOffers(filtered), SetCity(city)], [SetError(None), SetLoading(false)], ErrorOf);
  }

  /** After a failed run whose actions form one contiguous block of the log,
      the log says the error is set, while the offers and the city are still
      the ones from before (stale but present). */
  lemma {:induction false} FetchFailureEffect(before: seq<Action>, city: City)
    ensures var after := before + FetchOffersActions(city, Rejected);
      MostRecent(after, OffersOf) == MostRecent(before, OffersOf)
      && MostRecent(after, CityOf) == MostRecent(before, CityOf)
      && MostRecent(after, ErrorOf) == Some(Some(FetchOffersFailure))
  {
    var acts := FetchOffersActions(city, Rejected);
    MostRecentConcat(before, acts, OffersOf);
    MostRecentConcat(before, acts, CityOf);
    MostRecentConcat(before, acts, ErrorOf);
  }

  // ---------------------------------------------------------------------------
  // login

  /** The actions `login()` dispatches for a `/login` outcome. */
  function LoginActions(response: LoginResponse): (acts: seq<Action>)
    ensures |acts| == if response.Answered? && response.status != 200 then 0 else 1
  {
    match response
    case Answered(status) =>
      if status == 200 then [SetAuthorizationStatus(true)] else []
    case Thrown(responseStatus) =>
      if responseStatus == Some(401) then [SetAuthorizationStatus(false)]
      else [SetError(Some(LoginFailure))]
  }

  /** After a login run the authorisation read from the log is true for a 200
      answer and false for a thrown 401; for every other outcome it is what it
      was before. Only an error other than 401 dispatches the login error. */
  lemma {:induction false} LoginEffect(before: seq<Action>, response: LoginResponse)
    ensures var after := before + LoginActions(response);
      MostRecent(after, AuthorizationOf) == (
        if response == Answered(200) then Some(true)
        else if response == Thrown(Some(401)) then Some(false)
        else MostRecent(before, AuthorizationOf))
      && MostRecent(after, ErrorOf) == (
        if response.Thrown? && response.responseStatus != Some(401) then Some(Some(LoginFailure))
        else MostRecent(before, ErrorOf))
  {
    MostRecentConcat(before, LoginActions(response), AuthorizationOf);
    MostRecentConcat(before, LoginActions(response), ErrorOf);
  }

  // ---------------------------------------------------------------------------
  // The dispatching side

  /** The store's dispatch function, seen as the log of what it received. */
  class Dispatcher {
    var log: seq<Action>

    constructor ()
      ensures log == []
    {
      log := [];
    }

    method Dispatch(a: Action)
      modifies this
      ensures log == old(log) + [a]
    {
      log := log + [a];
    }
  }

  /** `fetchOffersByCity(city)` run against `store`, with `/offers` settling as
      `response`: try, catch, then the cleanup step that always runs. */
  method FetchOffersByCity(store: Dispatcher, city: City, response: Settled<seq<Offer>>)
    modifies store
    ensures store.log == old(store.log) + FetchOffersActions(city, response)
  {
    store.Dispatch(SetLoading(true));
    match response {
      case Fulfilled(allOffers) =>
        var filteredOffers := FilterByCity(allOffers, city.name);
        store.Dispatch(SetOffers(filteredOffers));
        store.Dispatch(SetCity(city));
        store.Dispatch(SetError(None));
      case Rejected =>
        store.Dispatch(SetError(Some(FetchOffersFailure)));
    }
    store.Dispatch(SetLoading(false));
  }

  /** `login()` run against `store`, with `/login` ending as `response`. */
  method Login(store: Dispatcher, response: LoginResponse)
    modifies store
    ensures store.log == old(store.log) + LoginActions(response)
  {
    match response {
      case Answered(status) =>
        if status == 200 {
          store.Dispatch(SetAuthorizationStatus(true));
        }
      case Thrown(responseStatus) =>
        if responseStatus == Some(401) {
          store.Dispatch(SetAuthorizationStatus(false));
        } else {
          store.Dispatch(SetError(Some(LoginFailure)));
        }
    }
  }
}
