/** The main page: the city tabs, the offer list and the map. It holds the
    active city and the hovered offer, derives the map coordinates and the
    hovered marker from the offers it is given, and on every change of city
    dispatches the offers fetch for a city object it builds. */
module MainPageModel {
  import opened Wrappers
  import opened Types
  import StoreActions
  import OfferPageModel

  /** The map centre used when there is no offer to take one from. */
  const DefaultLatitude: real := 48.8566
  const DefaultLongitude: real := 2.3522

  /** The zoom of every city object the page builds. */
  const CityZoom := 12

  /** A map coordinate of the offer list: the offer's title and id at the
      location of the offer's city. */
  datatype OfferCoordinate = OfferCoordinate(title: string, lat: real, long: real, id: string)

  function CoordinateOf(o: Offer): OfferCoordinate
  {
    OfferCoordinate(o.title, o.city.location.latitude, o.city.location.longitude, o.id)
  }

  /** The main page's coordinate of an offer and the detail page's marker of
      the same offer carry the same title, but sit at the same place only when
      the offer's own location coincides with its city's centre. */
  lemma CoordinateVersusDetailMarker(o: Offer)
    ensures var c := CoordinateOf(o);
      var p := OfferPageModel.PointOf(o);
      c.id == o.id && c.title == p.title
      && ((c.lat == p.lat && c.long == p.long) <==>
          (o.location.latitude == o.city.location.latitude && o.location.longitude == o.city.location.longitude))
  {
  }

  /** Since coordinates are taken from the city and not the offer, all offers
      of one city are placed on the same spot of the main map. */
  lemma {:induction false} SameCitySameSpot(offers: seq<Offer>, i: nat, j: nat)
    requires i < |offers| && j < |offers|
    requires offers[i].city == offers[j].city
    ensures var cs := OfferCoordinates(offers);
      cs[i].lat == cs[j].lat && cs[i].long == cs[j].long
  {
  }

  /** `offerCoordinates`: one coordinate per offer, in the same order. */
  function OfferCoordinates(offers: seq<Offer>): (cs: seq<OfferCoordinate>)
    ensures |cs| == |offers|
    ensures forall i :: 0 <= i < |offers| ==> cs[i] == CoordinateOf(offers[i])
  {
    if offers == [] then [] else [CoordinateOf(offers[0])] + OfferCoordinates(offers[1..])
  }

  /** The `===` test of `find`: an id never equals null. */
  predicate IsHovered(c: OfferCoordinate, hoveredOfferId: Option<string>)
  {
    hoveredOfferId == Some(c.id)
  }

  /** The position of the first coordinate that is hovered, if any. */
  function FirstHovered(cs: seq<OfferCoordinate>, hoveredOfferId: Option<string>): (k: Option<nat>)
    ensures k.Some? ==>
              && k.value < |cs| && IsHovered(cs[k.value], hoveredOfferId)
              && forall j :: 0 <= j < k.value ==> !IsHovered(cs[j], hoveredOfferId)
    ensures k.None? ==> forall j :: 0 <= j < |cs| ==> !IsHovered(cs[j], hoveredOfferId)
  {
    if cs == [] then None
    else if IsHovered(cs[0], hoveredOfferId) then Some(0)
    else
      match FirstHovered(cs[1..], hoveredOfferId)
      case Some(k) => Some(k + 1)
      case None => None
  }

  /** `selectedPoint`: the first coordinate whose id is the hovered id;
      undefined when none matches, in particular when nothing is hovered. */
  function SelectedPoint(cs: seq<OfferCoordinate>, hoveredOfferId: Option<string>): (p: Option<OfferCoordinate>)
    ensures p.Some? ==>
              exists k :: 0 <= k < |cs| && p.value == cs[k] && IsHovered(cs[k], hoveredOfferId)
                && forall j :: 0 <= j < k ==> !IsHovered(cs[j], hoveredOfferId)
    ensures p.None? <==> forall j :: 0 <= j < |cs| ==> !IsHovered(cs[j], hoveredOfferId)
    ensures hoveredOfferId.None? ==> p.None?
  {
    match FirstHovered(cs, hoveredOfferId)
    case Some(k) => Some(cs[k])
    case None => None
  }

  /** When the offer ids are distinct, hovering an offer selects exactly that
      offer's coordinate. */
  lemma {:induction false} HoveringSelectsThatOffer(offers: seq<Offer>, i: nat)
    requires i < |offers|
    requires forall a, b :: 0 <= a < b < |offers| ==> offers[a].id != offers[b].id
    ensures SelectedPoint(OfferCoordinates(offers), Some(offers[i].id)) == Some(CoordinateOf(offers[i]))
  {
    var cs := OfferCoordinates(offers);
    var k := FirstHovered(cs, Some(offers[i].id));
    assert IsHovered(cs[i], Some(offers[i].id));
    assert k.Some? && k.value <= i;
  }

  /** `cityObject`: named after the active city, zoom 12, centred on the first
      offer's city when there is an offer and on the default point otherwise. */
  function CityObject(activeCity: string, offers: seq<Offer>): City
  {
    City(activeCity, Location(
      if |offers| > 0 then offers[0].city.location.latitude else DefaultLatitude,
      if |offers| > 0 then offers[0].city.location.longitude else DefaultLongitude,
      CityZoom))
  }

  /** When the page shows offers of the active city whose city has zoom 12,
      the city object it builds is exactly the first offer's city. */
  lemma CityObjectIsFirstOfferCity(activeCity: string, offers: seq<Offer>)
    requires |offers| > 0 && offers[0].city.name == activeCity && offers[0].city.location.zoom == CityZoom
    ensures CityObject(activeCity, offers) == offers[0].city
  {
  }

  /** The city object depends on the offers only through the centre of the
      first offer's city: two offer lists that are both empty, or whose first
      offers' cities share a centre, give the same city object. */
  lemma CityObjectDependsOnFirstCentre(activeCity: string, xs: seq<Offer>, ys: seq<Offer>)
    requires (xs == []) == (ys == [])
    requires xs != [] ==>
      xs[0].city.location.latitude == ys[0].city.location.latitude
      && xs[0].city.location.longitude == ys[0].city.location.longitude
    ensures CityObject(activeCity, xs) == CityObject(activeCity, ys)
  {
  }

  /** With no offers shown, the city object sits at the default centre, at
      zoom 12, whatever city is active. */
  lemma CityObjectWithoutOffers(activeCity: string)
    ensures var c := CityObject(activeCity, []);
      c.name == activeCity && c.location == Location(DefaultLatitude, DefaultLongitude, CityZoom)
  {
  }

  /** After the city effect's fetch succeeds, every offer the log holds lies
      in the active city, whatever offers the page was showing before. */
  lemma CityFetchKeepsActiveCity(before: seq<StoreActions.Action>, activeCity: string,
      offers: seq<Offer>, all: seq<Offer>)
    ensures var city := CityObject(activeCity, offers);
      var after := before + StoreActions.FetchOffersActions(city, Fulfilled(all));
      var held := StoreActions.MostRecent(after, StoreActions.OffersOf);
      held.Some? && (forall o :: o in held.value ==> o.city.name == activeCity)
      && StoreActions.MostRecent(after, StoreActions.CityOf) == Some(city)
  {
    StoreActions.FetchSuccessEffect(before, CityObject(activeCity, offers), all);
  }

  /** The mounted main page. */
  class MainPage {
    /** The offers the page is given. */
    const offers: seq<Offer>
    var activeCity: string
    var hoveredOfferId: Option<string>

    /** Mounts with the first of the listed cities active and nothing hovered. */
    constructor (cities: seq<string>, offers: seq<Offer>)
      requires |cities| > 0
      ensures this.offers == offers
      ensures activeCity == cities[0] && hoveredOfferId == None
    {
      this.offers := offers;
      activeCity := cities[0];
      hoveredOfferId := None;
    }

    /** The marker of the hovered offer, if any. */
    function Selected(): (p: Option<OfferCoordinate>)
      reads this
      ensures var cs := OfferCoordinates(offers);
        p.Some? ==>
          exists k :: 0 <= k < |cs| && p.value == cs[k] && IsHovered(cs[k], hoveredOfferId)
            && forall j :: 0 <= j < k ==> !IsHovered(cs[j], hoveredOfferId)
      ensures var cs := OfferCoordinates(offers);
        p.None? <==> forall j :: 0 <= j < |cs| ==> !IsHovered(cs[j], hoveredOfferId)
    {
      SelectedPoint(OfferCoordinates(offers), hoveredOfferId)
    }

    /** `handleCityClick`: the clicked city becomes active; the hovered offer
      is left alone. */
    method HandleCityClick(city: string)
      modifies this
      ensures activeCity == city && hoveredOfferId == old(hoveredOfferId)
    {
      activeCity := city;
    }

    /** `handleOfferHover`: the hovered offer is replaced; the active city is
      left alone. */
    method HandleOfferHover(offerId: Option<string>)
      modifies this
      ensures hoveredOfferId == offerId && activeCity == old(activeCity)
    {
      hoveredOfferId := offerId;
    }

    /** The effect run on a change of active city: build the city object and
      run the offers fetch for it, `/offers` settling as `response`. */
    method OnActiveCityChange(store: StoreActions.Dispatcher, response: Settled<seq<Offer>>)
      modifies store
      ensures store.log == old(store.log) + StoreActions.FetchOffersActions(CityObject(activeCity, offers), response)
    {
      var cityObject := CityObject(activeCity, offers);
      StoreActions.FetchOffersByCity(store, cityObject, response);
    }
  }
}
