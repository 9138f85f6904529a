/** The entities the client receives from the rental API.
    Only the fields the modelled logic reads or writes are kept; the rest of an
    offer (price, rating, type, goods, images, description, host, premium flag)
    is carried by the view and never inspected by the logic. */
module Types {

  /** A geographic position with a map zoom level. Latitude and longitude are
      copied through and never computed on. */
  datatype Location = Location(latitude: real, longitude: real, zoom: int)

  /** A city: its name is the filter key, its location the map centre. */
  datatype City = City(name: string, location: Location)

  /** A rentable listing. `isFavorite` is the only field changed after a fetch. */
  datatype Offer = Offer(
    id: string,
    title: string,
    city: City,
    location: Location,
    isFavorite: bool,
    bedrooms: int,
    maxAdults: int)

  /** A review of an offer. */
  datatype Comment = Comment(id: string, comment: string, rating: int)

  /** A map marker. */
  datatype Point = Point(title: string, lat: real, long: real)
}
