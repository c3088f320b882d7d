/** The place records that flow from the places-search provider through the
    classifier to the browser, as far as the core reads them. Every field the
    provider may omit is an Option. */
module Places {
  import opened Wrappers

  /** `opening_hours`; `open_now` may itself be absent. */
  datatype Hours = Hours(openNow: Option<bool>)

  datatype Place = Place(
    placeId: Option<string>,
    name: Option<string>,
    formattedAddress: Option<string>,
    vicinity: Option<string>,
    types: Option<seq<string>>,
    rating: Option<real>,
    userRatingsTotal: Option<int>,
    openingHours: Option<Hours>)

  /** Coordinates as the text the request builders interpolate. */
  datatype Location = Location(lat: string, lng: string)
}
