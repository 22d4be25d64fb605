/**
 * The JSON documents returned by the business-detail and review endpoints,
 * as records whose fields may be absent.  A field that the source reads with
 * `.get(key, "")` is an `Option`; `None` means the key is missing.
 */
module Json {
  import opened Wrappers

  /**
   * A JSON leaf value as Python holds it after decoding: `null` (Python's
   * `None`), or any other leaf (string, number, boolean) given by the text
   * Python's `str()` produces for it.
   */
  datatype Scalar = Null | Text(rendering: string)

  /** Python's `str(v)` of a leaf: `None` prints as the four letters "None". */
  function Str(v: Scalar): string {
    match v
    case Null => "None"
    case Text(r) => r
  }

  /** `record.get(key, "")`: the field's value, or the empty string when the key is missing. */
  function Get(field: Option<Scalar>): Scalar {
    field.GetOr(Text(""))
  }

  /** One entry of the `hours` list of a business. */
  datatype HoursEntry = HoursEntry(hoursType: Option<Scalar>, isOpenNow: Option<Scalar>)

  /** One entry of the `categories` list of a business. */
  datatype Category = Category(alias: Option<Scalar>, title: Option<Scalar>)

  /** The `coordinates` sub-record of a business. */
  datatype Coordinates = Coordinates(latitude: Option<Scalar>, longitude: Option<Scalar>)

  /** The `location` sub-record of a business. */
  datatype Location = Location(
    address1: Option<Scalar>, address2: Option<Scalar>, address3: Option<Scalar>,
    city: Option<Scalar>, state: Option<Scalar>, zipCode: Option<Scalar>,
    country: Option<Scalar>, crossStreets: Option<Scalar>)

  /**
   * The answer of the business-detail endpoint.  List-valued fields hold
   * their elements; `None` means the key is missing.
   */
  datatype Detail = Detail(
    name: Option<Scalar>, isClaimed: Option<Scalar>, isClosed: Option<Scalar>,
    url: Option<Scalar>, price: Option<Scalar>, rating: Option<Scalar>,
    reviewCount: Option<Scalar>, phone: Option<Scalar>,
    photos: Option<seq<Scalar>>,
    hours: Option<seq<HoursEntry>>,
    categories: Option<seq<Category>>,
    coordinates: Option<Coordinates>,
    location: Option<Location>,
    transactions: Option<seq<Scalar>>)

  /** One review of a business. */
  datatype Review = Review(
    text: Option<Scalar>, url: Option<Scalar>, rating: Option<Scalar>, timeCreated: Option<Scalar>)

  /** The answer of the reviews endpoint. */
  datatype ReviewSet = ReviewSet(total: Option<Scalar>, reviews: Option<seq<Review>>)
}
