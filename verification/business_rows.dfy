/**
 * Flattening of one business-detail document into the 23 columns of the
 * business export (business.py, get_all_business_details).
 */
module BusinessRows {
  import opened Wrappers
  import opened Json
  import opened Strings

  /** The column names, in the order of the row dictionary the exporter writes. */
  const Columns: seq<string> := [
    "id", "name", "is_claimed", "is_closed", "url", "price", "rating", "review_count",
    "phone", "photos", "hours_type", "is_open_now", "category_alias", "category_title",
    "latitude", "longitude", "address", "city", "state", "zip_code", "country",
    "cross_streets", "transactions"]

  /** One flattened business.  Text-built columns are strings; copied leaves stay leaves. */
  datatype BusinessRow = BusinessRow(
    id: string, name: Scalar, isClaimed: Scalar, isClosed: Scalar, url: Scalar,
    price: Scalar, rating: Scalar, reviewCount: Scalar, phone: Scalar, photos: string,
    hoursType: Scalar, isOpenNow: Scalar, categoryAlias: string, categoryTitle: string,
    latitude: Scalar, longitude: Scalar, address: string, city: Scalar, state: Scalar,
    zipCode: Scalar, country: Scalar, crossStreets: Scalar, transactions: string)
  {
    /** The row as the cells written under `Columns`. */
    function Cells(): (cells: seq<Scalar>)
      ensures |cells| == |Columns|
      ensures cells[0] == Text(id)
    {
      [Text(id), name, isClaimed, isClosed, url, price, rating, reviewCount, phone,
       Text(photos), hoursType, isOpenNow, Text(categoryAlias), Text(categoryTitle),
       latitude, longitude, Text(address), city, state, zipCode, country, crossStreets,
       Text(transactions)]
    }
  }

  /** The two exceptions flattening can raise, and which end the whole export. */
  datatype FlattenError =
    | EmptyHours        // `hours[0]` on an empty `hours` list
    | HoursTypeUnbound  // `hours_type` read before any business had `hours`

  /** One category's share of `category_alias`: its alias as `str()` prints it, then "; ". */
  function CategoryPiece(c: Category): string {
    Str(Get(c.alias)) + "; "
  }

  /** The accumulated category string: each category's piece, in list order. */
  function AliasConcat(cs: seq<Category>): string
    decreases |cs|
  {
    if cs == [] then "" else AliasConcat(cs[..|cs| - 1]) + CategoryPiece(cs[|cs| - 1])
  }

  /** Accumulating over two lists one after the other is concatenating their strings. */
  lemma {:induction false} AliasConcatAppend(a: seq<Category>, b: seq<Category>)
    ensures AliasConcat(a + b) == AliasConcat(a) + AliasConcat(b)
    decreases |b|
  {
    if b == [] {
      assert a + b == a;
    } else {
      var b', last := b[..|b| - 1], b[|b| - 1];
      assert (a + b)[..|a + b| - 1] == a + b';
      assert (a + b)[|a + b| - 1] == last;
      calc {
        AliasConcat(a + b);
        AliasConcat(a + b') + CategoryPiece(last);
        { AliasConcatAppend(a, b'); }
        (AliasConcat(a) + AliasConcat(b')) + CategoryPiece(last);
        AliasConcat(a) + (AliasConcat(b') + CategoryPiece(last));
        AliasConcat(a) + AliasConcat(b);
      }
    }
  }

  /**
   * The string is empty exactly when there are no categories; otherwise it
   * still ends with "; ", since the result of `strip` is thrown away.
   */
  lemma {:induction false} AliasConcatShape(cs: seq<Category>)
    ensures |AliasConcat(cs)| >= 2 * |cs|
    ensures AliasConcat(cs) == "" <==> cs == []
    ensures cs != [] ==> AliasConcat(cs)[|AliasConcat(cs)| - 2..] == "; "
    decreases |cs|
  {
    if cs != [] {
      AliasConcatShape(cs[..|cs| - 1]);
    }
  }

  /** The value both category columns take: the accumulated aliases, or "" with no `categories`. */
  function CategoryColumn(categories: Option<seq<Category>>): string {
    match categories
    case None => ""
    case Some(cs) => AliasConcat(cs)
  }

  /**
   * The category loop: both strings grow by the alias of each category
   * (`category_title` too is filled from `alias`).
   */
  method BuildCategoryColumns(categories: Option<seq<Category>>) returns (alias: string, title: string)
    ensures alias == title
    ensures alias == CategoryColumn(categories)
  {
    alias, title := "", "";
    if categories.Some? {
      var cs := categories.value;
      var i := 0;
      while i < |cs|
        invariant 0 <= i <= |cs|
        invariant alias == title == AliasConcat(cs[..i])
      {
        assert cs[..i + 1][..i] == cs[..i];
        alias := alias + Str(Get(cs[i].alias)) + "; ";
        title := title + Str(Get(cs[i].alias)) + "; ";
        i := i + 1;
      }
      assert cs[..|cs|] == cs;
    }
  }

  /** The address column of a present `location`: the three lines joined by single spaces. */
  function Address(l: Location): string {
    Str(Get(l.address1)) + " " + Str(Get(l.address2)) + " " + Str(Get(l.address3))
  }

  /**
   * Flattening of one business detail.  `hoursTypeBefore` is the value the
   * variable `hours_type` holds from earlier businesses (`None`: never bound),
   * because a business without `hours` assigns `hour_type` instead.
   */
  function FlattenBusiness(id: string, d: Detail, hoursTypeBefore: Option<Scalar>,
                           repr: seq<Scalar> -> string): (r: Result<BusinessRow, FlattenError>)
    // the two ways flattening raises, and nothing else
    ensures r.Failure? <==> d.hours == Some([]) || (d.hours.None? && hoursTypeBefore.None?)
    ensures r.Failure? ==> r.error == if d.hours.Some? then EmptyHours else HoursTypeUnbound
    ensures r.Success? ==> r.value.id == id
    // hours: the first entry only; without `hours` the previous business's hours type
    ensures r.Success? && d.hours.Some? ==>
      r.value.hoursType == Get(d.hours.value[0].hoursType) &&
      r.value.isOpenNow == Get(d.hours.value[0].isOpenNow)
    ensures r.Success? && d.hours.None? ==>
      hoursTypeBefore == Some(r.value.hoursType) && r.value.isOpenNow == Text("")
    // scalar columns: `.get(key, "")`, the field, or "" when it is missing
    ensures r.Success? ==>
      r.value.name == Get(d.name) && r.value.isClaimed == Get(d.isClaimed) &&
      r.value.isClosed == Get(d.isClosed) && r.value.url == Get(d.url) &&
      r.value.price == Get(d.price) && r.value.rating == Get(d.rating) &&
      r.value.reviewCount == Get(d.reviewCount) && r.value.phone == Get(d.phone)
    ensures r.Success? && d.name.None? ==> r.value.name == Text("")
    ensures r.Success? && d.isClaimed.None? ==> r.value.isClaimed == Text("")
    ensures r.Success? && d.isClosed.None? ==> r.value.isClosed == Text("")
    ensures r.Success? && d.url.None? ==> r.value.url == Text("")
    ensures r.Success? && d.price.None? ==> r.value.price == Text("")
    ensures r.Success? && d.rating.None? ==> r.value.rating == Text("")
    ensures r.Success? && d.reviewCount.None? ==> r.value.reviewCount == Text("")
    ensures r.Success? && d.phone.None? ==> r.value.phone == Text("")
    // categories: both columns carry the aliases
    ensures r.Success? ==> r.value.categoryTitle == r.value.categoryAlias == CategoryColumn(d.categories)
    // optional sub-records: their fields when present, "" columns when missing
    ensures r.Success? && d.coordinates.Some? ==>
      r.value.latitude == Get(d.coordinates.value.latitude) &&
      r.value.longitude == Get(d.coordinates.value.longitude)
    ensures r.Success? && d.coordinates.None? ==> r.value.latitude == r.value.longitude == Text("")
    ensures r.Success? && d.location.Some? ==>
      var l := d.location.value;
      r.value.address == Address(l) && r.value.city == Get(l.city) && r.value.state == Get(l.state) &&
      r.value.zipCode == Get(l.zipCode) && r.value.country == Get(l.country) &&
      r.value.crossStreets == Get(l.crossStreets)
    ensures r.Success? && d.location.None? ==>
      r.value.address == "" && r.value.city == r.value.state == r.value.zipCode ==
      r.value.country == r.value.crossStreets == Text("")
    // list renderings: the rendering with commas replaced, so comma-free and of the same length
    ensures r.Success? ==>
      r.value.photos == ReplaceCommas(ListText(d.photos, repr)) &&
      r.value.transactions == ReplaceCommas(ListText(d.transactions, repr))
    ensures r.Success? ==> ',' !in r.value.photos && |r.value.photos| == |ListText(d.photos, repr)|
    ensures r.Success? ==>
      ',' !in r.value.transactions && |r.value.transactions| == |ListText(d.transactions, repr)|
  {
    if d.hours.Some? && |d.hours.value| == 0 then Failure(EmptyHours)
    else
      var hoursType := if d.hours.Some? then Some(Get(d.hours.value[0].hoursType)) else hoursTypeBefore;
      var isOpenNow := if d.hours.Some? then Get(d.hours.value[0].isOpenNow) else Text("");
      var categories := CategoryColumn(d.categories);
      var latitude := if d.coordinates.Some? then Get(d.coordinates.value.latitude) else Text("");
      var longitude := if d.coordinates.Some? then Get(d.coordinates.value.longitude) else Text("");
      var l := d.location;
      if hoursType.None? then Failure(HoursTypeUnbound)
      else
        Success(BusinessRow(
          id, Get(d.name), Get(d.isClaimed), Get(d.isClosed), Get(d.url), Get(d.price),
          Get(d.rating), Get(d.reviewCount), Get(d.phone),
          ReplaceCommas(ListText(d.photos, repr)),
          hoursType.value, isOpenNow, categories, categories, latitude, longitude,
          if l.Some? then Address(l.value) else "",
          if l.Some? then Get(l.value.city) else Text(""),
          if l.Some? then Get(l.value.state) else Text(""),
          if l.Some? then Get(l.value.zipCode) else Text(""),
          if l.Some? then Get(l.value.country) else Text(""),
          if l.Some? then Get(l.value.crossStreets) else Text(""),
          ReplaceCommas(ListText(d.transactions, repr))))
  }

  /** The flattening statements of the business loop, one after the other. */
  method FlattenDetails(id: string, d: Detail, hoursTypeBefore: Option<Scalar>,
                        repr: seq<Scalar> -> string) returns (r: Result<BusinessRow, FlattenError>)
    ensures r == FlattenBusiness(id, d, hoursTypeBefore, repr)
  {
    var name, isClaimed, isClosed, url := Get(d.name), Get(d.isClaimed), Get(d.isClosed), Get(d.url);
    var price, rating, reviewCount, phone := Get(d.price), Get(d.rating), Get(d.reviewCount), Get(d.phone);
    var photos := ReplaceCommas(ListText(d.photos, repr));
    var hoursType := hoursTypeBefore;
    var isOpenNow;
    if d.hours.Some? {
      if |d.hours.value| == 0 {
        return Failure(EmptyHours);
      }
      hoursType := Some(Get(d.hours.value[0].hoursType));
      isOpenNow := Get(d.hours.value[0].isOpenNow);
    } else {
      // the source binds `hour_type` here, so `hours_type` keeps its value
      isOpenNow := Text("");
    }
    var categoryAlias, categoryTitle := BuildCategoryColumns(d.categories);
    var latitude, longitude := Text(""), Text("");
    if d.coordinates.Some? {
      latitude, longitude := Get(d.coordinates.value.latitude), Get(d.coordinates.value.longitude);
    }
    var address := "";
    var city, state, zipCode, country, crossStreets := Text(""), Text(""), Text(""), Text(""), Text("");
    if d.location.Some? {
      var l := d.location.value;
      address := Address(l);
      city, state, zipCode, country, crossStreets :=
        Get(l.city), Get(l.state), Get(l.zipCode), Get(l.country), Get(l.crossStreets);
    }
    var transactions := ReplaceCommas(ListText(d.transactions, repr));
    if hoursType.None? {
      return Failure(HoursTypeUnbound);
    }
    r := Success(BusinessRow(
      id, name, isClaimed, isClosed, url, price, rating, reviewCount, phone, photos,
      hoursType.value, isOpenNow, categoryAlias, categoryTitle, latitude, longitude,
      address, city, state, zipCode, country, crossStreets, transactions));
  }
}
