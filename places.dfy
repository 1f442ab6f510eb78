/** One place record of a nearby-search page, and its normalisation into the
    row the application shows and exports (app.py, lines 34-53). */
module Places {
  import opened Options

  /** A place object as the provider returns it. Every field is either absent
      or present with its expected type; a key holding JSON null is not modelled. */
  datatype RawPlace = RawPlace(
    name: Option<string>,
    rating: Option<real>,
    vicinity: Option<string>,
    userRatingsTotal: Option<int>,
    placeId: Option<string>,
    types: Option<seq<string>>)

  /** A normalised row. The source's dictionary keys are given beside each field. */
  datatype Business = Business(
    name: Option<string>,     // "Nama Bisnis"
    rating: real,             // "Rating"
    reviewCount: int,         // "Jumlah Review"
    address: Option<string>,  // "Alamat"
    mapsLink: string,         // "Google Maps Link"
    category: string)         // "Kategori"

  const MapsLinkPrefix: string := "https://www.google.com/maps/place/?q=place_id:"
  const CategorySeparator: string := ", "
  const MaxCategories: nat := 3

  /** Python's `sep.join(parts)`. */
  function Join(sep: string, parts: seq<string>): string
    decreases |parts|
  {
    if |parts| == 0 then ""
    else if |parts| == 1 then parts[0]
    else parts[0] + sep + Join(sep, parts[1..])
  }

  /** The slice `types[:3]`. */
  function CategoryTags(types: seq<string>): (tags: seq<string>)
    ensures |tags| <= MaxCategories
    ensures |types| >= MaxCategories ==> |tags| == MaxCategories
    ensures |types| < MaxCategories ==> tags == types
    ensures tags <= types
  {
    types[..if |types| < MaxCategories then |types| else MaxCategories]
  }

  /** The "Kategori" column: `", ".join(place.get('types', [])[:3])`. */
  function Category(types: Option<seq<string>>): string
  {
    Join(CategorySeparator, CategoryTags(types.GetOr([])))
  }

  /** The text an f-string gives for `place.get('place_id')`: the identifier,
      or Python's rendering of None when the key is missing. */
  function PlaceIdText(placeId: Option<string>): string
  {
    placeId.GetOr("None")
  }

  /** The "Google Maps Link" column. */
  function MapsLink(placeId: Option<string>): string
  {
    MapsLinkPrefix + PlaceIdText(placeId)
  }

  /** Normalises one place record (app.py, lines 36-53). */
  function Normalize(p: RawPlace): Business
  {
    Business(
      name := p.name,
      rating := p.rating.GetOr(0.0),
      reviewCount := p.userRatingsTotal.GetOr(0),
      address := p.vicinity,
      mapsLink := MapsLink(p.placeId),
      category := Category(p.types))
  }

  /** The rows one page contributes: every record normalised, in page order. */
  function PageRecords(results: seq<RawPlace>): seq<Business>
  {
    seq(|results|, j requires 0 <= j < |results| => Normalize(results[j]))
  }

  /** Row `j` of a page is record `j` normalised. */
  lemma PageRecordsAt(results: seq<RawPlace>, j: nat)
    requires j < |results|
    ensures |PageRecords(results)| == |results|
    ensures PageRecords(results)[j] == Normalize(results[j])
  {
  }

  /** Normalising one more record of a page appends exactly its row. */
  lemma PageRecordsPrefix(results: seq<RawPlace>, n: nat)
    requires n < |results|
    ensures PageRecords(results[..n + 1]) == PageRecords(results[..n]) + [Normalize(results[n])]
  {
  }

  /** Defaulting: a missing rating or review count becomes 0, a present one is
      copied; name and address are copied as they are, absent or not. */
  lemma NormalizeFields(p: RawPlace)
    ensures p.rating == None ==> Normalize(p).rating == 0.0
    ensures p.rating.Some? ==> Normalize(p).rating == p.rating.value
    ensures p.userRatingsTotal == None ==> Normalize(p).reviewCount == 0
    ensures p.userRatingsTotal.Some? ==> Normalize(p).reviewCount == p.userRatingsTotal.value
    ensures Normalize(p).name == p.name && Normalize(p).address == p.vicinity
  {
  }

  /** The map link is the fixed prefix followed by the place identifier, so the
      identifier can be read back from the link; a missing identifier renders as "None". */
  lemma MapsLinkRoundTrip(id: string)
    ensures MapsLink(None) == MapsLinkPrefix + "None"
    ensures |MapsLink(Some(id))| == |MapsLinkPrefix| + |id|
    ensures MapsLink(Some(id))[..|MapsLinkPrefix|] == MapsLinkPrefix
    ensures MapsLink(Some(id))[|MapsLinkPrefix|..] == id
  {
  }

  /** Missing types give an empty category. */
  lemma CategoryMissing()
    ensures Category(None) == "" && Category(Some([])) == ""
  {
  }

  predicate NoComma(t: string) {
    forall k :: 0 <= k < |t| ==> t[k] != ','
  }

  /** Splits `s` at every occurrence of `", "`; `cur` is the piece read so far.
      It is the inverse of `Join(", ", ·)` on comma-free tags (SplitJoin). */
  function SplitFrom(s: string, cur: string): (pieces: seq<string>)
    ensures |pieces| >= 1
    decreases |s|
  {
    if s == [] then [cur]
    else if |s| >= 2 && s[0] == ',' && s[1] == ' ' then [cur] + SplitFrom(s[2..], "")
    else SplitFrom(s[1..], cur + [s[0]])
  }

  function SplitTags(s: string): seq<string> {
    SplitFrom(s, "")
  }

  /** Comma-free text is read into the current piece unchanged. */
  lemma {:induction false} SplitPlain(t: string, cur: string, rest: string)
    requires NoComma(t)
    ensures SplitFrom(t + rest, cur) == SplitFrom(rest, cur + t)
    decreases |t|
  {
    if t != [] {
      assert (t + rest)[0] == t[0];
      assert (t + rest)[1..] == t[1..] + rest;
      SplitPlain(t[1..], cur + [t[0]], rest);
      assert cur + [t[0]] + t[1..] == cur + t;
    } else {
      assert t + rest == rest && cur + t == cur;
    }
  }

  /** Joining comma-free tags with ", " and splitting the text again gives the tags back. */
  lemma {:induction false} SplitJoin(parts: seq<string>)
    requires |parts| >= 1
    requires forall k :: 0 <= k < |parts| ==> NoComma(parts[k])
    ensures SplitTags(Join(CategorySeparator, parts)) == parts
    decreases |parts|
  {
    if |parts| == 1 {
      SplitPlain(parts[0], "", "");
      assert parts[0] + "" == parts[0];
      assert "" + parts[0] == parts[0];
    } else {
      var rest := Join(CategorySeparator, parts[1..]);
      assert Join(CategorySeparator, parts) == parts[0] + (CategorySeparator + rest);
      SplitPlain(parts[0], "", CategorySeparator + rest);
      assert "" + parts[0] == parts[0];
      var s := CategorySeparator + rest;
      assert s[0] == ',' && s[1] == ' ' && s[2..] == rest;
      SplitJoin(parts[1..]);
      assert parts == [parts[0]] + parts[1..];
    }
  }

  /** The category column holds exactly the first min(3, |types|) tags in their
      original order: splitting it recovers them when no tag contains a comma. */
  lemma CategoryRoundTrip(types: seq<string>)
    requires |types| >= 1
    requires forall k :: 0 <= k < |types| ==> NoComma(types[k])
    ensures SplitTags(Category(Some(types))) == CategoryTags(types)
    ensures |SplitTags(Category(Some(types)))| == if |types| < 3 then |types| else 3
  {
    var tags := CategoryTags(types);
    assert forall k :: 0 <= k < |tags| ==> tags[k] == types[k];
    SplitJoin(tags);
  }
}
