/**
 * The immutable records of the discovery pipeline: a movie as the remote
 * API returns it (with its two derived strings) and the user's discover
 * filter. Both are Kotlin data classes, so equality is field-wise and no
 * operation changes a value in place.
 */
module Entity {
  import opened Wrappers
  import opened Constants
  import Decimal

  /** Kotlin's Int: a 32-bit two's complement integer. */
  type Int32 = x: int | -0x8000_0000 <= x < 0x8000_0000

  datatype MovieEntity = MovieEntity(id: Int32, title: string, poster_path: string)

  /** The poster's absolute URL: the image base URL followed by the poster path. */
  function ImageUrl(m: MovieEntity): (url: string)
    ensures |url| == |IMAGE_BASE_URL| + |m.poster_path|
    ensures url[..|IMAGE_BASE_URL|] == IMAGE_BASE_URL
    ensures url[|IMAGE_BASE_URL|..] == m.poster_path
  {
    IMAGE_BASE_URL + m.poster_path
  }

  /** The id as Int.toString renders it. */
  function IdString(m: MovieEntity): (s: string)
    ensures 1 <= |s| <= 11
    ensures Decimal.ParseDecimal(s) == Some(m.id as int)
    ensures s[0] == '-' <==> m.id < 0
    ensures m.id >= 0 ==> Decimal.AllDigits(s) && (s[0] == '0' <==> m.id == 0)
    ensures m.id == 0 ==> s == "0"
    ensures m.id < 0 ==> Decimal.AllDigits(s[1..]) && s[1] != '0'
  {
    Decimal.IntRoundTrip(m.id);
    var magnitude: nat := if m.id < 0 then 0 - m.id as int else m.id as int;
    Decimal.NatToDecimalLength(magnitude, 10);
    Decimal.IntToDecimal(m.id)
  }

  /** The derived URL depends on the poster path alone. */
  lemma ImageUrlDeterminedByPoster(a: MovieEntity, b: MovieEntity)
    ensures ImageUrl(a) == ImageUrl(b) <==> a.poster_path == b.poster_path
  {
  }

  /** Two movies have the same id string exactly when they have the same id. */
  lemma IdStringDeterminedById(a: MovieEntity, b: MovieEntity)
    ensures IdString(a) == IdString(b) <==> a.id == b.id
  {
  }

  /**
   * Equality of movies is structural over the three stored fields; the
   * derived strings follow from them.
   */
  lemma MovieEqualityIsStructural(a: MovieEntity, b: MovieEntity)
    ensures a == b <==> a.id == b.id && a.title == b.title && a.poster_path == b.poster_path
    ensures a == b ==> ImageUrl(a) == ImageUrl(b) && IdString(a) == IdString(b)
  {
  }

  /** The user's discover filter: five immutable fields. */
  datatype DiscoverFilter = DiscoverFilter(
    minVote: Int32,
    includeAdult: bool,
    sortType: string,
    sortBy: string,
    releaseYear: string)

  lemma FilterEqualityIsFieldWise(f: DiscoverFilter, g: DiscoverFilter)
    ensures f == g <==>
      && f.minVote == g.minVote
      && f.includeAdult == g.includeAdult
      && f.sortType == g.sortType
      && f.sortBy == g.sortBy
      && f.releaseYear == g.releaseYear
  {
  }
}
