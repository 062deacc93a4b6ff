/**
 * The Movie schema: the shape of a stored movie document, the casting that
 * the schema applies before validation (trimming and the createdAt default),
 * and its field constraints.
 */
module MovieModel {
  import opened Basics

  /** A Movie document as the collection holds it. */
  datatype Movie = Movie(
    id: nat,
    title: string,
    year: int,
    genre: string,
    director: string,
    plot: Option<string>,
    posterUrl: Option<string>,
    createdBy: Option<nat>,
    createdAt: int)

  /** The fields handed to the schema, each of which may be absent. */
  datatype MovieFields = MovieFields(
    title: Option<string>,
    year: Option<int>,
    genre: Option<string>,
    director: Option<string>,
    plot: Option<string>,
    posterUrl: Option<string>,
    createdBy: Option<nat>,
    createdAt: Option<int>)

  const MinYear: int := 1888
  const PlotMaxLength: nat := 1000

  const TitleRequired := "Movie title is required"
  const YearRequired := "Release year is required"
  const YearTooEarly := "Year must be at least 1888"
  const YearInFuture := "Year cannot be in the future"
  const GenreRequired := "Genre is required"
  const DirectorRequired := "Director is required"
  const PlotTooLong := "Plot description cannot exceed 1000 characters"
  const PosterNotHttp := "Poster URL must be a valid HTTP/HTTPS URL"

  /** No two documents share an id. */
  ghost predicate UniqueIds(docs: seq<Movie>)
  {
    forall i, j :: 0 <= i < j < |docs| ==> docs[i].id != docs[j].id
  }

  // ---------------------------------------------------------------------
  // Trimming (the `trim: true` option of the string fields)
  // ---------------------------------------------------------------------

  /** The characters `String.prototype.trim` removes: white space and line terminators. */
  predicate IsWhitespace(c: char)
  {
    || c == '\t' || c == '\n' || c == '\U{B}' || c == '\U{C}' || c == '\r' || c == ' '
    || c == '\U{A0}' || c == '\U{1680}' || ('\U{2000}' <= c <= '\U{200A}')
    || c == '\U{2028}' || c == '\U{2029}' || c == '\U{202F}' || c == '\U{205F}'
    || c == '\U{3000}' || c == '\U{FEFF}'
  }

  /** Drops the leading white space. */
  function TrimStart(s: string): (r: string)
    ensures |r| <= |s| && r == s[|s| - |r|..]
    ensures r == [] || !IsWhitespace(r[0])
    ensures forall i :: 0 <= i < |s| - |r| ==> IsWhitespace(s[i])
  {
    if s != [] && IsWhitespace(s[0]) then TrimStart(s[1..]) else s
  }

  /** Drops the trailing white space. */
  function TrimEnd(s: string): (r: string)
    ensures |r| <= |s| && r == s[..|r|]
    ensures r == [] || !IsWhitespace(r[|r| - 1])
    ensures forall i :: |r| <= i < |s| ==> IsWhitespace(s[i])
  {
    if s != [] && IsWhitespace(s[|s| - 1]) then TrimEnd(s[..|s| - 1]) else s
  }

  /** `String.prototype.trim`: drops the white space at both ends. */
  function Trim(s: string): (r: string)
    ensures |r| <= |s|
    ensures r == [] || (!IsWhitespace(r[0]) && !IsWhitespace(r[|r| - 1]))
  {
    TrimEnd(TrimStart(s))
  }

  /** What trimming keeps is an infix of the input, and everything it drops is white space. */
  lemma TrimDropsOnlyWhitespace(s: string)
    ensures var lo := |s| - |TrimStart(s)|;
      && lo + |Trim(s)| <= |s| && Trim(s) == s[lo..lo + |Trim(s)|]
      && (forall i :: 0 <= i < lo ==> IsWhitespace(s[i]))
      && (forall i :: lo + |Trim(s)| <= i < |s| ==> IsWhitespace(s[i]))
  {
    var t := TrimStart(s);
    var lo := |s| - |t|;
    var r := TrimEnd(t);
    assert t == s[lo..];
    assert r == t[..|r|];
    forall i | lo + |r| <= i < |s|
      ensures IsWhitespace(s[i])
    {
      assert s[i] == t[i - lo];
    }
  }

  /** Trimming a string that is already trimmed changes nothing. */
  lemma {:induction false} TrimIdempotent(s: string)
    ensures Trim(Trim(s)) == Trim(s)
  {
    var r := Trim(s);
    if r != [] {
      assert TrimStart(r) == r;
      assert TrimEnd(r) == r;
    }
  }

  /** A string trims to the empty string exactly when it is all white space. */
  lemma {:induction false} TrimEmptyIffBlank(s: string)
    ensures Trim(s) == "" <==> forall i :: 0 <= i < |s| ==> IsWhitespace(s[i])
  {
  }

  // ---------------------------------------------------------------------
  // Casting: what the schema applies before validating or storing
  // ---------------------------------------------------------------------

  function TrimField(o: Option<string>): Option<string>
  {
    match o
    case None => None
    case Some(s) => Some(Trim(s))
  }

  /**
   * The document the schema builds from the given fields: the string fields
   * are trimmed and an absent createdAt takes the current time `now`.
   */
  function Cast(f: MovieFields, now: int): (r: MovieFields)
    ensures r.year == f.year && r.createdBy == f.createdBy
    ensures r.createdAt.Some?
    ensures r.createdAt.value == (if f.createdAt.Some? then f.createdAt.value else now)
    ensures r.title.Some? == f.title.Some? && r.genre.Some? == f.genre.Some?
    ensures r.director.Some? == f.director.Some? && r.plot.Some? == f.plot.Some?
    ensures r.posterUrl.Some? == f.posterUrl.Some?
    ensures r.title == TrimField(f.title) && r.genre == TrimField(f.genre)
    ensures r.director == TrimField(f.director) && r.plot == TrimField(f.plot)
    ensures r.posterUrl == TrimField(f.posterUrl)
  {
    f.(title := TrimField(f.title),
       genre := TrimField(f.genre),
       director := TrimField(f.director),
       plot := TrimField(f.plot),
       posterUrl := TrimField(f.posterUrl),
       createdAt := Some(if f.createdAt.Some? then f.createdAt.value else now))
  }

  /** Casting a cast document again changes nothing, whatever the clock then reads. */
  lemma CastIdempotent(f: MovieFields, now: int, later: int)
    ensures Cast(Cast(f, now), later) == Cast(f, now)
  {
    forall o: Option<string> ensures TrimField(TrimField(o)) == TrimField(o) {
      if o.Some? { TrimIdempotent(o.value); }
    }
  }

  // ---------------------------------------------------------------------
  // Validation
  // ---------------------------------------------------------------------

  /** The year window: `min: 1888` and `max: currentYear + 1`. */
  predicate YearInRange(y: int, currentYear: int)
  {
    MinYear <= y <= currentYear + 1
  }

  predicate IsLineTerminator(c: char)
  {
    c == '\n' || c == '\r' || c == '\U{2028}' || c == '\U{2029}'
  }

  /** The pattern `^https?:\/\/.+`: the scheme, then at least one character that `.` matches. */
  predicate MatchesHttpUrl(s: string)
  {
    || (|s| > 7 && s[..7] == "http://" && !IsLineTerminator(s[7]))
    || (|s| > 8 && s[..8] == "https://" && !IsLineTerminator(s[8]))
  }

  /** Every constraint of the schema holds of the (cast) document. */
  predicate IsValid(doc: MovieFields, currentYear: int)
    ensures IsValid(doc, currentYear) ==>
      Truthy(doc.title) && Truthy(doc.genre) && Truthy(doc.director) && doc.year.Some?
  {
    && Truthy(doc.title)
    && doc.year.Some? && YearInRange(doc.year.value, currentYear)
    && Truthy(doc.genre)
    && Truthy(doc.director)
    && (doc.plot.None? || |doc.plot.value| <= PlotMaxLength)
    && (doc.posterUrl.None? || doc.posterUrl.value == "" || MatchesHttpUrl(doc.posterUrl.value))
  }

  function RequiredError(o: Option<string>, message: string): seq<string>
  {
    if Truthy(o) then [] else [message]
  }

  function YearErrors(y: Option<int>, currentYear: int): seq<string>
  {
    if y.None? then [YearRequired]
    else if y.value < MinYear then [YearTooEarly]
    else if y.value > currentYear + 1 then [YearInFuture]
    else []
  }

  function PlotErrors(plot: Option<string>): seq<string>
  {
    if plot.Some? && |plot.value| > PlotMaxLength then [PlotTooLong] else []
  }

  function PosterErrors(url: Option<string>): seq<string>
  {
    if url.Some? && url.value != "" && !MatchesHttpUrl(url.value) then [PosterNotHttp] else []
  }

  /**
   * The messages of the failed validators, one per failing path, in the
   * order the schema declares its paths. The document is valid exactly
   * when the list is empty.
   */
  function ValidationErrors(doc: MovieFields, currentYear: int): (r: seq<string>)
    ensures r == [] <==> IsValid(doc, currentYear)
    ensures !Truthy(doc.title) ==> TitleRequired in r
    ensures doc.year.None? ==> YearRequired in r
    ensures doc.year.Some? && doc.year.value < MinYear ==> YearTooEarly in r
    ensures doc.year.Some? && MinYear <= doc.year.value && doc.year.value > currentYear + 1 ==> YearInFuture in r
    ensures !Truthy(doc.genre) ==> GenreRequired in r
    ensures !Truthy(doc.director) ==> DirectorRequired in r
    ensures doc.plot.Some? && |doc.plot.value| > PlotMaxLength ==> PlotTooLong in r
    ensures doc.posterUrl.Some? && doc.posterUrl.value != "" && !MatchesHttpUrl(doc.posterUrl.value) ==> PosterNotHttp in r
    ensures |r| <= 6
  {
    RequiredError(doc.title, TitleRequired)
    + YearErrors(doc.year, currentYear)
    + RequiredError(doc.genre, GenreRequired)
    + RequiredError(doc.director, DirectorRequired)
    + PlotErrors(doc.plot)
    + PosterErrors(doc.posterUrl)
  }

  /** The list is the concatenation of the per-path lists, in path order. */
  lemma ValidationErrorsParts(doc: MovieFields, currentYear: int, m: string)
    ensures m in ValidationErrors(doc, currentYear) <==>
      || m in RequiredError(doc.title, TitleRequired)
      || m in YearErrors(doc.year, currentYear)
      || m in RequiredError(doc.genre, GenreRequired)
      || m in RequiredError(doc.director, DirectorRequired)
      || m in PlotErrors(doc.plot)
      || m in PosterErrors(doc.posterUrl)
  {
    var t := RequiredError(doc.title, TitleRequired);
    var y := YearErrors(doc.year, currentYear);
    var g := RequiredError(doc.genre, GenreRequired);
    var d := RequiredError(doc.director, DirectorRequired);
    var p := PlotErrors(doc.plot);
    var u := PosterErrors(doc.posterUrl);
    assert ValidationErrors(doc, currentYear) == t + y + g + d + p + u;
  }

  /** The messages of the three required string paths. */
  lemma RequiredMessages(doc: MovieFields, currentYear: int)
    ensures var r := ValidationErrors(doc, currentYear);
      && (TitleRequired in r <==> !Truthy(doc.title))
      && (GenreRequired in r <==> !Truthy(doc.genre))
      && (DirectorRequired in r <==> !Truthy(doc.director))
  {
    // The eight messages have eight different lengths.
    assert |TitleRequired| == 23 && |YearRequired| == 24 && |YearTooEarly| == 26 && |YearInFuture| == 28;
    assert |GenreRequired| == 17 && |DirectorRequired| == 20 && |PlotTooLong| == 46 && |PosterNotHttp| == 41;
    ValidationErrorsParts(doc, currentYear, TitleRequired);
    ValidationErrorsParts(doc, currentYear, GenreRequired);
    ValidationErrorsParts(doc, currentYear, DirectorRequired);
  }

  /** The messages of the year, plot and poster validators. */
  lemma BoundMessages(doc: MovieFields, currentYear: int)
    ensures var r := ValidationErrors(doc, currentYear);
      && (YearRequired in r <==> doc.year.None?)
      && (YearTooEarly in r <==> doc.year.Some? && doc.year.value < MinYear)
      && (YearInFuture in r <==> doc.year.Some? && MinYear <= doc.year.value && doc.year.value > currentYear + 1)
      && (PlotTooLong in r <==> doc.plot.Some? && |doc.plot.value| > PlotMaxLength)
      && (PosterNotHttp in r <==>
            doc.posterUrl.Some? && doc.posterUrl.value != "" && !MatchesHttpUrl(doc.posterUrl.value))
  {
    assert |TitleRequired| == 23 && |YearRequired| == 24 && |YearTooEarly| == 26 && |YearInFuture| == 28;
    assert |GenreRequired| == 17 && |DirectorRequired| == 20 && |PlotTooLong| == 46 && |PosterNotHttp| == 41;
    ValidationErrorsParts(doc, currentYear, YearRequired);
    ValidationErrorsParts(doc, currentYear, YearTooEarly);
    ValidationErrorsParts(doc, currentYear, YearInFuture);
    ValidationErrorsParts(doc, currentYear, PlotTooLong);
    ValidationErrorsParts(doc, currentYear, PosterNotHttp);
  }

  /**
   * The converse of the contract of ValidationErrors: a message is in the
   * list only when its own constraint fails, so the list names exactly the
   * failing constraints.
   */
  lemma ValidationMessages(doc: MovieFields, currentYear: int)
    ensures var r := ValidationErrors(doc, currentYear);
      && (TitleRequired in r <==> !Truthy(doc.title))
      && (YearRequired in r <==> doc.year.None?)
      && (YearTooEarly in r <==> doc.year.Some? && doc.year.value < MinYear)
      && (YearInFuture in r <==> doc.year.Some? && MinYear <= doc.year.value && doc.year.value > currentYear + 1)
      && (GenreRequired in r <==> !Truthy(doc.genre))
      && (DirectorRequired in r <==> !Truthy(doc.director))
      && (PlotTooLong in r <==> doc.plot.Some? && |doc.plot.value| > PlotMaxLength)
      && (PosterNotHttp in r <==>
            doc.posterUrl.Some? && doc.posterUrl.value != "" && !MatchesHttpUrl(doc.posterUrl.value))
  {
    RequiredMessages(doc, currentYear);
    BoundMessages(doc, currentYear);
  }

  /**
   * The year maximum only grows with the clock: a document valid under one
   * maximum stays valid under every later one.
   */
  lemma ValidLater(doc: MovieFields, currentYear: int, later: int)
    requires IsValid(doc, currentYear) && currentYear <= later
    ensures IsValid(doc, later)
  {
  }

  /**
   * Whether the schema accepts the given fields: they are cast first, so
   * white space around a value never decides validity.
   */
  predicate Accepts(f: MovieFields, now: int, currentYear: int)
    ensures Accepts(f, now, currentYear) <==> ValidationErrors(Cast(f, now), currentYear) == []
    ensures Accepts(f, now, currentYear) ==>
      && f.title.Some? && Trim(f.title.value) != ""
      && f.genre.Some? && Trim(f.genre.value) != ""
      && f.director.Some? && Trim(f.director.value) != ""
      && f.year.Some?
  {
    IsValid(Cast(f, now), currentYear)
  }

  /** A title, genre or director that is absent or only white space is rejected. */
  lemma {:induction false} BlankRequiredRejected(f: MovieFields, now: int, currentYear: int)
    requires || f.title.None? || f.genre.None? || f.director.None?
             || (f.title.Some? && forall i :: 0 <= i < |f.title.value| ==> IsWhitespace(f.title.value[i]))
    ensures !Accepts(f, now, currentYear)
  {
    if f.title.Some? && forall i :: 0 <= i < |f.title.value| ==> IsWhitespace(f.title.value[i]) {
      TrimEmptyIffBlank(f.title.value);
    }
  }

  /** With every other path valid, exactly the years 1888 .. currentYear + 1 are accepted. */
  lemma YearWindow(doc: MovieFields, y: int, currentYear: int)
    requires IsValid(doc, currentYear)
    ensures IsValid(doc.(year := Some(y)), currentYear) <==> MinYear <= y <= currentYear + 1
  {
  }

  /** A poster that is present and non-empty is accepted exactly when it is an http(s) URL. */
  lemma PosterPattern(doc: MovieFields, url: string, currentYear: int)
    requires IsValid(doc, currentYear) && url != ""
    ensures IsValid(doc.(posterUrl := Some(url)), currentYear) <==>
              || (|url| > 7 && url[..7] == "http://" && !IsLineTerminator(url[7]))
              || (|url| > 8 && url[..8] == "https://" && !IsLineTerminator(url[8]))
  {
  }
}
