/**
 * Mapping of The Movie Database (TMDb) records to a film
 * (pkg/models/mappers/film_mapper.go, `MapTmdbToFilm`). The JSON decoding is
 * outside the model: each input arrives already decoded, or as the decoder's
 * failure.
 */
module FilmMapping {

  import opened Wrappers
  import opened Strings
  import opened RfcDates

  /** Where TMDb serves images at 500 pixels wide. */
  const ImageBase := "https://image.tmdb.org/t/p/w500"

  /** The character shown for a cast entry without one. */
  const UnknownCharacter := "Unknown Character"

  /** The decoded film record (`TmdbFilm`). */
  datatype TmdbFilm = TmdbFilm(title: string, posterPath: string, releaseDate: string, runtime: int,
                               genres: seq<string>, spokenLanguages: seq<string>, overview: string,
                               imdbId: string, originalLanguage: string)

  /** One entry of the decoded cast list. */
  datatype TmdbCastEntry = TmdbCastEntry(name: string, profilePath: string, character: string)

  /** One entry of the decoded crew list. */
  datatype TmdbCrewEntry = TmdbCrewEntry(name: string, profilePath: string, job: string)

  /** The decoded credits record (`TmdbCastResponse`). */
  datatype TmdbCredits = TmdbCredits(cast: seq<TmdbCastEntry>, crew: seq<TmdbCrewEntry>)

  datatype CastMember = CastMember(name: string, imgUrl: string, character: string)
  datatype Director = Director(name: string, imgUrl: string)

  /** The stored film; its review list starts empty and is not modelled. */
  datatype Film = Film(name: string, imgUrl: string, releaseDate: DateTime, screeningDate: DateTime,
                       duration: int, language: string, overview: string, genres: seq<string>,
                       imdbUrl: string, cast: seq<CastMember>, directors: seq<Director>)

  /** The film and, as the function returns them separately, its directors and cast. */
  datatype Mapped = Mapped(film: Film, directors: seq<Director>, cast: seq<CastMember>)

  /** Which decoding failed; `detail` is the decoder's own message. */
  datatype MapError = BadFilmData(detail: string) | BadCastData(detail: string)

  function Message(e: MapError): string {
    match e
    case BadFilmData(detail) => "failed to parse film data: " + detail
    case BadCastData(detail) => "failed to parse cast data: " + detail
  }

  function Min(a: int, b: int): int {
    if a <= b then a else b
  }

  /**
   * One cast entry as stored: a character that trims to nothing (is `Blank`,
   * by `TrimSpaceEmptyIff`) becomes `Unknown Character`.
   */
  function CastMemberOf(c: TmdbCastEntry): CastMember {
    CastMember(c.name, ImageBase + c.profilePath, if Blank(c.character) then UnknownCharacter else c.character)
  }

  function DirectorOf(c: TmdbCrewEntry): Director {
    Director(c.name, ImageBase + c.profilePath)
  }

  /** The directors among the crew, in crew order. */
  function DirectorsOf(crew: seq<TmdbCrewEntry>): seq<Director>
    decreases |crew|
  {
    if crew == [] then []
    else
      var last := crew[|crew| - 1];
      DirectorsOf(crew[..|crew| - 1]) + (if last.job == "Director" then [DirectorOf(last)] else [])
  }

  /** The film's language: the first spoken language's name, or empty. */
  function LanguageOf(spoken: seq<string>): (r: string)
    ensures spoken == [] ==> r == ""
    ensures spoken != [] ==> r == spoken[0]
  {
    if |spoken| > 0 then spoken[0] else ""
  }

  /** The `%s` in `https://www.imdb.com/title/%s/`. */
  function ImdbUrl(id: string): (r: string)
    ensures HasPrefix(r, "https://www.imdb.com/title/") && HasSuffix(r, "/")
    ensures |r| == |"https://www.imdb.com/title/"| + |id| + 1
    ensures r[|"https://www.imdb.com/title/"|..|r| - 1] == id
  {
    "https://www.imdb.com/title/" + id + "/"
  }

  /** `time.Parse("2006-01-02", …)` with its error discarded: the zero time on failure. */
  function ReleaseDateOf(s: string): (r: DateTime)
    ensures ParseIsoDate(s).Some? ==> r == ParseIsoDate(s).value
    ensures ParseIsoDate(s).None? ==> r == ZeroTime
  {
    match ParseIsoDate(s)
    case Some(t) => t
    case None => ZeroTime
  }

  /** Each entry mapped on its own, in order. */
  function CastOf(entries: seq<TmdbCastEntry>): (r: seq<CastMember>)
    ensures |r| == |entries|
    decreases |entries|
  {
    if entries == [] then []
    else CastOf(entries[..|entries| - 1]) + [CastMemberOf(entries[|entries| - 1])]
  }

  lemma {:induction false} CastOfAt(entries: seq<TmdbCastEntry>, i: int)
    requires 0 <= i < |entries|
    ensures CastOf(entries)[i] == CastMemberOf(entries[i])
    decreases |entries|
  {
    var front := entries[..|entries| - 1];
    if i < |front| {
      CastOfAt(front, i);
      assert CastOf(entries)[i] == CastOf(front)[i];
      assert front[i] == entries[i];
    }
  }

  /** The cast loop: the first four entries, stopping at index 4. */
  method MapCast(entries: seq<TmdbCastEntry>) returns (cast: seq<CastMember>)
    ensures |cast| == Min(4, |entries|)
    ensures forall i :: 0 <= i < |cast| ==> cast[i] == CastMemberOf(entries[i])
  {
    cast := [];
    var i := 0;
    while i < |entries|
      invariant 0 <= i <= |entries| && i <= 4
      invariant cast == CastOf(entries[..i])
    {
      if i >= 4 {
        break;
      }
      var c := entries[i];
      var character := c.character;
      TrimSpaceEmptyIff(character);
      if TrimSpace(character) == "" {
        character := UnknownCharacter;
      }
      cast := cast + [CastMember(c.name, ImageBase + c.profilePath, character)];
      assert entries[..i + 1][..i] == entries[..i];
      i := i + 1;
    }
    forall k | 0 <= k < i
      ensures cast[k] == CastMemberOf(entries[k])
    {
      CastOfAt(entries[..i], k);
      assert entries[..i][k] == entries[k];
    }
  }

  /** The crew loop: the entries whose job is `Director`. */
  method MapDirectors(crew: seq<TmdbCrewEntry>) returns (directors: seq<Director>)
    ensures directors == DirectorsOf(crew)
  {
    directors := [];
    var i := 0;
    while i < |crew|
      invariant 0 <= i <= |crew|
      invariant directors == DirectorsOf(crew[..i])
    {
      if crew[i].job == "Director" {
        directors := directors + [Director(crew[i].name, ImageBase + crew[i].profilePath)];
      }
      assert crew[..i + 1][..i] == crew[..i];
      i := i + 1;
    }
    assert crew[..i] == crew;
  }

  /** The genre loop: the names, in order. */
  method MapGenres(genres: seq<string>) returns (names: seq<string>)
    ensures names == genres
  {
    names := [];
    var i := 0;
    while i < |genres|
      invariant 0 <= i <= |genres|
      invariant names == genres[..i]
    {
      names := names + [genres[i]];
      i := i + 1;
    }
    assert genres[..i] == genres;
  }

  /** `MapTmdbToFilm`: the decoded film and credits become a film with its directors and cast. */
  method MapTmdbToFilm(filmData: Result<TmdbFilm, string>, castData: Result<TmdbCredits, string>,
                       screeningDate: DateTime) returns (r: Result<Mapped, MapError>)
    ensures filmData.Err? ==> r == Err(BadFilmData(filmData.error))
    ensures filmData.Ok? && castData.Err? ==> r == Err(BadCastData(castData.error))
    ensures r.Ok? <==> filmData.Ok? && castData.Ok?
    ensures r.Ok? ==>
              var f := filmData.value;
              var credits := castData.value;
              var film := r.value.film;
              && film.name == f.title
              && film.imgUrl == ImageBase + f.posterPath
              && film.releaseDate == ReleaseDateOf(f.releaseDate)
              && film.screeningDate == screeningDate
              && film.duration == f.runtime
              && film.language == LanguageOf(f.spokenLanguages)
              && film.overview == f.overview
              && film.genres == f.genres
              && film.imdbUrl == ImdbUrl(f.imdbId)
              && |film.cast| == Min(4, |credits.cast|)
              && (forall i :: 0 <= i < |film.cast| ==> film.cast[i] == CastMemberOf(credits.cast[i]))
              && film.directors == DirectorsOf(credits.crew)
              && r.value.directors == film.directors
              && r.value.cast == film.cast
  {
    if filmData.Err? {
      return Err(BadFilmData(filmData.error));
    }
    if castData.Err? {
      return Err(BadCastData(castData.error));
    }
    var f := filmData.value;
    var cast := MapCast(castData.value.cast);
    var directors := MapDirectors(castData.value.crew);
    var genres := MapGenres(f.genres);
    var language := "";
    if |f.spokenLanguages| > 0 {
      language := f.spokenLanguages[0];
    }
    var releaseDate := ReleaseDateOf(f.releaseDate);
    var film := Film(f.title, ImageBase + f.posterPath, releaseDate, screeningDate, f.runtime,
                     language, f.overview, genres, "https://www.imdb.com/title/" + f.imdbId + "/",
                     cast, directors);
    return Ok(Mapped(film, directors, cast));
  }

  // ------------------------------------------------------------ properties of the mapping

  /** A character that trims to nothing is replaced; any other is kept as it is. */
  lemma CharacterKeptUnlessBlank(c: TmdbCastEntry)
    ensures TrimSpace(c.character) == "" ==> CastMemberOf(c).character == UnknownCharacter
    ensures TrimSpace(c.character) != "" ==> CastMemberOf(c).character == c.character
  {
    TrimSpaceEmptyIff(c.character);
  }

  /** The directors of two crew lists in a row are those of the first followed by those of the second. */
  lemma {:induction false} DirectorsOfAppend(a: seq<TmdbCrewEntry>, b: seq<TmdbCrewEntry>)
    ensures DirectorsOf(a + b) == DirectorsOf(a) + DirectorsOf(b)
    decreases |b|
  {
    if b == [] {
      assert a + b == a;
    } else {
      var front := b[..|b| - 1];
      assert (a + b)[..|a + b| - 1] == a + front;
      assert (a + b)[|a + b| - 1] == b[|b| - 1];
      DirectorsOfAppend(a, front);
    }
  }

  /** A person is listed as a director exactly when some crew entry with job `Director` describes them. */
  lemma {:induction false} DirectorsOfIff(crew: seq<TmdbCrewEntry>, d: Director)
    ensures d in DirectorsOf(crew) <==> exists j :: 0 <= j < |crew| && crew[j].job == "Director" && DirectorOf(crew[j]) == d
    decreases |crew|
  {
    if crew != [] {
      var front := crew[..|crew| - 1];
      DirectorsOfIff(front, d);
      if exists j :: 0 <= j < |front| && front[j].job == "Director" && DirectorOf(front[j]) == d {
        var j :| 0 <= j < |front| && front[j].job == "Director" && DirectorOf(front[j]) == d;
        assert crew[j] == front[j];
      }
      if exists j :: 0 <= j < |crew| && crew[j].job == "Director" && DirectorOf(crew[j]) == d {
        var j :| 0 <= j < |crew| && crew[j].job == "Director" && DirectorOf(crew[j]) == d;
        if j < |front| {
          assert front[j] == crew[j];
        }
      }
    }
  }

  /** Every image address is the TMDb base followed by the record's own path. */
  lemma ImageUrlsUnderBase(c: TmdbCastEntry, d: TmdbCrewEntry)
    ensures HasPrefix(CastMemberOf(c).imgUrl, ImageBase) && CastMemberOf(c).imgUrl[|ImageBase|..] == c.profilePath
    ensures HasPrefix(DirectorOf(d).imgUrl, ImageBase) && DirectorOf(d).imgUrl[|ImageBase|..] == d.profilePath
  {
    assert (ImageBase + c.profilePath)[..|ImageBase|] == ImageBase;
    assert (ImageBase + d.profilePath)[..|ImageBase|] == ImageBase;
  }

  /** A release date in the `2006-01-02` layout is kept; anything else becomes the zero time. */
  lemma ReleaseDateKept(y: int, m: int, d: int)
    requires 0 <= y < 10000 && 1 <= m <= 12 && 1 <= d <= DaysIn(m, y)
    ensures ReleaseDateOf(Pad4(y) + "-" + Pad2(m) + "-" + Pad2(d)) == DateTime(y, m, d, 0, 0, 0, 0, 0)
  {
    IsoRoundTrip(y, m, d);
  }
}
