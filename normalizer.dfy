/**
 * The record normaliser: `data.results.map(...)`, which turns each film
 * record into a movie with the fields renamed.
 */
module Normalizer {
  import opened Wrappers
  import opened Js

  /** A movie as the component stores it; each field is whatever the record held. */
  datatype Movie = Movie(id: Value, title: Value, openingText: Value, releaseDate: Value)

  /** Own property `key` of a record, `undefined` when it has none. */
  function Field(record: Json, key: string): Value {
    if record.Obj? && key in record.props then Defined(record.props[key]) else Undefined
  }

  /** The reference renaming: `episode_id`, `title`, `opening_crawl`, `release_date`. */
  function Renamed(record: Json): Movie {
    Movie(Field(record, "episode_id"), Field(record, "title"),
          Field(record, "opening_crawl"), Field(record, "release_date"))
  }

  predicate NoNullRecord(records: seq<Json>) {
    forall i :: 0 <= i < |records| ==> records[i] != Null
  }

  /** What a successful `response.json()` must hold for the normaliser not to throw. */
  predicate WellFormed(data: Json) {
    data.Obj? && "results" in data.props && data.props["results"].Arr?
    && NoNullRecord(data.props["results"].elems)
  }

  function Results(data: Json): seq<Json>
    requires WellFormed(data)
  {
    data.props["results"].elems
  }

  /** The arrow function given to `map`: four property reads of `moviesData`. */
  function ToMovie(record: Json): (r: Result<Movie, TypeError>)
    ensures r.Ok? <==> record != Null
    ensures r.Ok? ==> r.value == Renamed(record)
    ensures r.Err? ==> r.error == CannotRead(Defined(Null), "episode_id")
  {
    var moviesData := Defined(record);
    var id :- Get(moviesData, "episode_id");
    // the other three reads are of the same record, which is not nullish
    Ok(Movie(id, Get(moviesData, "title").Extract(), Get(moviesData, "opening_crawl").Extract(),
             Get(moviesData, "release_date").Extract()))
  }

  /**
   * `Array.prototype.map` over the records: the callback runs in index
   * order and the first exception it throws escapes.
   */
  function MapRecords(records: seq<Json>): (r: Result<seq<Movie>, TypeError>)
    ensures r.Ok? <==> NoNullRecord(records)
    ensures r.Ok? ==> |r.value| == |records|
    ensures r.Ok? ==> forall i :: 0 <= i < |records| ==> r.value[i] == Renamed(records[i])
  {
    if records == [] then Ok([])
    else
      var movie :- ToMovie(records[0]);
      var rest :- MapRecords(records[1..]);
      Ok([movie] + rest)
  }

  /** `data.results.map(...)` on the document `response.json()` produced. */
  function Transform(data: Json): (r: Result<seq<Movie>, TypeError>)
    ensures r.Ok? <==> WellFormed(data)
    ensures r.Ok? ==> |r.value| == |Results(data)|
    ensures r.Ok? ==> forall i :: 0 <= i < |r.value| ==> r.value[i] == Renamed(Results(data)[i])
    ensures data == Null ==> r == Err(CannotRead(Defined(Null), "results"))
    ensures data != Null && Field(data, "results") == Undefined ==> r == Err(CannotRead(Undefined, "map"))
  {
    var results :- Get(Defined(data), "results");
    if results.Defined? && results.json.Arr? then MapRecords(results.json.elems)
    else if Nullish(results) then Err(CannotRead(results, "map"))
    else Err(NotAFunction("data.results.map"))
  }

  /** The one-film payload of the swapi list endpoint keeps its number as `id`. */
  function NewHopeFilm(): Json {
    Obj(map["episode_id" := Num(4), "title" := Str("A New Hope"),
            "opening_crawl" := Str("..."), "release_date" := Str("1977-05-25")])
  }

  lemma NewHopeExample()
    ensures Transform(Obj(map["results" := Arr([NewHopeFilm()])]))
              == Ok([Movie(Defined(Num(4)), Defined(Str("A New Hope")),
                           Defined(Str("...")), Defined(Str("1977-05-25")))])
  {
    var film := NewHopeFilm();
    var data := Obj(map["results" := Arr([film])]);
    var movie := Movie(Defined(Num(4)), Defined(Str("A New Hope")),
                       Defined(Str("...")), Defined(Str("1977-05-25")));
    assert WellFormed(data) && Results(data) == [film];
    assert Renamed(film) == movie;
    var r := Transform(data);
    assert r.Ok? && |r.value| == 1 && r.value[0] == movie;
    assert r.value == [movie];
  }
}
