/**
 * Aggregation and selection logic of the Jellyfin collection synchroniser
 * (create-collections.py): every library movie is looked up at TMDb, movies
 * that TMDb places in the same collection are grouped under that collection's
 * id, per-movie failures are recorded without stopping the pass, and the
 * groups with more than one member are turned into Jellyfin box sets.
 *
 * The TMDb client, the URL encoder and the server's box-set listing are
 * opaque to this model and enter as parameters:
 *   provider: the answer TMDb gives for a TMDb id,
 *   quote:    urllib.parse.quote,
 *   listing:  the box sets the server lists right after a group's
 *             collection has been created.
 */
module JellyfinCollections {

  datatype Option<T> = None | Some(value: T)

  /** The `id` of a TMDb `belongs_to_collection` descriptor. */
  type CollectionId = int

  /**
   * One item of the Jellyfin movie listing: its local `Id`, its `Name`
   * (absent names print as "None") and its `ProviderIds` object.
   */
  datatype Movie = Movie(id: string, name: Option<string>, providerIds: map<string, string>)

  /** What `tmdb.Movies(tmdb_id).info()` yields for one movie. */
  datatype Lookup =
    | Fails(reason: string)
    | NoCollection
    | InCollection(collectionId: CollectionId, rawName: string)

  /** One value of the aggregation dict: `{Name, raw_name, ids}`. */
  datatype Group = Group(name: string, rawName: string, ids: seq<string>)

  /**
   * The aggregation dict as a value. A Python dict remembers the order in
   * which its keys were first inserted, and `create_collections` iterates
   * in that order, so the keys are kept as a sequence beside the entries.
   */
  datatype Collections = Collections(order: seq<CollectionId>, groups: map<CollectionId, Group>)
  {
    /** One entry per key, the key order lists exactly the keys, no empty group. */
    predicate Valid() {
      && (forall i, j :: 0 <= i < j < |order| ==> order[i] != order[j])
      && (forall k :: k in groups ==> k in order)
      && (forall k :: k in order ==> k in groups)
      && (forall k :: k in groups ==> groups[k].ids != [])
    }
  }

  const NoCollections: Collections := Collections([], map[])

  /** How `check_single_movie` ends: it returns the dict or raises one of two errors. */
  datatype CheckResult =
    | Stored(collections: Collections)
    | NoDataError
    | MovieDataError(reason: string)

  // ---------------------------------------------------------------------
  // One movie
  // ---------------------------------------------------------------------

  /** `ProviderIds.get('Tmdb')`, with a missing or empty id read as no id. */
  function TmdbId(movie: Movie): (r: Option<string>)
    ensures r.None? <==> "Tmdb" !in movie.providerIds || movie.providerIds["Tmdb"] == ""
    ensures r.Some? ==> r.value == movie.providerIds["Tmdb"] && r.value != ""
  {
    var ids := movie.providerIds;
    if "Tmdb" in ids && ids["Tmdb"] != "" then Some(ids["Tmdb"]) else None
  }

  /** The provider's answer for the movie; None when TMDb is not asked at all. */
  function ProviderAnswer(movie: Movie, provider: string -> Lookup): Option<Lookup>
  {
    match TmdbId(movie)
    case None => None
    case Some(tmdbId) => Some(provider(tmdbId))
  }

  /** `str(movie.get("Name"))`. */
  function DisplayName(movie: Movie): string {
    match movie.name
    case None => "None"
    case Some(n) => n
  }

  /** The error record for a failed lookup: `"<name> - <reason>"`. */
  function ErrorLine(movie: Movie, reason: string): (line: string)
    ensures |line| == |DisplayName(movie)| + 3 + |reason|
    ensures line[..|DisplayName(movie)|] == DisplayName(movie)
    ensures line[|DisplayName(movie)|..|DisplayName(movie)| + 3] == " - "
    ensures line[|DisplayName(movie)| + 3..] == reason
  {
    DisplayName(movie) + " - " + reason
  }

  /**
   * The dict update for a movie found in collection `key`: an existing entry
   * gets the movie's id appended to its `ids`, otherwise a new entry is
   * inserted; no other entry is touched.
   */
  function AddMember(c: Collections, key: CollectionId, rawName: string, name: string, movieId: string): (r: Collections)
    ensures c.Valid() ==> r.Valid()
    ensures r.groups.Keys == c.groups.Keys + {key}
    ensures forall k :: k in c.groups && k != key ==> r.groups[k] == c.groups[k]
    ensures key in c.groups ==>
      && r.order == c.order
      && r.groups[key].name == c.groups[key].name
      && r.groups[key].rawName == c.groups[key].rawName
      && r.groups[key].ids == c.groups[key].ids + [movieId]
    ensures key !in c.groups ==>
      && r.order == c.order + [key]
      && r.groups[key] == Group(name, rawName, [movieId])
  {
    if key in c.groups then
      var g := c.groups[key];
      Collections(c.order, c.groups[key := g.(ids := g.ids + [movieId])])
    else
      Collections(c.order + [key], c.groups[key := Group(name, rawName, [movieId])])
  }

  /** What `check_single_movie(movie, c)` does, as a value. */
  function CheckMovie(movie: Movie, provider: string -> Lookup, quote: string -> string, c: Collections): (r: CheckResult)
    ensures r.NoDataError? <==> ProviderAnswer(movie, provider).None?
    ensures r.MovieDataError? <==> ProviderAnswer(movie, provider).Some? && ProviderAnswer(movie, provider).value.Fails?
    ensures r.MovieDataError? ==> r.reason == ProviderAnswer(movie, provider).value.reason
    ensures ProviderAnswer(movie, provider) == Some(NoCollection) ==> r == Stored(c)
    ensures ProviderAnswer(movie, provider).Some? && ProviderAnswer(movie, provider).value.InCollection? ==>
      var answer := ProviderAnswer(movie, provider).value;
      r == Stored(AddMember(c, answer.collectionId, answer.rawName, quote(answer.rawName), movie.id))
    ensures c.Valid() && r.Stored? ==> r.collections.Valid()
  {
    match ProviderAnswer(movie, provider)
    case None => NoDataError
    case Some(Fails(reason)) => MovieDataError(reason)
    case Some(NoCollection) => Stored(c)
    case Some(InCollection(key, rawName)) => Stored(AddMember(c, key, rawName, quote(rawName), movie.id))
  }

  /**
   * The dict object that `get_collection_data` creates and that
   * `check_single_movie` updates in place.
   */
  class CollectionTable {
    var order: seq<CollectionId>
    var groups: map<CollectionId, Group>

    function Value(): Collections
      reads this
    {
      Collections(order, groups)
    }

    constructor ()
      ensures Value() == NoCollections
    {
      order := [];
      groups := map[];
    }

    /** `check_single_movie(movie, self)`: the dict changes only when the result is `Stored`. */
    method CheckSingleMovie(movie: Movie, provider: string -> Lookup, quote: string -> string) returns (r: CheckResult)
      modifies this
      ensures r == CheckMovie(movie, provider, quote, old(Value()))
      ensures Value() == if r.Stored? then r.collections else old(Value())
    {
      var tmdbId := TmdbId(movie);
      if tmdbId.None? {
        return NoDataError;
      }
      match provider(tmdbId.value)
      case Fails(reason) =>
        r := MovieDataError(reason);
      case NoCollection =>
        r := Stored(Value());
      case InCollection(collectionId, rawName) =>
        var name := quote(rawName);
        if collectionId in groups {
          var g := groups[collectionId];
          groups := groups[collectionId := g.(ids := g.ids + [movie.id])];
        } else {
          groups := groups[collectionId := Group(name, rawName, [movie.id])];
          order := order + [collectionId];
        }
        r := Stored(Value());
    }
  }

  // ---------------------------------------------------------------------
  // The pass over the library
  // ---------------------------------------------------------------------

  /** The dict after `check_single_movie(movie, c)`, whether it returned or raised. */
  function Step(c: Collections, movie: Movie, provider: string -> Lookup, quote: string -> string): (next: Collections)
    ensures !(ProviderAnswer(movie, provider).Some? && ProviderAnswer(movie, provider).value.InCollection?) ==> next == c
    ensures ProviderAnswer(movie, provider).Some? && ProviderAnswer(movie, provider).value.InCollection? ==>
      var answer := ProviderAnswer(movie, provider).value;
      next == AddMember(c, answer.collectionId, answer.rawName, quote(answer.rawName), movie.id)
  {
    match CheckMovie(movie, provider, quote, c)
    case Stored(next) => next
    case _ => c
  }

  /** The dict after `check_single_movie` has been applied to every movie in turn. */
  function Aggregate(movies: seq<Movie>, provider: string -> Lookup, quote: string -> string): (c: Collections)
    ensures |c.order| <= |movies|
    decreases |movies|
  {
    if movies == [] then NoCollections
    else Step(Aggregate(movies[..|movies| - 1], provider, quote), movies[|movies| - 1], provider, quote)
  }

  /** The pass keeps the dict consistent: one entry per key, keys in insertion order, no empty `ids`. */
  lemma {:induction false} AggregateValid(movies: seq<Movie>, provider: string -> Lookup, quote: string -> string)
    ensures Aggregate(movies, provider, quote).Valid()
    decreases |movies|
  {
    if movies != [] {
      AggregateValid(movies[..|movies| - 1], provider, quote);
    }
  }

  /** Reference definition: the position of the first movie found in collection `key`. */
  function FirstIndex(movies: seq<Movie>, provider: string -> Lookup, key: CollectionId): (r: Option<nat>)
    ensures r.Some? ==> r.value < |movies|
    decreases |movies|
  {
    if movies == [] then None
    else
      var earlier := FirstIndex(movies[..|movies| - 1], provider, key);
      if earlier.Some? then earlier
      else if ResolvesTo(movies[|movies| - 1], provider, key) then Some(|movies| - 1)
      else None
  }

  /**
   * The key order of the final dict is the order in which the collections
   * were first found: it lists exactly the collections some movie was found
   * in, by increasing position of their first movie.
   */
  lemma {:induction false} AggregateOrder(movies: seq<Movie>, provider: string -> Lookup, quote: string -> string)
    ensures var order := Aggregate(movies, provider, quote).order;
      && (forall k :: k in order <==> FirstIndex(movies, provider, k).Some?)
      && (forall i, j :: 0 <= i < j < |order| ==>
            FirstIndex(movies, provider, order[i]).Some? && FirstIndex(movies, provider, order[j]).Some? &&
            FirstIndex(movies, provider, order[i]).value < FirstIndex(movies, provider, order[j]).value)
    decreases |movies|
  {
    if movies != [] {
      var prefix := movies[..|movies| - 1];
      var last := movies[|movies| - 1];
      AggregateOrder(prefix, provider, quote);
      AggregateValid(prefix, provider, quote);
      var prev := Aggregate(prefix, provider, quote);
      var answer := ProviderAnswer(last, provider);
      if answer.Some? && answer.value.InCollection? {
        var key := answer.value.collectionId;
        assert forall k :: k != key ==> FirstIndex(movies, provider, k) == FirstIndex(prefix, provider, k);
        assert ResolvesTo(last, provider, key);
        if key !in prev.groups {
          assert FirstIndex(prefix, provider, key).None?;
          assert FirstIndex(movies, provider, key) == Some(|movies| - 1);
        } else {
          assert FirstIndex(movies, provider, key) == FirstIndex(prefix, provider, key);
        }
      } else {
        assert forall k :: !ResolvesTo(last, provider, k);
        assert forall k :: FirstIndex(movies, provider, k) == FirstIndex(prefix, provider, k);
      }
    }
  }

  /** Helper: the pass over a list with one more movie takes one more `Step`. */
  lemma AggregateSnoc(movies: seq<Movie>, movie: Movie, provider: string -> Lookup, quote: string -> string)
    ensures Aggregate(movies + [movie], provider, quote) == Step(Aggregate(movies, provider, quote), movie, provider, quote)
  {
    assert (movies + [movie])[..|movies|] == movies;
  }

  /** The error records of the pass: one per failed lookup, in list order. */
  function Errors(movies: seq<Movie>, provider: string -> Lookup): (errors: seq<string>)
    ensures |errors| <= |movies|
    decreases |movies|
  {
    if movies == [] then []
    else
      var last := movies[|movies| - 1];
      Errors(movies[..|movies| - 1], provider) +
        match ProviderAnswer(last, provider)
        case Some(Fails(reason)) => [ErrorLine(last, reason)]
        case _ => []
  }

  /** The provider places `movie` in collection `key`. */
  predicate ResolvesTo(movie: Movie, provider: string -> Lookup, key: CollectionId)
  {
    var answer := ProviderAnswer(movie, provider);
    answer.Some? && answer.value.InCollection? && answer.value.collectionId == key
  }

  /** Reference definition: the local ids of the movies in collection `key`, in list order. */
  function MemberIds(movies: seq<Movie>, provider: string -> Lookup, key: CollectionId): seq<string>
    decreases |movies|
  {
    if movies == [] then []
    else
      var last := movies[|movies| - 1];
      MemberIds(movies[..|movies| - 1], provider, key) + if ResolvesTo(last, provider, key) then [last.id] else []
  }

  /** Reference definition: the collection name reported for the first movie found in `key`. */
  function FirstRawName(movies: seq<Movie>, provider: string -> Lookup, key: CollectionId): Option<string>
    decreases |movies|
  {
    if movies == [] then None
    else
      var earlier := FirstRawName(movies[..|movies| - 1], provider, key);
      var last := movies[|movies| - 1];
      if earlier.Some? then earlier
      else if ResolvesTo(last, provider, key) then Some(ProviderAnswer(last, provider).value.rawName)
      else None
  }

  /**
   * After the pass, the entry for `key` exists exactly when some movie was
   * found in that collection; it lists exactly that collection's movies in
   * list order and carries the name reported for the first of them, raw
   * and encoded.
   */
  lemma {:induction false} AggregateGroupAt(movies: seq<Movie>, provider: string -> Lookup, quote: string -> string, key: CollectionId)
    ensures var c := Aggregate(movies, provider, quote);
      && (key in c.groups <==> MemberIds(movies, provider, key) != [])
      && (key !in c.groups ==> FirstRawName(movies, provider, key).None?)
      && (key in c.groups ==>
            && c.groups[key].ids == MemberIds(movies, provider, key)
            && FirstRawName(movies, provider, key) == Some(c.groups[key].rawName)
            && c.groups[key].name == quote(c.groups[key].rawName))
    decreases |movies|
  {
    if movies != [] {
      var prefix := movies[..|movies| - 1];
      var last := movies[|movies| - 1];
      AggregateGroupAt(prefix, provider, quote, key);
      var prev := Aggregate(prefix, provider, quote);
      var c := Aggregate(movies, provider, quote);
      assert MemberIds(movies, provider, key) ==
        MemberIds(prefix, provider, key) + if ResolvesTo(last, provider, key) then [last.id] else [];
      match ProviderAnswer(last, provider)
      case None =>
        assert c == prev;
      case Some(Fails(_)) =>
        assert c == prev;
      case Some(NoCollection) =>
        assert c == prev;
      case Some(InCollection(found, rawName)) =>
        assert c == AddMember(prev, found, rawName, quote(rawName), last.id);
        if found == key {
          assert ResolvesTo(last, provider, key);
        } else {
          assert !ResolvesTo(last, provider, key);
        }
    }
  }

  /** `MemberIds` is non-empty exactly when some movie of the list is in the collection. */
  lemma {:induction false} MemberIdsWitness(movies: seq<Movie>, provider: string -> Lookup, key: CollectionId)
    ensures MemberIds(movies, provider, key) != [] <==> exists i :: 0 <= i < |movies| && ResolvesTo(movies[i], provider, key)
    decreases |movies|
  {
    if movies != [] {
      var prefix := movies[..|movies| - 1];
      MemberIdsWitness(prefix, provider, key);
      if MemberIds(prefix, provider, key) != [] {
        var i :| 0 <= i < |prefix| && ResolvesTo(prefix[i], provider, key);
        assert movies[i] == prefix[i];
      }
      if exists i :: 0 <= i < |movies| && ResolvesTo(movies[i], provider, key) {
        var i :| 0 <= i < |movies| && ResolvesTo(movies[i], provider, key);
        if i < |prefix| {
          assert prefix[i] == movies[i];
        }
      }
    }
  }

  /** The keys of the final dict are the collection ids of the movies TMDb placed in a collection. */
  lemma {:induction false} KeysAreFoundCollections(movies: seq<Movie>, provider: string -> Lookup, quote: string -> string, key: CollectionId)
    ensures key in Aggregate(movies, provider, quote).groups <==>
      exists i :: 0 <= i < |movies| && ResolvesTo(movies[i], provider, key)
  {
    AggregateGroupAt(movies, provider, quote, key);
    MemberIdsWitness(movies, provider, key);
  }

  /**
   * Partial-failure isolation: a movie with no TMDb id, a failed lookup or
   * no collection leaves the final dict exactly as if it were not in the
   * list, so the movies after it still reach the dict.
   */
  lemma {:induction false} SkippedMovieLeavesCollections(pre: seq<Movie>, movie: Movie, post: seq<Movie>,
                                                         provider: string -> Lookup, quote: string -> string)
    requires !(ProviderAnswer(movie, provider).Some? && ProviderAnswer(movie, provider).value.InCollection?)
    ensures Aggregate(pre + [movie] + post, provider, quote) == Aggregate(pre + post, provider, quote)
    decreases |post|
  {
    if post == [] {
      AggregateSnoc(pre, movie, provider, quote);
      assert pre + [movie] + post == pre + [movie];
      assert pre + post == pre;
    } else {
      var init := post[..|post| - 1];
      var last := post[|post| - 1];
      SkippedMovieLeavesCollections(pre, movie, init, provider, quote);
      assert post == init + [last];
      assert pre + [movie] + post == (pre + [movie] + init) + [last];
      assert pre + post == (pre + init) + [last];
      AggregateSnoc(pre + [movie] + init, last, provider, quote);
      AggregateSnoc(pre + init, last, provider, quote);
    }
  }

  /** Errors of a concatenated list are the errors of its parts, in order. */
  lemma {:induction false} ErrorsAppend(a: seq<Movie>, b: seq<Movie>, provider: string -> Lookup)
    ensures Errors(a + b, provider) == Errors(a, provider) + Errors(b, provider)
    decreases |b|
  {
    if b == [] {
      assert a + b == a;
    } else {
      var init := b[..|b| - 1];
      ErrorsAppend(a, init, provider);
      assert (a + b)[..|a + b| - 1] == a + init;
      assert (a + b)[|a + b| - 1] == b[|b| - 1];
    }
  }

  /**
   * A failed lookup adds exactly its own record, between the records of the
   * movies before it and those of the movies after it.
   */
  lemma FailedMovieRecorded(pre: seq<Movie>, movie: Movie, post: seq<Movie>, provider: string -> Lookup, reason: string)
    requires ProviderAnswer(movie, provider) == Some(Fails(reason))
    ensures Errors(pre + [movie] + post, provider) == Errors(pre, provider) + [ErrorLine(movie, reason)] + Errors(post, provider)
  {
    ErrorsAppend(pre, [movie], provider);
    ErrorsAppend(pre + [movie], post, provider);
    assert [movie][..0] == [];
  }

  /** A movie with no TMDb id, or in no collection, adds no record. */
  lemma UnfailedMovieNotRecorded(pre: seq<Movie>, movie: Movie, post: seq<Movie>, provider: string -> Lookup)
    requires !(ProviderAnswer(movie, provider).Some? && ProviderAnswer(movie, provider).value.Fails?)
    ensures Errors(pre + [movie] + post, provider) == Errors(pre, provider) + Errors(post, provider)
  {
    assert [movie][..0] == [] && [movie][0] == movie;
    match ProviderAnswer(movie, provider) {
      case None =>
      case Some(answer) =>
        assert !answer.Fails?;
    }
    assert Errors([movie], provider) == [];
    ErrorsAppend(pre, [movie], provider);
    assert Errors(pre + [movie], provider) == Errors(pre, provider);
    ErrorsAppend(pre + [movie], post, provider);
  }

  // An example pass: A has no TMDb id, B and C are both in collection 99
  // "Collection Z", and the lookup for D fails.
  const ExampleA := Movie("a", Some("A"), map[])
  const ExampleB := Movie("b", Some("B"), map["Tmdb" := "X"])
  const ExampleC := Movie("c", Some("C"), map["Tmdb" := "Y"])
  const ExampleD := Movie("d", Some("D"), map["Tmdb" := "W"])

  /** The TMDb answers of the example: "X" and "Y" are in collection 99, every other lookup fails. */
  function ExampleProvider(tmdbId: string): Lookup {
    if tmdbId == "X" || tmdbId == "Y" then InCollection(99, "Collection Z") else Fails("timeout")
  }

  /** Helper: after A and B the example's dict holds B alone. */
  lemma ExamplePrefix(quote: string -> string)
    ensures Aggregate([ExampleA, ExampleB], ExampleProvider, quote) ==
      Collections([99], map[99 := Group(quote("Collection Z"), "Collection Z", ["b"])])
  {
    assert [ExampleA, ExampleB][..1] == [ExampleA] && [ExampleA][..0] == [];
    assert ProviderAnswer(ExampleA, ExampleProvider) == None;
    assert Aggregate([ExampleA], ExampleProvider, quote) == NoCollections;
    assert ProviderAnswer(ExampleB, ExampleProvider) == Some(InCollection(99, "Collection Z"));
    assert Step(NoCollections, ExampleB, ExampleProvider, quote) ==
      AddMember(NoCollections, 99, "Collection Z", quote("Collection Z"), "b");
  }

  /** The example's dict: B and C share one entry, in that order. */
  lemma ExampleCollections(quote: string -> string)
    ensures Aggregate([ExampleA, ExampleB, ExampleC, ExampleD], ExampleProvider, quote) ==
      Collections([99], map[99 := Group(quote("Collection Z"), "Collection Z", ["b", "c"])])
  {
    var movies := [ExampleA, ExampleB, ExampleC, ExampleD];
    assert movies[..3] == [ExampleA, ExampleB, ExampleC];
    assert [ExampleA, ExampleB, ExampleC][..2] == [ExampleA, ExampleB];
    var one := Collections([99], map[99 := Group(quote("Collection Z"), "Collection Z", ["b"])]);
    var two := Collections([99], map[99 := Group(quote("Collection Z"), "Collection Z", ["b", "c"])]);
    ExamplePrefix(quote);
    assert ProviderAnswer(ExampleC, ExampleProvider) == Some(InCollection(99, "Collection Z"));
    assert Step(one, ExampleC, ExampleProvider, quote) == AddMember(one, 99, "Collection Z", quote("Collection Z"), "c");
    assert ["b"] + ["c"] == ["b", "c"];
    assert AddMember(one, 99, "Collection Z", quote("Collection Z"), "c") == two;
    assert Aggregate([ExampleA, ExampleB, ExampleC], ExampleProvider, quote) == two;
    assert ProviderAnswer(ExampleD, ExampleProvider) == Some(Fails("timeout"));
    assert Step(two, ExampleD, ExampleProvider, quote) == two;
  }

  /** The example's error records: only D's failed lookup is recorded. */
  lemma ExampleErrors()
    ensures Errors([ExampleA, ExampleB, ExampleC, ExampleD], ExampleProvider) == ["D - timeout"]
  {
    var movies := [ExampleA, ExampleB, ExampleC, ExampleD];
    assert movies[..3] == [ExampleA, ExampleB, ExampleC];
    assert [ExampleA, ExampleB, ExampleC][..2] == [ExampleA, ExampleB];
    assert [ExampleA, ExampleB][..1] == [ExampleA] && [ExampleA][..0] == [];
    assert ProviderAnswer(ExampleA, ExampleProvider) == None;
    assert ProviderAnswer(ExampleB, ExampleProvider).value.InCollection?;
    assert ProviderAnswer(ExampleC, ExampleProvider).value.InCollection?;
    assert ProviderAnswer(ExampleD, ExampleProvider) == Some(Fails("timeout"));
    assert Errors([ExampleA], ExampleProvider) == [];
    assert Errors([ExampleA, ExampleB], ExampleProvider) == [];
    assert Errors([ExampleA, ExampleB, ExampleC], ExampleProvider) == [];
    assert ErrorLine(ExampleD, "timeout") == "D - timeout";
  }

  /**
   * `get_collection_data`: the pass over the movie listing. Returns the
   * final dict and the text of collection-errors.txt, which is written only
   * when some lookup failed.
   */
  method GetCollectionData(movies: seq<Movie>, provider: string -> Lookup, quote: string -> string)
    returns (collections: Collections, errorFile: Option<string>)
    ensures collections == Aggregate(movies, provider, quote) && collections.Valid()
    ensures errorFile.None? <==> Errors(movies, provider) == []
    ensures errorFile.Some? ==> errorFile.value == ErrorFileText(Errors(movies, provider))
  {
    var table := new CollectionTable();
    var errors: seq<string> := [];
    var i := 0;
    while i < |movies|
      invariant 0 <= i <= |movies|
      invariant table.Value() == Aggregate(movies[..i], provider, quote)
      invariant errors == Errors(movies[..i], provider)
    {
      assert movies[..i + 1][..i] == movies[..i];
      var r := table.CheckSingleMovie(movies[i], provider, quote);
      if r.MovieDataError? {
        errors := errors + [ErrorLine(movies[i], r.reason)];
      }
      i := i + 1;
    }
    assert movies[..|movies|] == movies;
    AggregateValid(movies, provider, quote);
    collections := table.Value();
    if errors != [] {
      var text := WriteErrorsToDisk(errors);
      errorFile := Some(text);
    } else {
      errorFile := None;
    }
  }

  // ---------------------------------------------------------------------
  // The error file
  // ---------------------------------------------------------------------

  /** The contents of collection-errors.txt: each record followed by a newline. */
  function ErrorFileText(errors: seq<string>): (text: string)
    ensures text == "" <==> errors == []
    ensures text != "" ==> text[|text| - 1] == '\n'
  {
    if errors == [] then "" else errors[0] + "\n" + ErrorFileText(errors[1..])
  }

  lemma {:induction false} ErrorFileTextSnoc(errors: seq<string>, e: string)
    ensures ErrorFileText(errors + [e]) == ErrorFileText(errors) + e + "\n"
    decreases |errors|
  {
    if errors != [] {
      assert (errors + [e])[1..] == errors[1..] + [e];
      ErrorFileTextSnoc(errors[1..], e);
    } else {
      assert errors + [e] == [e];
    }
  }

  /** `write_errors_to_disk`: the text the loop writes into the freshly truncated file. */
  method WriteErrorsToDisk(errors: seq<string>) returns (contents: string)
    ensures contents == ErrorFileText(errors)
  {
    contents := "";
    for i := 0 to |errors|
      invariant contents == ErrorFileText(errors[..i])
    {
      assert errors[..i + 1] == errors[..i] + [errors[i]];
      ErrorFileTextSnoc(errors[..i], errors[i]);
      contents := contents + errors[i] + "\n";
    }
    assert errors[..|errors|] == errors;
  }

  /**
   * Reading the error file back: splitting it at newlines gives the records
   * in order, then the empty text after the final newline.
   */
  lemma {:induction false} ErrorFileLines(errors: seq<string>)
    requires forall i :: 0 <= i < |errors| ==> '\n' !in errors[i]
    ensures Split(ErrorFileText(errors), '\n') == errors + [""]
    decreases |errors|
  {
    if errors == [] {
      assert Find("", '\n') == 0;
    } else {
      var rest := errors[1..];
      var tail := ErrorFileText(rest);
      assert forall i :: 0 <= i < |rest| ==> '\n' !in rest[i] by {
        forall i | 0 <= i < |rest| ensures '\n' !in rest[i] {
          assert rest[i] == errors[i + 1];
        }
      }
      calc {
        Split(ErrorFileText(errors), '\n');
        Split(errors[0] + ['\n'] + tail, '\n');
        { assert '\n' !in errors[0]; SplitCons(errors[0], '\n', tail); }
        [errors[0]] + Split(tail, '\n');
        { ErrorFileLines(rest); }
        [errors[0]] + (rest + [""]);
        { assert errors == [errors[0]] + rest; }
        errors + [""];
      }
    }
  }

  // ---------------------------------------------------------------------
  // Text helpers: str.join and str.split with a one-character separator
  // ---------------------------------------------------------------------

  /** The position of the first `sep` in `s`, or `|s|` when there is none. */
  function Find(s: string, sep: char): (i: nat)
    ensures i <= |s|
    ensures forall j :: 0 <= j < i ==> s[j] != sep
    ensures i < |s| ==> s[i] == sep
    ensures i == |s| <==> sep !in s
    decreases |s|
  {
    if s == [] then 0
    else if s[0] == sep then 0
    else 1 + Find(s[1..], sep)
  }

  /** `s.split(sep)`. */
  function Split(s: string, sep: char): seq<string>
    decreases |s|
  {
    var i := Find(s, sep);
    if i == |s| then [s] else [s[..i]] + Split(s[i + 1..], sep)
  }

  /** `sep.join(parts)`. */
  function Join(parts: seq<string>, sep: char): string {
    if parts == [] then ""
    else if |parts| == 1 then parts[0]
    else parts[0] + [sep] + Join(parts[1..], sep)
  }

  /** `','.join(ids)`, the `Ids` parameter of the add-items request. */
  function JoinIds(ids: seq<string>): string {
    Join(ids, ',')
  }

  lemma SplitCons(e: string, sep: char, rest: string)
    requires sep !in e
    ensures Split(e + [sep] + rest, sep) == [e] + Split(rest, sep)
  {
    var s := e + [sep] + rest;
    var i := Find(s, sep);
    assert s[|e|] == sep;
    assert forall j :: 0 <= j < |e| ==> s[j] == e[j];
    assert i == |e|;
    assert s[..i] == e;
    assert s[i + 1..] == rest;
  }

  /** The server can take the `Ids` parameter apart again into exactly the group's ids. */
  lemma {:induction false} JoinIdsRoundTrip(ids: seq<string>)
    requires ids != []
    requires forall i :: 0 <= i < |ids| ==> ',' !in ids[i]
    ensures Split(JoinIds(ids), ',') == ids
    decreases |ids|
  {
    if |ids| == 1 {
      assert Find(ids[0], ',') == |ids[0]|;
    } else {
      JoinIdsRoundTrip(ids[1..]);
      SplitCons(ids[0], ',', Join(ids[1..], ','));
      assert ids == [ids[0]] + ids[1..];
    }
  }

  // ---------------------------------------------------------------------
  // Creating the collections
  // ---------------------------------------------------------------------

  /** An item of the server's `BoxSet` listing. */
  datatype BoxSet = BoxSet(id: string, name: string)

  /** What `create_collections` does for one group. */
  datatype Action =
    | CreateRequest(encodedName: string)                 // POST /Collections?Name=<encodedName>
    | AddItemsRequest(boxSetId: string, idsParam: string)  // POST /Collections/<boxSetId>/Items?Ids=<idsParam>
    | SortError(rawName: string)                         // "There was an error sorting: <rawName> - ..."

  /** `[x['Id'] for x in library_collections if x['Name'] == raw_name]`. */
  function MatchingIds(boxSets: seq<BoxSet>, rawName: string): seq<string>
    decreases |boxSets|
  {
    if boxSets == [] then []
    else (if boxSets[0].name == rawName then [boxSets[0].id] else []) + MatchingIds(boxSets[1..], rawName)
  }

  /** Element `[0]` of the matching ids, None where indexing raises. */
  function FirstMatch(boxSets: seq<BoxSet>, rawName: string): Option<string> {
    var ids := MatchingIds(boxSets, rawName);
    if ids == [] then None else Some(ids[0])
  }

  /**
   * The selected box set is the first one whose name equals the raw
   * collection name exactly; there is none exactly when no name equals it.
   */
  lemma {:induction false} FirstMatchIsFirst(boxSets: seq<BoxSet>, rawName: string)
    ensures FirstMatch(boxSets, rawName).None? <==> forall i :: 0 <= i < |boxSets| ==> boxSets[i].name != rawName
    ensures FirstMatch(boxSets, rawName).Some? ==>
      exists i :: && 0 <= i < |boxSets|
                  && boxSets[i].name == rawName
                  && boxSets[i].id == FirstMatch(boxSets, rawName).value
                  && forall j :: 0 <= j < i ==> boxSets[j].name != rawName
    decreases |boxSets|
  {
    if boxSets != [] {
      FirstMatchIsFirst(boxSets[1..], rawName);
      if boxSets[0].name != rawName {
        assert MatchingIds(boxSets, rawName) == MatchingIds(boxSets[1..], rawName);
        forall i | 1 <= i < |boxSets|
          ensures boxSets[i] == boxSets[1..][i - 1]
        {
        }
        if FirstMatch(boxSets, rawName).Some? {
          var i :| && 0 <= i < |boxSets[1..]|
                   && boxSets[1..][i].name == rawName
                   && boxSets[1..][i].id == FirstMatch(boxSets, rawName).value
                   && forall j :: 0 <= j < i ==> boxSets[1..][j].name != rawName;
          assert boxSets[i + 1] == boxSets[1..][i];
          assert forall j :: 0 <= j < i + 1 ==> boxSets[j].name != rawName by {
            forall j | 0 <= j < i + 1
              ensures boxSets[j].name != rawName
            {
              if j > 0 {
                assert boxSets[j] == boxSets[1..][j - 1];
              }
            }
          }
        }
      }
    }
  }

  /** The requests and log records `create_collections` produces for one group. */
  function GroupActions(group: Group, boxSets: seq<BoxSet>): seq<Action>
  {
    if |group.ids| <= 1 then []
    else
      [CreateRequest(group.name)] +
        match FirstMatch(boxSets, group.rawName)
        case Some(boxSetId) => [AddItemsRequest(boxSetId, JoinIds(group.ids))]
        case None => [SortError(group.rawName)]
  }

  /**
   * Only a group with more than one id is acted on: the collection is
   * created under the encoded name, then the ids joined with ',' go to the
   * first box set named exactly like the group, or the group is reported
   * when there is none.
   */
  lemma GroupActionsSpec(group: Group, boxSets: seq<BoxSet>)
    ensures GroupActions(group, boxSets) == [] <==> |group.ids| <= 1
    ensures |group.ids| > 1 ==> |GroupActions(group, boxSets)| == 2 && GroupActions(group, boxSets)[0] == CreateRequest(group.name)
    ensures |group.ids| > 1 ==>
      (GroupActions(group, boxSets)[1].AddItemsRequest? <==> FirstMatch(boxSets, group.rawName).Some?)
    ensures |group.ids| > 1 && GroupActions(group, boxSets)[1].AddItemsRequest? ==>
      GroupActions(group, boxSets)[1] == AddItemsRequest(FirstMatch(boxSets, group.rawName).value, JoinIds(group.ids))
    ensures |group.ids| > 1 && !GroupActions(group, boxSets)[1].AddItemsRequest? ==> GroupActions(group, boxSets)[1] == SortError(group.rawName)
  {
  }

  /** The actions for the groups under `keys`, taken in that order. */
  function Plan(keys: seq<CollectionId>, groups: map<CollectionId, Group>, listing: CollectionId -> seq<BoxSet>): seq<Action>
    requires forall k :: k in keys ==> k in groups
    decreases |keys|
  {
    if keys == [] then []
    else
      var last := keys[|keys| - 1];
      Plan(keys[..|keys| - 1], groups, listing) + GroupActions(groups[last], listing(last))
  }

  /** Helper: sequence concatenation is associative. */
  lemma AppendAssoc<T>(x: seq<T>, y: seq<T>, z: seq<T>)
    ensures (x + y) + z == x + (y + z)
  {
  }

  /** Helper: one more key adds that group's actions at the end. */
  lemma PlanSnoc(keys: seq<CollectionId>, key: CollectionId,
                 groups: map<CollectionId, Group>, listing: CollectionId -> seq<BoxSet>)
    requires forall k :: k in keys ==> k in groups
    requires key in groups
    ensures forall k :: k in keys + [key] ==> k in groups
    ensures Plan(keys + [key], groups, listing) == Plan(keys, groups, listing) + GroupActions(groups[key], listing(key))
  {
    assert (keys + [key])[..|keys|] == keys;
  }

  /**
   * A group whose name matches no box set does not affect the others: the
   * actions for a list of groups are the actions for its first part followed
   * by those for the rest.
   */
  lemma {:induction false} PlanAppend(a: seq<CollectionId>, b: seq<CollectionId>,
                                      groups: map<CollectionId, Group>, listing: CollectionId -> seq<BoxSet>)
    requires forall k :: k in a ==> k in groups
    requires forall k :: k in b ==> k in groups
    ensures forall k :: k in a + b ==> k in groups
    ensures Plan(a + b, groups, listing) == Plan(a, groups, listing) + Plan(b, groups, listing)
    decreases |b|
  {
    if b == [] {
      assert a + b == a;
    } else {
      var init := b[..|b| - 1];
      var last := b[|b| - 1];
      assert b == init + [last];
      assert forall k :: k in init ==> k in b;
      PlanAppend(a, init, groups, listing);
      assert a + b == (a + init) + [last];
      PlanSnoc(a + init, last, groups, listing);
      PlanSnoc(init, last, groups, listing);
      AppendAssoc(Plan(a, groups, listing), Plan(init, groups, listing), GroupActions(groups[last], listing(last)));
    }
  }

  /** Every action in the plan comes from one of the listed groups, and every group's actions are in it. */
  lemma {:induction false} PlanMembership(keys: seq<CollectionId>, groups: map<CollectionId, Group>,
                                          listing: CollectionId -> seq<BoxSet>, action: Action)
    requires forall k :: k in keys ==> k in groups
    ensures action in Plan(keys, groups, listing) <==>
      exists k :: k in keys && action in GroupActions(groups[k], listing(k))
    decreases |keys|
  {
    if keys != [] {
      var init := keys[..|keys| - 1];
      var last := keys[|keys| - 1];
      assert forall k :: k in init ==> k in keys;
      PlanMembership(init, groups, listing, action);
      assert keys == init + [last];
      if exists k :: k in keys && action in GroupActions(groups[k], listing(k)) {
        var k :| k in keys && action in GroupActions(groups[k], listing(k));
        if k != last {
          assert k in init;
        }
      }
    }
  }

  /** A collection is created exactly for the groups with more than one movie, under their encoded names. */
  lemma PlanCreatesLargeGroups(collections: Collections, listing: CollectionId -> seq<BoxSet>, encodedName: string)
    requires collections.Valid()
    ensures CreateRequest(encodedName) in Plan(collections.order, collections.groups, listing) <==>
      exists k :: k in collections.order && |collections.groups[k].ids| > 1 && collections.groups[k].name == encodedName
  {
    PlanMembership(collections.order, collections.groups, listing, CreateRequest(encodedName));
  }

  /**
   * Movies are added only to the first box set named exactly like a large
   * group, and the request carries that group's ids joined with ','.
   */
  lemma PlanAddsToFirstMatch(collections: Collections, listing: CollectionId -> seq<BoxSet>, boxSetId: string, idsParam: string)
    requires collections.Valid()
    ensures AddItemsRequest(boxSetId, idsParam) in Plan(collections.order, collections.groups, listing) <==>
      exists k :: && k in collections.order
                  && |collections.groups[k].ids| > 1
                  && FirstMatch(listing(k), collections.groups[k].rawName) == Some(boxSetId)
                  && idsParam == JoinIds(collections.groups[k].ids)
  {
    PlanMembership(collections.order, collections.groups, listing, AddItemsRequest(boxSetId, idsParam));
  }

  /** A large group whose name matches no box set is reported, and nothing else is. */
  lemma PlanReportsUnmatched(collections: Collections, listing: CollectionId -> seq<BoxSet>, rawName: string)
    requires collections.Valid()
    ensures SortError(rawName) in Plan(collections.order, collections.groups, listing) <==>
      exists k :: && k in collections.order
                  && |collections.groups[k].ids| > 1
                  && FirstMatch(listing(k), collections.groups[k].rawName).None?
                  && collections.groups[k].rawName == rawName
  {
    PlanMembership(collections.order, collections.groups, listing, SortError(rawName));
  }

  /** `create_collections`: walks the dict in key order and issues the requests for each large group. */
  method CreateCollections(collections: Collections, listing: CollectionId -> seq<BoxSet>) returns (actions: seq<Action>)
    requires collections.Valid()
    ensures actions == Plan(collections.order, collections.groups, listing)
  {
    var order := collections.order;
    actions := [];
    for i := 0 to |order|
      invariant actions == Plan(order[..i], collections.groups, listing)
    {
      var key := order[i];
      var data := collections.groups[key];
      ghost var before := actions;
      if |data.ids| > 1 {
        actions := actions + [CreateRequest(data.name)];
        var matches := MatchingIds(listing(key), data.rawName);
        if matches != [] {
          actions := actions + [AddItemsRequest(matches[0], JoinIds(data.ids))];
          AppendAssoc(before, [CreateRequest(data.name)], [AddItemsRequest(matches[0], JoinIds(data.ids))]);
        } else {
          actions := actions + [SortError(data.rawName)];
          AppendAssoc(before, [CreateRequest(data.name)], [SortError(data.rawName)]);
        }
      }
      assert actions == before + GroupActions(data, listing(key));
      assert order[..i + 1] == order[..i] + [key];
      PlanSnoc(order[..i], key, collections.groups, listing);
    }
    assert order[..|order|] == order;
  }

  // ---------------------------------------------------------------------
  // The whole run
  // ---------------------------------------------------------------------

  /**
   * `main` without the library fetch and the final metadata refresh: the
   * pass over the movies, then the collection requests for the resulting dict.
   */
  method Synchronise(movies: seq<Movie>, provider: string -> Lookup, quote: string -> string,
                     listing: CollectionId -> seq<BoxSet>)
    returns (errorFile: Option<string>, actions: seq<Action>)
    ensures errorFile.None? <==> Errors(movies, provider) == []
    ensures errorFile.Some? ==> errorFile.value == ErrorFileText(Errors(movies, provider))
    ensures var c := Aggregate(movies, provider, quote); c.Valid() && actions == Plan(c.order, c.groups, listing)
  {
    var collections;
    collections, errorFile := GetCollectionData(movies, provider, quote);
    actions := CreateCollections(collections, listing);
  }
}
