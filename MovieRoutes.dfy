/**
 * The movie routes: the read path (the newest-first listing and the lookup
 * by id) and the create, update and delete handlers, which are disabled.
 * Every handler computes its reply from the request and a read-only view
 * of the collection; none of them returns a changed collection.
 */
module MovieRoutes {
  import opened Basics
  import opened MovieModel

  /** The `:id` path parameter: a well-formed ObjectId, or text that does not cast to one. */
  datatype IdParam = ObjectId(value: nat) | Malformed(raw: string)

  /** What a query against the collection sees: its documents, or a store error. */
  datatype StoreView = Reachable(docs: seq<Movie>) | Unreachable

  datatype Request =
    | ListAll
    | GetOne(id: IdParam)
    | Create(body: MovieFields)
    | Update(id: IdParam, body: MovieFields)
    | Delete(id: IdParam)

  /** The JSON reply: the two successful shapes and the `{success: false, message}` envelope. */
  datatype Reply =
    | Listed(count: nat, movies: seq<Movie>)
    | Found(movie: Movie)
    | Failed(status: nat, message: string)

  const MovieNotFound := "Movie not found"
  const CreatingDisabled := "Creating movies is disabled"
  const UpdatingDisabled := "Updating movies is disabled"
  const DeletingDisabled := "Deleting movies is disabled"

  function Status(r: Reply): nat
  {
    match r
    case Listed(_, _) => 200
    case Found(_) => 200
    case Failed(status, _) => status
  }

  predicate IsWrite(req: Request)
  {
    req.Create? || req.Update? || req.Delete?
  }

  // ---------------------------------------------------------------------
  // GET / : all movies, newest first
  // ---------------------------------------------------------------------

  /** `createdAt` never increases along the sequence. */
  ghost predicate NewestFirst(s: seq<Movie>)
  {
    forall i, j :: 0 <= i < j < |s| ==> s[i].createdAt >= s[j].createdAt
  }

  /** Every document of `s` is no newer than `t`. */
  ghost predicate NoNewerThan(s: seq<Movie>, t: int)
  {
    forall i :: 0 <= i < |s| ==> s[i].createdAt <= t
  }

  lemma NewestFirstCons(x: Movie, s: seq<Movie>)
    requires NewestFirst(s) && NoNewerThan(s, x.createdAt)
    ensures NewestFirst([x] + s)
  {
  }

  lemma NoNewerThanPermutation(s: seq<Movie>, u: seq<Movie>, t: int)
    requires multiset(s) == multiset(u) && NoNewerThan(u, t)
    ensures NoNewerThan(s, t)
  {
    forall i | 0 <= i < |s| ensures s[i].createdAt <= t {
      assert s[i] in multiset(u);
      var j :| 0 <= j < |u| && u[j] == s[i];
    }
  }

  /** Keeping the head of a newest-first sequence in front of the insertion into its tail. */
  lemma InsertBehindHead(m: Movie, s: seq<Movie>, rest: seq<Movie>)
    requires NewestFirst(s) && s != [] && s[0].createdAt > m.createdAt
    requires NewestFirst(rest) && multiset(rest) == multiset(s[1..]) + multiset{m}
    ensures NewestFirst([s[0]] + rest)
    ensures multiset([s[0]] + rest) == multiset(s) + multiset{m}
  {
    assert s == [s[0]] + s[1..];
    NoNewerThanPermutation(rest, s[1..] + [m], s[0].createdAt);
    NewestFirstCons(s[0], rest);
  }

  /** Places `m` into a newest-first sequence. */
  function InsertByCreatedAt(m: Movie, s: seq<Movie>): (r: seq<Movie>)
    requires NewestFirst(s)
    ensures NewestFirst(r)
    ensures multiset(r) == multiset(s) + multiset{m}
  {
    if s == [] || s[0].createdAt <= m.createdAt then
      [m] + s
    else
      var rest := InsertByCreatedAt(m, s[1..]);
      InsertBehindHead(m, s, rest);
      [s[0]] + rest
  }

  /** The order of `.sort({ createdAt: -1 })`: newest first, same documents. */
  function SortByCreatedAt(s: seq<Movie>): (r: seq<Movie>)
    ensures NewestFirst(r)
    ensures multiset(r) == multiset(s)
  {
    if s == [] then []
    else
      assert s == [s[0]] + s[1..];
      InsertByCreatedAt(s[0], SortByCreatedAt(s[1..]))
  }

  /** GET /: every document, newest first, with `count` the length of that list; 500 when the store fails. */
  function ListMovies(view: StoreView): (r: Reply)
    ensures view.Unreachable? ==> r == Failed(500, InternalError)
    ensures view.Reachable? ==>
      && r.Listed?
      && r.count == |r.movies|
      && NewestFirst(r.movies)
      && multiset(r.movies) == multiset(view.docs)
  {
    match view
    case Unreachable => Failed(500, InternalError)
    case Reachable(docs) =>
      var movies := SortByCreatedAt(docs);
      Listed(|movies|, movies)
  }

  // ---------------------------------------------------------------------
  // GET /:id
  // ---------------------------------------------------------------------

  /** `findById`: the first document carrying the id, if any. */
  function FindById(docs: seq<Movie>, id: nat): (r: Option<Movie>)
    ensures r.Some? ==> r.value in docs && r.value.id == id
    ensures r.None? ==> forall i :: 0 <= i < |docs| ==> docs[i].id != id
  {
    if docs == [] then None
    else if docs[0].id == id then Some(docs[0])
    else FindById(docs[1..], id)
  }

  /**
   * GET /:id: the document with that id. A malformed id (the ObjectId cast
   * error) and a well-formed id that matches nothing give the same 404.
   */
  function GetMovie(id: IdParam, view: StoreView): (r: Reply)
    ensures id.Malformed? ==> r == Failed(404, MovieNotFound)
    ensures id.ObjectId? && view.Unreachable? ==> r == Failed(500, InternalError)
    ensures id.ObjectId? && view.Reachable? ==>
      && (r == Failed(404, MovieNotFound) <==> forall i :: 0 <= i < |view.docs| ==> view.docs[i].id != id.value)
      && (r.Found? <==> exists i :: 0 <= i < |view.docs| && view.docs[i].id == id.value)
      && (r.Found? ==> r.movie in view.docs && r.movie.id == id.value)
  {
    match id
    case Malformed(_) => Failed(404, MovieNotFound)
    case ObjectId(n) =>
      match view
      case Unreachable => Failed(500, InternalError)
      case Reachable(docs) =>
        match FindById(docs, n)
        case None => Failed(404, MovieNotFound)
        case Some(m) => Found(m)
  }

  /** In a collection whose ids are unique, looking up a document's id returns exactly that document. */
  lemma {:induction false} GetMovieExact(docs: seq<Movie>, k: nat)
    requires UniqueIds(docs) && k < |docs|
    ensures GetMovie(ObjectId(docs[k].id), Reachable(docs)) == Found(docs[k])
  {
    var r := FindById(docs, docs[k].id);
    assert r.Some?;
    var j :| 0 <= j < |docs| && docs[j] == r.value;
    assert docs[j].id == docs[k].id;
  }

  /** A malformed id cannot be told apart from an id that matches no document. */
  lemma NotFoundCollapses(raw: string, n: nat, docs: seq<Movie>)
    requires forall i :: 0 <= i < |docs| ==> docs[i].id != n
    ensures GetMovie(Malformed(raw), Reachable(docs)) == GetMovie(ObjectId(n), Reachable(docs))
  {
  }

  // ---------------------------------------------------------------------
  // POST /, PUT /:id, DELETE /:id: disabled
  // ---------------------------------------------------------------------

  /** POST /: creation is disabled, whatever the body. */
  function CreateMovie(body: MovieFields): (r: Reply)
    ensures Status(r) == 405 && r == Failed(405, CreatingDisabled)
  {
    Failed(405, CreatingDisabled)
  }

  /** PUT /:id: updating is disabled, whatever the id and body. */
  function UpdateMovie(id: IdParam, body: MovieFields): (r: Reply)
    ensures Status(r) == 405 && r == Failed(405, UpdatingDisabled)
  {
    Failed(405, UpdatingDisabled)
  }

  /** DELETE /:id: deletion is disabled, whatever the id. */
  function DeleteMovie(id: IdParam): (r: Reply)
    ensures Status(r) == 405 && r == Failed(405, DeletingDisabled)
  {
    Failed(405, DeletingDisabled)
  }

  /**
   * The router: each method and path to its handler. Only the two reads
   * can succeed, and only they can see a store error.
   */
  function Route(req: Request, view: StoreView): (r: Reply)
    ensures IsWrite(req) ==> Status(r) == 405
    ensures req.ListAll? ==> r.Listed? || r == Failed(500, InternalError)
    ensures req.GetOne? ==> r.Found? || r == Failed(404, MovieNotFound) || r == Failed(500, InternalError)
    ensures Status(r) == 200 <==> r.Listed? || r.Found?
  {
    match req
    case ListAll => ListMovies(view)
    case GetOne(id) => GetMovie(id, view)
    case Create(body) => CreateMovie(body)
    case Update(id, body) => UpdateMovie(id, body)
    case Delete(id) => DeleteMovie(id)
  }

  /**
   * A write request is answered with 405 without reading the collection:
   * its reply is the same whatever the store holds or whether it is reachable.
   */
  lemma WritesIgnoreStore(req: Request, v1: StoreView, v2: StoreView)
    requires IsWrite(req)
    ensures Route(req, v1) == Route(req, v2)
    ensures Status(Route(req, v1)) == 405
  {
  }
}
