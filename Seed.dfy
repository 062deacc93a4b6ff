/**
 * The startup reconciliation of the Movie collection with the demo seed
 * list: upsert every seed entry whose title is not blocked, backfill
 * missing posters by title, and delete every document whose title is
 * blocked. The seed list and the blocklist are parameters; the constants
 * the server passes are DemoSeeds and BlockedTitles.
 *
 * The first half states each phase as a function of the collection and
 * proves what the routine promises (blocked titles gone, non-poster fields
 * kept, idempotence); the second half is the collection as the routine
 * updates it, one method per phase, each proved against its function.
 */
module Seed {
  import opened Basics
  import opened MovieModel

  /** One entry of the seed list. */
  datatype SeedMovie = SeedMovie(
    title: string, year: int, genre: string, director: string, plot: string, posterUrl: string)

  /** The natural key the upsert matches on: exact title and year. */
  datatype Key = Key(title: string, year: int)

  /** The documents of the collection, in natural order, and the id the next insert receives. */
  datatype Collection = Collection(docs: seq<Movie>, nextId: nat)

  function KeyOf(m: Movie): Key { Key(m.title, m.year) }

  function SeedKey(s: SeedMovie): Key { Key(s.title, s.year) }

  /** Blocklist membership compares lower-cased titles. */
  predicate IsBlocked(title: string, blocked: set<string>)
  {
    Lower(title) in blocked
  }

  ghost predicate HasKey(docs: seq<Movie>, k: Key)
  {
    exists i :: 0 <= i < |docs| && KeyOf(docs[i]) == k
  }

  /** No earlier document carries the key of `docs[i]`. */
  ghost predicate IsFirst(docs: seq<Movie>, i: int)
    requires 0 <= i < |docs|
  {
    forall j :: 0 <= j < i ==> KeyOf(docs[j]) != KeyOf(docs[i])
  }

  /** `x` and `y` agree on every field except possibly posterUrl. */
  predicate SameExceptPoster(x: Movie, y: Movie)
  {
    && x.id == y.id && x.title == y.title && x.year == y.year && x.genre == y.genre
    && x.director == y.director && x.plot == y.plot && x.createdBy == y.createdBy
    && x.createdAt == y.createdAt
  }

  ghost predicate IdsBelow(docs: seq<Movie>, n: nat)
  {
    forall i :: 0 <= i < |docs| ==> docs[i].id < n
  }

  /** The collection's ids are unique and all below the next id. */
  ghost predicate WellFormed(c: Collection)
  {
    UniqueIds(c.docs) && IdsBelow(c.docs, c.nextId)
  }

  // ---------------------------------------------------------------------
  // The seed list filter
  // ---------------------------------------------------------------------

  /** `activeSeedMovies`: the seed entries whose lower-cased title is not blocked. */
  function Active(seeds: seq<SeedMovie>, blocked: set<string>): (r: seq<SeedMovie>)
    ensures |r| <= |seeds|
  {
    if seeds == [] then []
    else (if IsBlocked(seeds[0].title, blocked) then [] else [seeds[0]]) + Active(seeds[1..], blocked)
  }

  /** The filter keeps exactly the seed entries whose lower-cased title is not blocked. */
  lemma {:induction false} ActiveMembers(seeds: seq<SeedMovie>, blocked: set<string>)
    ensures forall s :: s in Active(seeds, blocked) <==> s in seeds && !IsBlocked(s.title, blocked)
  {
    if seeds != [] {
      assert seeds == [seeds[0]] + seeds[1..];
      ActiveMembers(seeds[1..], blocked);
    }
  }

  /** The filter keeps the order: it distributes over concatenation. */
  lemma {:induction false} ActiveConcat(a: seq<SeedMovie>, b: seq<SeedMovie>, blocked: set<string>)
    ensures Active(a + b, blocked) == Active(a, blocked) + Active(b, blocked)
  {
    if a == [] {
      assert a + b == b;
    } else {
      var head := if IsBlocked(a[0].title, blocked) then [] else [a[0]];
      assert (a + b)[0] == a[0];
      assert (a + b)[1..] == a[1..] + b;
      assert Active(a + b, blocked) == head + Active(a[1..] + b, blocked);
      ActiveConcat(a[1..], b, blocked);
      assert Active(a, blocked) == head + Active(a[1..], blocked);
    }
  }

  // ---------------------------------------------------------------------
  // Upsert phase
  // ---------------------------------------------------------------------

  /** The first document carrying key `k`, as `findOneAndUpdate` picks it. */
  function IndexOfKey(docs: seq<Movie>, k: Key): (r: Option<nat>)
    ensures r.Some? ==> r.value < |docs| && KeyOf(docs[r.value]) == k && IsFirst(docs, r.value)
    ensures r.None? <==> !HasKey(docs, k)
  {
    if docs == [] then None
    else if KeyOf(docs[0]) == k then Some(0)
    else
      match IndexOfKey(docs[1..], k)
      case None => None
      case Some(i) => Some(i + 1)
  }

  /** The document an upsert inserts: the seed's fields, createdBy unset, createdAt the current time. */
  function Inserted(s: SeedMovie, id: nat, now: int): (r: Movie)
    ensures KeyOf(r) == SeedKey(s) && r.id == id && r.createdAt == now && r.createdBy.None?
    ensures r.genre == s.genre && r.director == s.director && r.plot == Some(s.plot)
    ensures r.posterUrl == Some(s.posterUrl)
  {
    Movie(id, s.title, s.year, s.genre, s.director, Some(s.plot), Some(s.posterUrl), None, now)
  }

  /**
   * One `findOneAndUpdate({title, year}, {$setOnInsert: rest, $set: {posterUrl}}, {upsert: true})`:
   * the first document with the seed's exact title and year gets the
   * seed's poster and keeps everything else; when there is none, the whole
   * seed entry is inserted at the end.
   */
  function UpsertOne(c: Collection, s: SeedMovie, now: int): (r: Collection)
    ensures HasKey(r.docs, SeedKey(s))
    ensures !HasKey(c.docs, SeedKey(s)) ==> r == Collection(c.docs + [Inserted(s, c.nextId, now)], c.nextId + 1)
    ensures HasKey(c.docs, SeedKey(s)) ==> |r.docs| == |c.docs| && r.nextId == c.nextId
    ensures |c.docs| <= |r.docs|
    ensures forall i :: 0 <= i < |c.docs| ==> SameExceptPoster(r.docs[i], c.docs[i])
    ensures WellFormed(c) ==> WellFormed(r)
  {
    match IndexOfKey(c.docs, SeedKey(s))
    case Some(k) =>
      var docs := c.docs[k := c.docs[k].(posterUrl := Some(s.posterUrl))];
      assert KeyOf(docs[k]) == SeedKey(s);
      Collection(docs, c.nextId)
    case None =>
      var docs := c.docs + [Inserted(s, c.nextId, now)];
      assert KeyOf(docs[|c.docs|]) == SeedKey(s);
      Collection(docs, c.nextId + 1)
  }

  /**
   * Which document an upsert changes: only the first one with the seed's
   * key, and that one ends up with the seed's poster.
   */
  lemma UpsertOneTouchesFirst(c: Collection, s: SeedMovie, now: int)
    ensures var r := UpsertOne(c, s, now);
      && (forall i :: 0 <= i < |c.docs| && !(KeyOf(c.docs[i]) == SeedKey(s) && IsFirst(c.docs, i)) ==> r.docs[i] == c.docs[i])
      && (forall i :: 0 <= i < |r.docs| && KeyOf(r.docs[i]) == SeedKey(s) && IsFirst(r.docs, i) ==> r.docs[i].posterUrl == Some(s.posterUrl))
  {
    var r := UpsertOne(c, s, now);
    var found := IndexOfKey(c.docs, SeedKey(s));
    if found.Some? {
      var k := found.value;
      assert forall i :: 0 <= i < |r.docs| ==> KeyOf(r.docs[i]) == KeyOf(c.docs[i]);
    }
  }

  /** The upsert loop over the active seed entries, in order. */
  function UpsertAll(c: Collection, active: seq<SeedMovie>, now: int): (r: Collection)
    ensures |c.docs| <= |r.docs| && c.nextId <= r.nextId
    ensures |r.docs| - |c.docs| == r.nextId - c.nextId <= |active|
    ensures forall i :: 0 <= i < |c.docs| ==> SameExceptPoster(r.docs[i], c.docs[i])
    ensures forall k :: HasKey(c.docs, k) ==> HasKey(r.docs, k)
    ensures forall s :: s in active ==> HasKey(r.docs, SeedKey(s))
    ensures WellFormed(c) ==> WellFormed(r)
  {
    if active == [] then c
    else
      var init := active[..|active| - 1];
      var last := active[|active| - 1];
      var mid := UpsertAll(c, init, now);
      var r := UpsertOne(mid, last, now);
      KeysKept(mid.docs, r.docs);
      assert forall s :: s in active ==> s in init || s == last;
      r
  }

  /** Documents that keep their keys keep every key present. */
  lemma KeysKept(before: seq<Movie>, after: seq<Movie>)
    requires |before| <= |after|
    requires forall i :: 0 <= i < |before| ==> SameExceptPoster(after[i], before[i])
    ensures forall k :: HasKey(before, k) ==> HasKey(after, k)
  {
    forall k | HasKey(before, k) ensures HasKey(after, k) {
      var i :| 0 <= i < |before| && KeyOf(before[i]) == k;
      assert KeyOf(after[i]) == k;
    }
  }

  /** Two sequences of documents with the same key at every position. */
  ghost predicate SameKeys(a: seq<Movie>, b: seq<Movie>)
  {
    |a| == |b| && forall i :: 0 <= i < |a| ==> KeyOf(a[i]) == KeyOf(b[i])
  }

  lemma SameKeysFirst(a: seq<Movie>, b: seq<Movie>)
    requires SameKeys(a, b)
    ensures forall i :: 0 <= i < |a| ==> (IsFirst(a, i) <==> IsFirst(b, i))
  {
  }

  /** Two documents that differ at most in the poster and agree on it are equal. */
  lemma SamePosterEqual(x: Movie, y: Movie)
    requires SameExceptPoster(x, y) && x.posterUrl == y.posterUrl
    ensures x == y
  {
  }

  // ---------------------------------------------------------------------
  // Backfill phase
  // ---------------------------------------------------------------------

  /**
   * `postersByTitle`: lower-cased title to poster, built from the active
   * entries in order, so that a later entry with the same lower-cased
   * title replaces an earlier one.
   */
  function PostersByTitle(active: seq<SeedMovie>): (r: map<string, string>)
    ensures r.Keys == set i | 0 <= i < |active| :: Lower(active[i].title)
  {
    if active == [] then map[]
    else
      var init := active[..|active| - 1];
      var last := active[|active| - 1];
      var m := PostersByTitle(init);
      assert forall i :: 0 <= i < |init| ==> init[i] == active[i];
      m[Lower(last.title) := last.posterUrl]
  }

  /** For each lower-cased title, the poster in the map is that of the last active entry with that title. */
  lemma {:induction false} PostersLastWins(active: seq<SeedMovie>, i: nat)
    requires i < |active|
    requires forall j :: i < j < |active| ==> Lower(active[j].title) != Lower(active[i].title)
    ensures PostersByTitle(active)[Lower(active[i].title)] == active[i].posterUrl
  {
    if i < |active| - 1 {
      var init := active[..|active| - 1];
      assert init[i] == active[i];
      PostersLastWins(init, i);
    }
  }

  /** The backfill query: posterUrl absent or the empty string. */
  predicate NeedsPoster(m: Movie)
  {
    m.posterUrl.None? || m.posterUrl == Some("")
  }

  /** The backfill of one document: a poster only when it lacks one and its title has a non-empty poster. */
  function Fill(m: Movie, posters: map<string, string>): (r: Movie)
    ensures SameExceptPoster(r, m)
    ensures r.posterUrl != m.posterUrl <==>
      NeedsPoster(m) && Lower(m.title) in posters && posters[Lower(m.title)] != ""
    ensures r.posterUrl != m.posterUrl ==> r.posterUrl == Some(posters[Lower(m.title)])
  {
    if NeedsPoster(m) && Lower(m.title) in posters && posters[Lower(m.title)] != "" then
      m.(posterUrl := Some(posters[Lower(m.title)]))
    else
      m
  }

  /** The backfill loop over the whole collection. */
  function Backfill(docs: seq<Movie>, posters: map<string, string>): (r: seq<Movie>)
    ensures |r| == |docs|
    ensures forall i :: 0 <= i < |docs| ==> r[i] == Fill(docs[i], posters)
  {
    if docs == [] then []
    else Backfill(docs[..|docs| - 1], posters) + [Fill(docs[|docs| - 1], posters)]
  }

  /**
   * Backfill changes only documents without a poster whose lower-cased
   * title has a non-empty poster, and afterwards no such document is left.
   */
  lemma BackfillEffect(docs: seq<Movie>, posters: map<string, string>, i: nat)
    requires i < |docs|
    ensures var r := Backfill(docs, posters);
      && SameExceptPoster(r[i], docs[i])
      && (r[i] != docs[i] <==> NeedsPoster(docs[i]) && Lower(docs[i].title) in posters && posters[Lower(docs[i].title)] != "")
      && (r[i] != docs[i] ==> r[i].posterUrl == Some(posters[Lower(docs[i].title)]))
      && !(NeedsPoster(r[i]) && Lower(r[i].title) in posters && posters[Lower(r[i].title)] != "")
  {
  }

  /** Backfilling twice is backfilling once. */
  lemma BackfillIdempotent(docs: seq<Movie>, posters: map<string, string>)
    ensures Backfill(Backfill(docs, posters), posters) == Backfill(docs, posters)
  {
  }

  /** A blocked title is never backfilled: the poster map is built from the active entries only. */
  lemma {:induction false} BlockedNeverBackfilled(m: Movie, seeds: seq<SeedMovie>, blocked: set<string>)
    requires IsBlocked(m.title, blocked)
    ensures Fill(m, PostersByTitle(Active(seeds, blocked))) == m
  {
    var active := Active(seeds, blocked);
    var posters := PostersByTitle(active);
    ActiveMembers(seeds, blocked);
    forall i | 0 <= i < |active| ensures Lower(active[i].title) != Lower(m.title) {
      assert active[i] in active;
    }
  }

  // ---------------------------------------------------------------------
  // Cleanup phase
  // ---------------------------------------------------------------------

  /** The documents that survive the deletion of blocked titles, in order. */
  function Cleanup(docs: seq<Movie>, blocked: set<string>): (r: seq<Movie>)
    ensures |r| <= |docs|
  {
    if docs == [] then []
    else
      var last := docs[|docs| - 1];
      Cleanup(docs[..|docs| - 1], blocked) + (if IsBlocked(last.title, blocked) then [] else [last])
  }

  /** Cleanup keeps exactly the documents whose lower-cased title is not blocked. */
  lemma {:induction false} CleanupMembers(docs: seq<Movie>, blocked: set<string>)
    ensures forall m :: m in Cleanup(docs, blocked) <==> m in docs && !IsBlocked(m.title, blocked)
  {
    if docs != [] {
      var init := docs[..|docs| - 1];
      var last := docs[|docs| - 1];
      assert docs == init + [last];
      CleanupMembers(init, blocked);
    }
  }

  /** A collection with no blocked title is left as it is. */
  lemma {:induction false} CleanupNothingBlocked(docs: seq<Movie>, blocked: set<string>)
    requires forall m :: m in docs ==> !IsBlocked(m.title, blocked)
    ensures Cleanup(docs, blocked) == docs
  {
    if docs != [] {
      var init := docs[..|docs| - 1];
      var last := docs[|docs| - 1];
      assert docs == init + [last];
      assert last in docs;
      CleanupNothingBlocked(init, blocked);
    }
  }

  /** Cleaning up twice is cleaning up once. */
  lemma CleanupIdempotent(docs: seq<Movie>, blocked: set<string>)
    ensures Cleanup(Cleanup(docs, blocked), blocked) == Cleanup(docs, blocked)
  {
    CleanupMembers(docs, blocked);
    CleanupNothingBlocked(Cleanup(docs, blocked), blocked);
  }

  /** Cleanup keeps ids unique (it only drops documents). */
  lemma {:induction false} CleanupKeepsIds(docs: seq<Movie>, blocked: set<string>, n: nat)
    requires UniqueIds(docs) && IdsBelow(docs, n)
    ensures UniqueIds(Cleanup(docs, blocked)) && IdsBelow(Cleanup(docs, blocked), n)
  {
    if docs != [] {
      var init := docs[..|docs| - 1];
      var last := docs[|docs| - 1];
      CleanupKeepsIds(init, blocked, n);
      CleanupMembers(init, blocked);
      var c := Cleanup(init, blocked);
      forall i | 0 <= i < |c| ensures c[i].id != last.id {
        assert c[i] in init;
        var j :| 0 <= j < |init| && init[j] == c[i];
        assert docs[j] == c[i];
      }
    }
  }

  /** A key whose title is not blocked is present after cleanup exactly when it was before. */
  lemma {:induction false} CleanupKeepsKey(docs: seq<Movie>, blocked: set<string>, k: Key)
    requires !IsBlocked(k.title, blocked)
    ensures HasKey(Cleanup(docs, blocked), k) <==> HasKey(docs, k)
  {
    var c := Cleanup(docs, blocked);
    CleanupMembers(docs, blocked);
    if HasKey(docs, k) {
      var i :| 0 <= i < |docs| && KeyOf(docs[i]) == k;
      assert docs[i] in c;
      var j :| 0 <= j < |c| && c[j] == docs[i];
    }
    if HasKey(c, k) {
      var j :| 0 <= j < |c| && KeyOf(c[j]) == k;
      assert c[j] in docs;
      var i :| 0 <= i < |docs| && docs[i] == c[j];
    }
  }

  // ---------------------------------------------------------------------
  // The whole routine
  // ---------------------------------------------------------------------

  /** The collection after one run of the startup routine at time `now`. */
  function Reconciled(c: Collection, seeds: seq<SeedMovie>, blocked: set<string>, now: int): (r: Collection)
    ensures c.nextId <= r.nextId <= c.nextId + |Active(seeds, blocked)|
    ensures |r.docs| <= |c.docs| + |Active(seeds, blocked)|
  {
    var active := Active(seeds, blocked);
    var u := UpsertAll(c, active, now);
    Collection(Cleanup(Backfill(u.docs, PostersByTitle(active)), blocked), u.nextId)
  }

  /** After a run no document with a blocked title remains. */
  lemma ReconciledNoBlocked(c: Collection, seeds: seq<SeedMovie>, blocked: set<string>, now: int)
    ensures forall m :: m in Reconciled(c, seeds, blocked, now).docs ==> !IsBlocked(m.title, blocked)
  {
    var active := Active(seeds, blocked);
    CleanupMembers(Backfill(UpsertAll(c, active, now).docs, PostersByTitle(active)), blocked);
  }

  /**
   * After a run every key that was present and is not blocked is still
   * present, and so is the key of every seed entry that is not blocked.
   */
  lemma ReconciledKeepsKeys(c: Collection, seeds: seq<SeedMovie>, blocked: set<string>, now: int)
    ensures var r := Reconciled(c, seeds, blocked, now);
      && (forall k :: HasKey(c.docs, k) && !IsBlocked(k.title, blocked) ==> HasKey(r.docs, k))
      && (forall s :: s in seeds && !IsBlocked(s.title, blocked) ==> HasKey(r.docs, SeedKey(s)))
  {
    var active := Active(seeds, blocked);
    var u := UpsertAll(c, active, now);
    var b := Backfill(u.docs, PostersByTitle(active));
    var r := Reconciled(c, seeds, blocked, now);
    assert r.docs == Cleanup(b, blocked);
    KeysKept(u.docs, b);
    forall k | HasKey(u.docs, k) && !IsBlocked(k.title, blocked) ensures HasKey(r.docs, k) {
      CleanupKeepsKey(b, blocked, k);
    }
    ActiveMembers(seeds, blocked);
    forall s | s in seeds && !IsBlocked(s.title, blocked) ensures HasKey(u.docs, SeedKey(s)) {
      assert s in active;
    }
  }

  /** A run keeps ids unique and below the next id. */
  lemma ReconciledWellFormed(c: Collection, seeds: seq<SeedMovie>, blocked: set<string>, now: int)
    requires WellFormed(c)
    ensures WellFormed(Reconciled(c, seeds, blocked, now))
  {
    var active := Active(seeds, blocked);
    var u := UpsertAll(c, active, now);
    var b := Backfill(u.docs, PostersByTitle(active));
    assert forall i :: 0 <= i < |b| ==> b[i].id == u.docs[i].id;
    CleanupKeepsIds(b, blocked, u.nextId);
  }

  // ---------------------------------------------------------------------
  // Idempotence
  // ---------------------------------------------------------------------

  /** The poster of the last active entry with key `k`, if any. */
  function LastPoster(active: seq<SeedMovie>, k: Key): Option<string>
  {
    if active == [] then None
    else if SeedKey(active[|active| - 1]) == k then Some(active[|active| - 1].posterUrl)
    else LastPoster(active[..|active| - 1], k)
  }

  /** What the upserts do to a document that is the first with its key. */
  function Stamp(m: Movie, active: seq<SeedMovie>): Movie
  {
    match LastPoster(active, KeyOf(m))
    case None => m
    case Some(p) => m.(posterUrl := Some(p))
  }

  /**
   * The upsert phase on a collection that already holds every active key:
   * the first document of each key gets the poster of the last entry with
   * that key, and nothing else changes.
   */
  ghost function RefreshPosters(docs: seq<Movie>, active: seq<SeedMovie>): (r: seq<Movie>)
    ensures |r| == |docs|
    ensures forall i :: 0 <= i < |docs| ==> r[i] == if IsFirst(docs, i) then Stamp(docs[i], active) else docs[i]
  {
    seq(|docs|, i requires 0 <= i < |docs| => if IsFirst(docs, i) then Stamp(docs[i], active) else docs[i])
  }

  /** Every first document of a key already carries the poster the upserts would give it. */
  ghost predicate Stamped(docs: seq<Movie>, active: seq<SeedMovie>)
  {
    forall i :: 0 <= i < |docs| && IsFirst(docs, i) ==> Stamp(docs[i], active) == docs[i]
  }

  /** A stamp changes only the poster. */
  lemma StampKeepsFields(m: Movie, active: seq<SeedMovie>)
    ensures SameExceptPoster(Stamp(m, active), m)
  {
  }

  /** The poster of the last entry with a key is not changed by an entry with a different key. */
  lemma LastPosterOtherKey(active: seq<SeedMovie>, s: SeedMovie, k: Key)
    requires SeedKey(s) != k
    ensures LastPoster(active + [s], k) == LastPoster(active, k)
  {
    assert (active + [s])[..|active|] == active;
  }

  /** Refreshing keeps every key and every non-poster field. */
  lemma RefreshKeepsKeys(docs: seq<Movie>, active: seq<SeedMovie>)
    ensures SameKeys(RefreshPosters(docs, active), docs)
    ensures forall i :: 0 <= i < |docs| ==> SameExceptPoster(RefreshPosters(docs, active)[i], docs[i])
  {
    var r := RefreshPosters(docs, active);
    forall i | 0 <= i < |docs| ensures SameExceptPoster(r[i], docs[i]) {
      StampKeepsFields(docs[i], active);
    }
  }

  /** One document of the refresh step below. */
  lemma RefreshStepAt(docs: seq<Movie>, init: seq<SeedMovie>, last: SeedMovie, now: int, nextId: nat, i: nat)
    requires i < |docs|
    requires HasKey(docs, SeedKey(last))
    ensures var r := UpsertOne(Collection(RefreshPosters(docs, init), nextId), last, now);
      i < |r.docs| && r.docs[i] == RefreshPosters(docs, init + [last])[i]
  {
    var active := init + [last];
    var mid := Collection(RefreshPosters(docs, init), nextId);
    var r := UpsertOne(mid, last, now);
    var want := RefreshPosters(docs, active);
    assert active[..|active| - 1] == init;
    RefreshKeepsKeys(docs, init);
    SameKeysFirst(mid.docs, docs);
    UpsertOneTouchesFirst(mid, last, now);
    if KeyOf(docs[i]) != SeedKey(last) {
      LastPosterOtherKey(init, last, KeyOf(docs[i]));
      assert r.docs[i] == mid.docs[i];
    } else if IsFirst(docs, i) {
      StampKeepsFields(docs[i], active);
      SamePosterEqual(r.docs[i], want[i]);
    } else {
      assert r.docs[i] == mid.docs[i];
    }
  }

  /** One step of the refresh: refreshing with one more entry is the upsert of that entry. */
  lemma RefreshStep(docs: seq<Movie>, init: seq<SeedMovie>, last: SeedMovie, now: int, nextId: nat)
    requires HasKey(docs, SeedKey(last))
    ensures UpsertOne(Collection(RefreshPosters(docs, init), nextId), last, now)
         == Collection(RefreshPosters(docs, init + [last]), nextId)
  {
    var mid := Collection(RefreshPosters(docs, init), nextId);
    var r := UpsertOne(mid, last, now);
    var want := RefreshPosters(docs, init + [last]);
    RefreshKeepsKeys(docs, init);
    var i0 :| 0 <= i0 < |docs| && KeyOf(docs[i0]) == SeedKey(last);
    assert KeyOf(mid.docs[i0]) == SeedKey(last);
    assert |r.docs| == |docs|;
    forall i | 0 <= i < |docs| ensures r.docs[i] == want[i] {
      RefreshStepAt(docs, init, last, now, nextId, i);
    }
  }

  /** Once every active key is present, the upserts insert nothing and only refresh posters. */
  lemma {:induction false} UpsertAllRefreshes(c: Collection, active: seq<SeedMovie>, now: int)
    requires forall s :: s in active ==> HasKey(c.docs, SeedKey(s))
    ensures UpsertAll(c, active, now) == Collection(RefreshPosters(c.docs, active), c.nextId)
  {
    if active == [] {
      assert RefreshPosters(c.docs, active) == c.docs;
    } else {
      var init := active[..|active| - 1];
      var last := active[|active| - 1];
      assert active == init + [last];
      assert forall s :: s in init ==> s in active;
      UpsertAllRefreshes(c, init, now);
      RefreshStep(c.docs, init, last, now, c.nextId);
    }
  }

  /** After the upsert phase, the first document of every key carries the upserts' poster. */
  lemma {:induction false} UpsertAllStamps(c: Collection, active: seq<SeedMovie>, now: int)
    requires Stamped(c.docs, [])
    ensures Stamped(UpsertAll(c, active, now).docs, active)
  {
    if active != [] {
      var init := active[..|active| - 1];
      var last := active[|active| - 1];
      UpsertAllStamps(c, init, now);
      var mid := UpsertAll(c, init, now);
      var r := UpsertOne(mid, last, now);
      UpsertOneTouchesFirst(mid, last, now);
      forall i | 0 <= i < |r.docs| && IsFirst(r.docs, i) ensures Stamp(r.docs[i], active) == r.docs[i] {
        if KeyOf(r.docs[i]) != SeedKey(last) {
          assert LastPoster(active, KeyOf(r.docs[i])) == LastPoster(init, KeyOf(r.docs[i]));
          assert i < |mid.docs|;
          assert KeyOf(r.docs[i]) == KeyOf(mid.docs[i]);
          assert forall j :: 0 <= j < i ==> KeyOf(r.docs[j]) == KeyOf(mid.docs[j]);
          assert IsFirst(mid.docs, i);
          assert r.docs[i] == mid.docs[i];
        }
      }
    }
  }

  /** With no entries nothing is stamped, so every collection is stamped by the empty list. */
  lemma StampedByNothing(docs: seq<Movie>)
    ensures Stamped(docs, [])
  {
  }

  /** Appending one document keeps the first-ness of the others. */
  lemma RefreshSnoc(docs: seq<Movie>, m: Movie, active: seq<SeedMovie>)
    ensures RefreshPosters(docs + [m], active)
         == RefreshPosters(docs, active) + [if HasKey(docs, KeyOf(m)) then m else Stamp(m, active)]
  {
    var d := docs + [m];
    forall i | 0 <= i < |docs| ensures IsFirst(d, i) <==> IsFirst(docs, i) {
      assert forall j :: 0 <= j <= i ==> d[j] == docs[j];
    }
    if HasKey(docs, KeyOf(m)) {
      var j :| 0 <= j < |docs| && KeyOf(docs[j]) == KeyOf(m);
      assert KeyOf(d[j]) == KeyOf(d[|docs|]);
    }
  }

  /** Cleanup of a collection with one more document at the end. */
  lemma CleanupSnoc(docs: seq<Movie>, m: Movie, blocked: set<string>)
    ensures IsBlocked(m.title, blocked) ==> Cleanup(docs + [m], blocked) == Cleanup(docs, blocked)
    ensures !IsBlocked(m.title, blocked) ==> Cleanup(docs + [m], blocked) == Cleanup(docs, blocked) + [m]
  {
    assert (docs + [m])[..|docs|] == docs;
    var c := Cleanup(docs, blocked);
    assert c + [] == c;
  }

  /** Cleanup and the poster refresh commute: blocking depends on the title, which is part of the key. */
  lemma {:induction false} RefreshCleanupCommute(docs: seq<Movie>, active: seq<SeedMovie>, blocked: set<string>)
    ensures RefreshPosters(Cleanup(docs, blocked), active) == Cleanup(RefreshPosters(docs, active), blocked)
  {
    if docs == [] {
      assert RefreshPosters(docs, active) == [];
    } else {
      var init := docs[..|docs| - 1];
      var last := docs[|docs| - 1];
      assert docs == init + [last];
      var stamped := if HasKey(init, KeyOf(last)) then last else Stamp(last, active);
      StampKeepsFields(last, active);
      var ri := RefreshPosters(init, active);
      var ci := Cleanup(init, blocked);
      RefreshSnoc(init, last, active);
      CleanupSnoc(ri, stamped, blocked);
      CleanupSnoc(init, last, blocked);
      if IsBlocked(last.title, blocked) {
        calc {
          RefreshPosters(Cleanup(docs, blocked), active);
          RefreshPosters(ci, active);
          { RefreshCleanupCommute(init, active, blocked); }
          Cleanup(ri, blocked);
          Cleanup(ri + [stamped], blocked);
          Cleanup(RefreshPosters(docs, active), blocked);
        }
      } else {
        CleanupKeepsKey(init, blocked, KeyOf(last));
        calc {
          RefreshPosters(Cleanup(docs, blocked), active);
          RefreshPosters(ci + [last], active);
          { RefreshSnoc(ci, last, active); }
          RefreshPosters(ci, active) + [stamped];
          { RefreshCleanupCommute(init, active, blocked); }
          Cleanup(ri, blocked) + [stamped];
          Cleanup(ri + [stamped], blocked);
          Cleanup(RefreshPosters(docs, active), blocked);
        }
      }
    }
  }

  /** Cleanup and backfill commute: backfill keeps titles. */
  lemma {:induction false} BackfillCleanupCommute(docs: seq<Movie>, posters: map<string, string>, blocked: set<string>)
    ensures Backfill(Cleanup(docs, blocked), posters) == Cleanup(Backfill(docs, posters), blocked)
  {
    if docs != [] {
      var init := docs[..|docs| - 1];
      var last := docs[|docs| - 1];
      BackfillCleanupCommute(init, posters, blocked);
      var b := Backfill(docs, posters);
      assert b[..|b| - 1] == Backfill(init, posters);
      var ci := Cleanup(init, blocked);
      if !IsBlocked(last.title, blocked) {
        assert (ci + [last])[..|ci|] == ci;
      }
    }
  }

  /** Refreshing the posters of a backfilled, stamped collection and backfilling again restores it. */
  lemma RefreshAfterBackfill(docs: seq<Movie>, active: seq<SeedMovie>, posters: map<string, string>)
    requires Stamped(docs, active)
    ensures Backfill(RefreshPosters(Backfill(docs, posters), active), posters) == Backfill(docs, posters)
  {
    var b := Backfill(docs, posters);
    var r := RefreshPosters(b, active);
    assert forall i :: 0 <= i < |docs| ==> KeyOf(b[i]) == KeyOf(docs[i]);
    forall i | 0 <= i < |docs| ensures Fill(r[i], posters) == b[i] {
      assert IsFirst(b, i) <==> IsFirst(docs, i);
    }
  }

  /** After a run, every active seed entry's key is present. */
  lemma ActiveKeysSurvive(c: Collection, seeds: seq<SeedMovie>, blocked: set<string>, now: int)
    ensures forall s :: s in Active(seeds, blocked) ==> HasKey(Reconciled(c, seeds, blocked, now).docs, SeedKey(s))
  {
    ActiveMembers(seeds, blocked);
    ReconciledKeepsKeys(c, seeds, blocked, now);
  }

  /**
   * Running the routine a second time, at any time, leaves the collection
   * exactly as the first run left it: nothing is inserted again, the
   * posters get the same values, and nothing is left to backfill or delete.
   */
  lemma ReconcileIdempotent(c: Collection, seeds: seq<SeedMovie>, blocked: set<string>, now: int, later: int)
    ensures Reconciled(Reconciled(c, seeds, blocked, now), seeds, blocked, later) == Reconciled(c, seeds, blocked, now)
  {
    var active := Active(seeds, blocked);
    var posters := PostersByTitle(active);
    var u := UpsertAll(c, active, now);
    var b := Backfill(u.docs, posters);
    var r1 := Reconciled(c, seeds, blocked, now);
    assert r1 == Collection(Cleanup(b, blocked), u.nextId);
    ActiveKeysSurvive(c, seeds, blocked, now);
    UpsertAllRefreshes(r1, active, later);
    var x := RefreshPosters(b, active);
    calc {
      Reconciled(r1, seeds, blocked, later).docs;
      Cleanup(Backfill(RefreshPosters(Cleanup(b, blocked), active), posters), blocked);
      { RefreshCleanupCommute(b, active, blocked); }
      Cleanup(Backfill(Cleanup(x, blocked), posters), blocked);
      { BackfillCleanupCommute(x, posters, blocked); }
      Cleanup(Cleanup(Backfill(x, posters), blocked), blocked);
      { CleanupIdempotent(Backfill(x, posters), blocked); }
      Cleanup(Backfill(x, posters), blocked);
      { StampedByNothing(c.docs);
        UpsertAllStamps(c, active, now);
        RefreshAfterBackfill(u.docs, active, posters); }
      Cleanup(b, blocked);
    }
  }

  // ---------------------------------------------------------------------
  // The collection as the startup routine updates it
  // ---------------------------------------------------------------------

  /** The Movie collection, as the startup routine sees it. */
  class MovieCollection {
    var docs: seq<Movie>
    /** The id the next inserted document receives. */
    var nextId: nat

    ghost predicate Valid()
      reads this
    {
      WellFormed(State())
    }

    function State(): Collection
      reads this
    {
      Collection(docs, nextId)
    }

    constructor (initial: seq<Movie>, next: nat)
      requires WellFormed(Collection(initial, next))
      ensures Valid() && docs == initial && nextId == next
    {
      docs := initial;
      nextId := next;
    }

    /**
     * One `findOneAndUpdate` with `upsert: true` on the key of `movie`: the
     * first document with that exact title and year gets the seed's poster,
     * or the seed entry is inserted at the end.
     */
    method Upsert(movie: SeedMovie, now: int)
      requires Valid()
      modifies this
      ensures Valid()
      ensures State() == UpsertOne(old(State()), movie, now)
    {
      match IndexOfKey(docs, SeedKey(movie)) {
        case Some(k) =>
          docs := docs[k := docs[k].(posterUrl := Some(movie.posterUrl))];
        case None =>
          docs := docs + [Inserted(movie, nextId, now)];
          nextId := nextId + 1;
      }
    }

    /**
     * The upsert loop. Every call returns a document (`new: true` with
     * `upsert: true`), so the returned count is the number of active entries.
     */
    method UpsertSeeds(active: seq<SeedMovie>, now: int) returns (upserts: nat)
      requires Valid()
      modifies this
      ensures Valid()
      ensures State() == UpsertAll(old(State()), active, now)
      ensures upserts == |active|
    {
      upserts := 0;
      var i := 0;
      while i < |active|
        invariant 0 <= i <= |active|
        invariant State() == UpsertAll(old(State()), active[..i], now)
        invariant Valid()
        invariant upserts == i
      {
        assert active[..i + 1][..i] == active[..i];
        Upsert(active[i], now);
        upserts := upserts + 1;
        i := i + 1;
      }
      assert active[..i] == active;
    }

    /** The backfill loop: each document lacking a poster gets the poster of its lower-cased title, if any. */
    method BackfillPosters(posters: map<string, string>)
      requires Valid()
      modifies this
      ensures Valid()
      ensures docs == Backfill(old(docs), posters) && nextId == old(nextId)
    {
      var i := 0;
      while i < |docs|
        invariant 0 <= i <= |docs| == |old(docs)|
        invariant nextId == old(nextId)
        invariant forall j :: 0 <= j < i ==> docs[j] == Fill(old(docs)[j], posters)
        invariant forall j :: i <= j < |docs| ==> docs[j] == old(docs)[j]
      {
        var m := docs[i];
        var key := Lower(m.title);
        if NeedsPoster(m) && key in posters && posters[key] != "" {
          docs := docs[i := m.(posterUrl := Some(posters[key]))];
        }
        i := i + 1;
      }
      assert forall j :: 0 <= j < |docs| ==> docs[j].id == old(docs)[j].id;
    }

    /**
     * The cleanup: collect the ids of the documents whose lower-cased title
     * is blocked and delete the documents with those ids. Because ids are
     * unique, this deletes exactly the blocked documents.
     */
    method RemoveBlocked(blocked: set<string>)
      requires Valid()
      modifies this
      ensures Valid()
      ensures docs == Cleanup(old(docs), blocked) && nextId == old(nextId)
    {
      if |blocked| == 0 {
        assert blocked == {};
        CleanupNothingBlocked(docs, blocked);
        return;
      }
      var idsToRemove := set j | 0 <= j < |docs| && IsBlocked(docs[j].title, blocked) :: docs[j].id;
      if |idsToRemove| > 0 {
        var kept := [];
        var i := 0;
        while i < |docs|
          invariant 0 <= i <= |docs|
          invariant kept == Cleanup(docs[..i], blocked)
        {
          assert docs[..i + 1] == docs[..i] + [docs[i]];
          assert docs[..i + 1][..i] == docs[..i];
          assert docs[i].id in idsToRemove <==> IsBlocked(docs[i].title, blocked);
          if docs[i].id !in idsToRemove {
            kept := kept + [docs[i]];
          }
          i := i + 1;
        }
        assert docs[..i] == docs;
        CleanupKeepsIds(docs, blocked, nextId);
        docs := kept;
      } else {
        forall m | m in docs ensures !IsBlocked(m.title, blocked) {
          var j :| 0 <= j < |docs| && docs[j] == m;
          var id := docs[j].id;
          assert IsBlocked(m.title, blocked) ==> id in idsToRemove;
        }
        CleanupNothingBlocked(docs, blocked);
      }
    }

    /** The seeding block of startup: the three phases in order. */
    method Reconcile(seeds: seq<SeedMovie>, blocked: set<string>, now: int) returns (upserts: nat)
      requires Valid()
      modifies this
      ensures Valid()
      ensures State() == Reconciled(old(State()), seeds, blocked, now)
      ensures upserts == |Active(seeds, blocked)|
    {
      var activeSeedMovies := Active(seeds, blocked);
      upserts := UpsertSeeds(activeSeedMovies, now);
      BackfillPosters(PostersByTitle(activeSeedMovies));
      RemoveBlocked(blocked);
    }
  }
}
