/**
 * The backend's collection routes: a read route that counts and windows the
 * members of one collection, and two POST routes that rewrite the set of
 * (collection, company) associations.
 *
 * Each POST route is a pure function from a database value to an outcome, and
 * the read route a function to a read result; the class
 * `Store` holds the same state in fields and runs the routes step by step, the
 * way the route bodies call `db.delete` / `db.add` on the session, and its
 * methods are proved to agree with the functions.
 */
module Collections {
  import opened Wrappers

  /** The collection name the routes treat specially. */
  const LIKED_NAME: string := "Liked Companies"

  type CompanyId = int
  /** Stands for the UUID primary key of a collection. */
  type CollectionId = int

  datatype Collection = Collection(id: CollectionId, name: string)
  datatype Assoc = Assoc(collection: CollectionId, company: CompanyId)

  /**
   * The tables the routes touch: the ids of the existing companies, the
   * collections in table order (the order `.first()` sees) and the
   * association table.
   */
  datatype Db = Db(companies: set<CompanyId>, collections: seq<Collection>, assocs: set<Assoc>)

  /** 200, 404, and the 500 that an exception outside the try block produces. */
  datatype Status = Ok | NotFound | ServerError

  /** What a POST route answers, and the association table it leaves behind. */
  datatype Outcome = Outcome(status: Status, assocs: set<Assoc>)

  datatype CollectionPage = CollectionPage(id: CollectionId, name: string, companies: seq<CompanyId>, total: nat)
  datatype ReadResult = Found(page: CollectionPage) | ReadFailed(status: Status)

  // ---------------------------------------------------------------------------
  // Table lookups

  function IdsOf(cols: seq<Collection>): set<CollectionId> {
    set c | c in cols :: c.id
  }

  /** Collection ids are a primary key; every association refers to an existing company and collection. */
  ghost predicate ValidDb(db: Db) {
    && (forall i, j :: 0 <= i < j < |db.collections| ==> db.collections[i].id != db.collections[j].id)
    && (forall a :: a in db.assocs ==> a.company in db.companies && a.collection in IdsOf(db.collections))
  }

  /** `query(CompanyCollection).filter(id == collection_id).first()`. */
  function Find(cols: seq<Collection>, id: CollectionId): (r: Option<Collection>)
    ensures r.Some? ==> r.value in cols && r.value.id == id
    ensures r.None? <==> id !in IdsOf(cols)
  {
    if cols == [] then None
    else if cols[0].id == id then Some(cols[0])
    else
      var r := Find(cols[1..], id);
      assert IdsOf(cols) == {cols[0].id} + IdsOf(cols[1..]);
      r
  }

  /** `query(CompanyCollection).filter(collection_name == "Liked Companies").first()`. */
  function FirstLiked(cols: seq<Collection>): (r: Option<Collection>)
    ensures r.Some? ==> r.value in cols && r.value.name == LIKED_NAME
    ensures r.None? <==> forall c :: c in cols ==> c.name != LIKED_NAME
  {
    if cols == [] then None
    else if cols[0].name == LIKED_NAME then Some(cols[0])
    else FirstLiked(cols[1..])
  }

  /** The target of a POST route exists and is named "Liked Companies". */
  predicate TargetIsLiked(db: Db, cid: CollectionId) {
    var t := Find(db.collections, cid);
    t.Some? && t.value.name == LIKED_NAME
  }

  /** The target of a POST route exists, is not named "Liked Companies", and some collection is. */
  predicate TargetIsOther(db: Db, cid: CollectionId) {
    var t := Find(db.collections, cid);
    t.Some? && t.value.name != LIKED_NAME && FirstLiked(db.collections).Some?
  }

  /** The companies of collection `cid`, as the join of associations with companies sees them. */
  function MembersOf(db: Db, cid: CollectionId): (m: set<CompanyId>)
    ensures m <= db.companies
    ensures forall c :: c in m <==> Assoc(cid, c) in db.assocs && c in db.companies
  {
    set a | a in db.assocs && a.collection == cid && a.company in db.companies :: a.company
  }

  // ---------------------------------------------------------------------------
  // Rewriting the association set

  /** The rows of `query(Company).filter(Company.id.in_(ids))`: each existing requested company once. */
  function Requested(companies: set<CompanyId>, ids: seq<CompanyId>): (r: set<CompanyId>)
    ensures r <= companies
    ensures |r| <= |ids|
  {
    RequestedAtMostOnePerId(companies, ids);
    set c | c in ids && c in companies
  }

  /** Each requested id yields at most one company, however often it is repeated. */
  lemma {:induction false} RequestedAtMostOnePerId(companies: set<CompanyId>, ids: seq<CompanyId>)
    ensures |set c | c in ids && c in companies| <= |ids|
    decreases |ids|
  {
    var all := set c | c in ids && c in companies;
    if ids == [] {
      assert all == {};
    } else {
      var rest := set c | c in ids[1..] && c in companies;
      RequestedAtMostOnePerId(companies, ids[1..]);
      forall c | c in all ensures c in rest + {ids[0]} {
        if c != ids[0] {
          var k :| 0 <= k < |ids| && ids[k] == c;
          assert ids[1..][k - 1] == c;
        }
      }
      assert all <= rest + {ids[0]};
      SubsetCard(all, rest + {ids[0]});
    }
  }

  lemma {:induction false} SubsetCard(a: set<CompanyId>, b: set<CompanyId>)
    requires a <= b
    ensures |a| <= |b|
  {
    assert b == a + (b - a);
  }

  /** Deletes the associations of `coll` with the companies `cs`. */
  function RemoveFrom(assocs: set<Assoc>, coll: CollectionId, cs: set<CompanyId>): (r: set<Assoc>)
    ensures r <= assocs
    ensures forall a :: a in assocs - r <==> a in assocs && a.collection == coll && a.company in cs
  {
    set a | a in assocs && !(a.collection == coll && a.company in cs)
  }

  /** For each company of `cs`: delete its association with `coll` if there is one, else add one. */
  function ToggleIn(assocs: set<Assoc>, coll: CollectionId, cs: set<CompanyId>): (r: set<Assoc>)
    ensures forall a: Assoc :: a.collection != coll || a.company !in cs ==> (a in r <==> a in assocs)
    ensures forall c :: c in cs ==> (Assoc(coll, c) in r <==> Assoc(coll, c) !in assocs)
  {
    RemoveFrom(assocs, coll, cs) + set c | c in cs && Assoc(coll, c) !in assocs :: Assoc(coll, c)
  }

  /** Deletes every association of `coll`. */
  function Clear(assocs: set<Assoc>, coll: CollectionId): (r: set<Assoc>)
    ensures r == RemoveFrom(assocs, coll, set a | a in assocs :: a.company)
  {
    var r := set a | a in assocs && a.collection != coll;
    forall a | a in assocs ensures a.company in set b | b in assocs :: b.company {}
    r
  }

  /** The INSERT ... SELECT ... WHERE NOT EXISTS: every company gains an association with `coll`. */
  function AddAll(assocs: set<Assoc>, coll: CollectionId, companies: set<CompanyId>): (r: set<Assoc>)
    ensures assocs <= r
    ensures forall a :: a in r - assocs ==> a.collection == coll && a.company in companies
    ensures forall c :: c in companies ==> Assoc(coll, c) in r
  {
    assocs + set c | c in companies :: Assoc(coll, c)
  }

  // ---------------------------------------------------------------------------
  // The routes

  /** POST /collections/{collection_id}/update-companies. */
  function UpdateCompanies(db: Db, cid: CollectionId, ids: seq<CompanyId>): (r: Outcome)
    ensures r.status == NotFound <==> cid !in IdsOf(db.collections)
    ensures r.status != Ok ==> r.assocs == db.assocs
    // Ids matching no company leave the table as it was.
    ensures Requested(db.companies, ids) == {} ==> r.assocs == db.assocs
    // On "Liked Companies": only removals, and every requested existing company leaves it.
    ensures TargetIsLiked(db, cid) ==>
      && r.status == Ok
      && r.assocs <= db.assocs
      && (forall a :: a in db.assocs - r.assocs ==> a.collection == cid && a.company in ids)
      && (forall c :: c in ids && c in db.companies ==> Assoc(cid, c) !in r.assocs)
    // Elsewhere: each requested existing company's membership in Liked flips, nothing else moves.
    ensures TargetIsOther(db, cid) ==>
      var liked := FirstLiked(db.collections).value.id;
      && r.status == Ok
      && (forall a: Assoc :: a.collection != liked ==> (a in r.assocs <==> a in db.assocs))
      && (forall c :: c in ids && c in db.companies ==> (Assoc(liked, c) in r.assocs <==> Assoc(liked, c) !in db.assocs))
      && (forall c :: c !in ids || c !in db.companies ==> (Assoc(liked, c) in r.assocs <==> Assoc(liked, c) in db.assocs))
    // Without any Liked collection the loop body fails on its first company.
    ensures r.status == ServerError <==>
      cid in IdsOf(db.collections) && !TargetIsLiked(db, cid) && FirstLiked(db.collections).None? && Requested(db.companies, ids) != {}
  {
    match Find(db.collections, cid)
    case None => Outcome(NotFound, db.assocs)
    case Some(target) =>
      var cs := Requested(db.companies, ids);
      if target.name == LIKED_NAME then
        Outcome(Ok, RemoveFrom(db.assocs, target.id, cs))
      else
        match FirstLiked(db.collections)
        case None => if cs == {} then Outcome(Ok, db.assocs) else Outcome(ServerError, db.assocs)
        case Some(liked) => Outcome(Ok, ToggleIn(db.assocs, liked.id, cs))
  }

  /** POST /collections/{collection_id}/update-all-companies. */
  function UpdateAllCompanies(db: Db, cid: CollectionId, updateAll: bool): (r: Outcome)
    ensures r.status == NotFound <==> cid !in IdsOf(db.collections)
    ensures r.status != Ok ==> r.assocs == db.assocs
    ensures r.status == ServerError <==>
      cid in IdsOf(db.collections) && !TargetIsLiked(db, cid) && FirstLiked(db.collections).None?
    // On "Liked Companies" (whatever the flag): the collection is emptied, nothing else moves.
    ensures TargetIsLiked(db, cid) ==>
      && r.status == Ok
      && (forall a :: a in r.assocs ==> a.collection != cid)
      && (forall a: Assoc :: a.collection != cid ==> (a in r.assocs <==> a in db.assocs))
    // Elsewhere: Liked gets every company, or is emptied; no other collection moves.
    ensures TargetIsOther(db, cid) ==>
      var liked := FirstLiked(db.collections).value.id;
      && r.status == Ok
      && (forall a: Assoc :: a.collection != liked ==> (a in r.assocs <==> a in db.assocs))
      && (updateAll ==> forall c :: Assoc(liked, c) in r.assocs <==> c in db.companies || Assoc(liked, c) in db.assocs)
      && (!updateAll ==> forall c :: Assoc(liked, c) !in r.assocs)
  {
    match Find(db.collections, cid)
    case None => Outcome(NotFound, db.assocs)
    case Some(target) =>
      if target.name == LIKED_NAME then
        Outcome(Ok, Clear(db.assocs, target.id))
      else
        match FirstLiked(db.collections)
        case None => Outcome(ServerError, db.assocs)
        case Some(liked) =>
          if updateAll then Outcome(Ok, AddAll(db.assocs, liked.id, db.companies))
          else Outcome(Ok, Clear(db.assocs, liked.id))
  }

  // ---------------------------------------------------------------------------
  // The read route: counting and windowing

  /** `rows` lists the set `s`, each element once, in some order. */
  predicate IsListing(rows: seq<CompanyId>, s: set<CompanyId>) {
    && (forall i, j :: 0 <= i < j < |rows| ==> rows[i] != rows[j])
    && (forall x :: x in rows ==> x in s)
    && (forall x :: x in s ==> x in rows)
  }

  /** `.offset(offset).limit(limit)` applied to the rows of a query. */
  function Window(rows: seq<CompanyId>, offset: nat, limit: nat): (w: seq<CompanyId>)
    ensures |w| <= limit
    ensures |w| == if offset >= |rows| then 0 else if |rows| - offset < limit then |rows| - offset else limit
    ensures forall i :: 0 <= i < |w| ==> w[i] == rows[offset + i]
  {
    if offset >= |rows| then []
    else if |rows| - offset < limit then rows[offset..]
    else rows[offset..offset + limit]
  }

  /**
   * GET /collections/{collection_id}. `rows` is the join of the collection's
   * associations with the companies, in whatever order the database returns
   * it (the query has no ORDER BY).
   */
  function GetCompanyCollection(db: Db, cid: CollectionId, rows: seq<CompanyId>, offset: nat, limit: nat): (r: ReadResult)
    requires IsListing(rows, MembersOf(db, cid))
    ensures r.ReadFailed? <==> cid !in IdsOf(db.collections)
    ensures r.ReadFailed? ==> r.status == ServerError
    ensures r.Found? ==>
      && r.page.id == cid
      && r.page.name == Find(db.collections, cid).value.name
      && r.page.total == |MembersOf(db, cid)|
      && |r.page.companies| <= limit
      && (forall x :: x in r.page.companies ==> x in MembersOf(db, cid))
      && r.page.companies == Window(rows, offset, limit)
  {
    ListingLength(rows, MembersOf(db, cid));
    var total := |rows|;
    var companies := Window(rows, offset, limit);
    match Find(db.collections, cid)
    case None => ReadFailed(ServerError)
    case Some(c) => Found(CollectionPage(cid, c.name, companies, total))
  }

  /** A listing of a set without repetition is as long as the set is large. */
  lemma {:induction false} ListingLength(rows: seq<CompanyId>, s: set<CompanyId>)
    requires IsListing(rows, s)
    ensures |rows| == |s|
  {
    if rows != [] {
      var head, tail := rows[0], rows[1..];
      assert head in rows;
      var rest := s - {head};
      assert head !in tail by {
        forall k | 0 <= k < |tail| ensures tail[k] != head {
          assert tail[k] == rows[k + 1];
        }
      }
      forall x | x in tail ensures x in rest {
        assert x in rows;
      }
      forall x | x in rest ensures x in tail {
        assert x in rows;
        assert x != rows[0];
      }
      ListingLength(tail, rest);
      assert head in s;
      assert |s| == |rest| + 1;
    } else {
      forall x ensures x !in s {}
      assert s == {};
    }
  }

  // ---------------------------------------------------------------------------
  // Properties relating several calls

  /** Toggling the same request twice on a non-Liked collection restores every association. */
  lemma ToggleTwiceRestores(db: Db, cid: CollectionId, ids: seq<CompanyId>)
    requires Find(db.collections, cid).Some? && !TargetIsLiked(db, cid)
    ensures UpdateCompanies(db.(assocs := UpdateCompanies(db, cid, ids).assocs), cid, ids).assocs == db.assocs
  {
    var once := UpdateCompanies(db, cid, ids).assocs;
    var db1 := db.(assocs := once);
    var twice := UpdateCompanies(db1, cid, ids).assocs;
    if TargetIsOther(db, cid) {
      var liked := FirstLiked(db.collections).value.id;
      forall a ensures a in twice <==> a in db.assocs {
        if a.collection == liked && a.company in ids && a.company in db.companies {
          assert a == Assoc(liked, a.company);
        }
      }
    }
  }

  /** Ids matching no company, and repeated ids, make no difference: only the set of existing requested companies counts. */
  lemma OnlyExistingRequestedMatter(db: Db, cid: CollectionId, ids1: seq<CompanyId>, ids2: seq<CompanyId>)
    requires forall c :: c in db.companies ==> (c in ids1 <==> c in ids2)
    ensures UpdateCompanies(db, cid, ids1) == UpdateCompanies(db, cid, ids2)
  {
    var r1, r2 := Requested(db.companies, ids1), Requested(db.companies, ids2);
    forall c ensures c in r1 <==> c in r2 {
      assert c in r1 ==> c in db.companies;
      assert c in r2 ==> c in db.companies;
    }
    assert r1 == r2;
  }

  /** Sending every id twice acts as sending it once. */
  lemma DuplicatesActOnce(db: Db, cid: CollectionId, ids: seq<CompanyId>)
    ensures UpdateCompanies(db, cid, ids + ids) == UpdateCompanies(db, cid, ids)
  {
    OnlyExistingRequestedMatter(db, cid, ids + ids, ids);
  }

  /** Bulk "add all" makes the Liked collection's members exactly the companies. */
  lemma AddAllMakesEveryCompanyLiked(db: Db, cid: CollectionId)
    requires TargetIsOther(db, cid)
    ensures
      var r := UpdateAllCompanies(db, cid, true);
      MembersOf(db.(assocs := r.assocs), FirstLiked(db.collections).value.id) == db.companies
  {
    var liked := FirstLiked(db.collections).value.id;
    var r := UpdateAllCompanies(db, cid, true);
    var db1 := db.(assocs := r.assocs);
    forall c | c in db.companies ensures c in MembersOf(db1, liked) {
      assert Assoc(liked, c) in r.assocs;
    }
  }

  /** Both POST routes keep every association pointing at an existing company and collection. */
  lemma UpdatesPreserveValid(db: Db, cid: CollectionId, ids: seq<CompanyId>, updateAll: bool)
    requires ValidDb(db)
    ensures ValidDb(db.(assocs := UpdateCompanies(db, cid, ids).assocs))
    ensures ValidDb(db.(assocs := UpdateAllCompanies(db, cid, updateAll).assocs))
  {
    match FirstLiked(db.collections)
    case None =>
    case Some(liked) => assert liked.id in IdsOf(db.collections);
  }

  /** One step of the Liked-collection loop: deleting one more company's association. */
  lemma RemoveStep(assocs: set<Assoc>, coll: CollectionId, done: set<CompanyId>, c: CompanyId)
    ensures RemoveFrom(assocs, coll, done + {c}) == RemoveFrom(assocs, coll, done) - {Assoc(coll, c)}
  {
    var l, r := RemoveFrom(assocs, coll, done + {c}), RemoveFrom(assocs, coll, done) - {Assoc(coll, c)};
    forall a ensures a in l <==> a in r {
      assert a in assocs - l <==> a in assocs && a.collection == coll && a.company in done + {c};
    }
  }

  /** One step of the toggling loop: flipping one more, not yet flipped, company. */
  lemma ToggleStep(assocs: set<Assoc>, coll: CollectionId, done: set<CompanyId>, c: CompanyId)
    requires c !in done
    ensures var t, x := ToggleIn(assocs, coll, done), Assoc(coll, c);
      ToggleIn(assocs, coll, done + {c}) == if x in t then t - {x} else t + {x}
  {
    var t, x := ToggleIn(assocs, coll, done), Assoc(coll, c);
    var l, r := ToggleIn(assocs, coll, done + {c}), if x in t then t - {x} else t + {x};
    forall a ensures a in l <==> a in r {
      if a.collection == coll && a.company in done + {c} {
        assert a == Assoc(coll, a.company);
      }
    }
  }

  /** The first `i` rows, as a set. */
  ghost function Upto(rows: seq<CompanyId>, i: nat): set<CompanyId>
    requires i <= |rows|
  {
    set k | 0 <= k < i :: rows[k]
  }

  lemma UptoStep(rows: seq<CompanyId>, i: nat)
    requires i < |rows|
    requires forall j, k :: 0 <= j < k < |rows| ==> rows[j] != rows[k]
    ensures rows[i] !in Upto(rows, i)
    ensures Upto(rows, i + 1) == Upto(rows, i) + {rows[i]}
  {
  }

  lemma UptoAll(rows: seq<CompanyId>, s: set<CompanyId>)
    requires IsListing(rows, s)
    ensures Upto(rows, |rows|) == s
  {
    forall x ensures x in Upto(rows, |rows|) <==> x in s {
      if x in s {
        assert x in rows;
        var k :| 0 <= k < |rows| && rows[k] == x;
      }
    }
  }

  /** The associations after the update-companies loop has handled the companies `done`. */
  function LoopResult(db: Db, target: Collection, liked: Option<Collection>, done: set<CompanyId>): set<Assoc> {
    if target.name == LIKED_NAME then RemoveFrom(db.assocs, target.id, done)
    else if liked.Some? then ToggleIn(db.assocs, liked.value.id, done)
    else db.assocs
  }

  /** One pass of the loop body on "Liked Companies": the row's association is deleted. */
  lemma RemoveLoopStep(db: Db, target: Collection, liked: Option<Collection>, rows: seq<CompanyId>, i: nat)
    requires target.name == LIKED_NAME && i < |rows|
    requires forall j, k :: 0 <= j < k < |rows| ==> rows[j] != rows[k]
    ensures LoopResult(db, target, liked, Upto(rows, i + 1))
      == LoopResult(db, target, liked, Upto(rows, i)) - {Assoc(target.id, rows[i])}
  {
    UptoStep(rows, i);
    RemoveStep(db.assocs, target.id, Upto(rows, i), rows[i]);
  }

  /** One pass of the loop body elsewhere: the row's association with Liked flips. */
  lemma ToggleLoopStep(db: Db, target: Collection, liked: Option<Collection>, rows: seq<CompanyId>, i: nat)
    requires target.name != LIKED_NAME && liked.Some? && i < |rows|
    requires forall j, k :: 0 <= j < k < |rows| ==> rows[j] != rows[k]
    ensures var t, x := LoopResult(db, target, liked, Upto(rows, i)), Assoc(liked.value.id, rows[i]);
      LoopResult(db, target, liked, Upto(rows, i + 1)) == if x in t then t - {x} else t + {x}
  {
    UptoStep(rows, i);
    ToggleStep(db.assocs, liked.value.id, Upto(rows, i), rows[i]);
  }

  /** Once every requested company is handled, the loop has computed the route's answer. */
  lemma LoopComplete(db: Db, cid: CollectionId, ids: seq<CompanyId>, target: Collection, liked: Option<Collection>)
    requires Find(db.collections, cid) == Some(target) && FirstLiked(db.collections) == liked
    requires target.name == LIKED_NAME || liked.Some?
    ensures UpdateCompanies(db, cid, ids) == Outcome(Ok, LoopResult(db, target, liked, Requested(db.companies, ids)))
  {
  }

  // ---------------------------------------------------------------------------
  // The database session, updated in place

  class Store {
    var companies: set<CompanyId>
    var collections: seq<Collection>
    var assocs: set<Assoc>

    function State(): Db
      reads this
    {
      Db(companies, collections, assocs)
    }

    ghost predicate Valid()
      reads this
    {
      ValidDb(State())
    }

    constructor (companies: set<CompanyId>, collections: seq<Collection>, assocs: set<Assoc>)
      requires ValidDb(Db(companies, collections, assocs))
      ensures Valid() && State() == Db(companies, collections, assocs)
    {
      this.companies := companies;
      this.collections := collections;
      this.assocs := assocs;
    }

    /**
     * The update-companies route. `rows` is the result of the `in_` query:
     * each existing requested company once, in the order the database
     * returns them.
     */
    method UpdateCompaniesInCollection(cid: CollectionId, ids: seq<CompanyId>, rows: seq<CompanyId>) returns (status: Status)
      requires Valid()
      requires IsListing(rows, Requested(companies, ids))
      modifies this`assocs
      ensures Valid()
      ensures Outcome(status, assocs) == UpdateCompanies(old(State()), cid, ids)
    {
      ghost var db0 := State();
      UpdatesPreserveValid(db0, cid, ids, false);
      var collection := Find(collections, cid);
      if collection.None? {
        return NotFound;
      }
      var target := collection.value;
      var liked := FirstLiked(collections);
      var failed := ApplyRows(db0, target, liked, rows);
      if failed {
        // `liked_collection.id` raised on the first company; nothing is committed.
        ghost var first := rows[0];
        assert first in rows;
        assert first in Requested(companies, ids);
        return ServerError;
      }
      if target.name != LIKED_NAME && liked.None? {
        // No company was requested: the loop body never ran.
        ListingLength(rows, Requested(companies, ids));
        assert Requested(db0.companies, ids) == {};
        return Ok;
      }
      UptoAll(rows, Requested(companies, ids));
      LoopComplete(db0, cid, ids, target, liked);
      status := Ok;
    }

    /**
     * The loop of the update-companies route: per row, delete the target's
     * association (on "Liked Companies") or flip the row's association with
     * Liked. Without a Liked collection the first row fails.
     */
    method ApplyRows(ghost db0: Db, target: Collection, liked: Option<Collection>, rows: seq<CompanyId>) returns (failed: bool)
      requires assocs == db0.assocs
      requires forall j, k :: 0 <= j < k < |rows| ==> rows[j] != rows[k]
      modifies this`assocs
      ensures failed <==> target.name != LIKED_NAME && liked.None? && |rows| > 0
      ensures failed ==> assocs == db0.assocs
      ensures !failed ==> assocs == LoopResult(db0, target, liked, Upto(rows, |rows|))
    {
      for i := 0 to |rows|
        invariant assocs == LoopResult(db0, target, liked, Upto(rows, i))
        invariant target.name != LIKED_NAME && liked.None? ==> i == 0
      {
        var c := rows[i];
        if target.name == LIKED_NAME {
          RemoveLoopStep(db0, target, liked, rows, i);
          var existing := Assoc(target.id, c);
          if existing in assocs {
            assocs := assocs - {existing};
          }
        } else {
          if liked.None? {
            return true;
          }
          ToggleLoopStep(db0, target, liked, rows, i);
          var likedAssoc := Assoc(liked.value.id, c);
          if likedAssoc in assocs {
            assocs := assocs - {likedAssoc};
          } else {
            assocs := assocs + {likedAssoc};
          }
        }
      }
      return false;
    }

    /** The update-all-companies route: bulk delete or bulk insert. */
    method UpdateAllCompaniesInCollection(cid: CollectionId, updateAll: bool) returns (status: Status)
      requires Valid()
      modifies this`assocs
      ensures Valid()
      ensures Outcome(status, assocs) == UpdateAllCompanies(old(State()), cid, updateAll)
    {
      ghost var db0 := State();
      UpdatesPreserveValid(db0, cid, [], updateAll);
      var collection := Find(collections, cid);
      if collection.None? {
        return NotFound;
      }
      var liked := FirstLiked(collections);
      if collection.value.name == LIKED_NAME {
        assocs := set a | a in assocs && a.collection != collection.value.id;
      } else if liked.None? {
        return ServerError;
      } else if updateAll {
        var likedId := liked.value.id;
        assocs := assocs + set c | c in companies :: Assoc(likedId, c);
      } else {
        var likedId := liked.value.id;
        assocs := set a | a in assocs && a.collection != likedId;
      }
      status := Ok;
    }

  }
}
