/**
  The data-access layer of the subscription-management API over an
  in-memory store. Each table is a map from id to row; every function of
  the layer is one atomic step on the store. List operations compose SQL
  (module `Sql`), and the store answers that SQL by reading it back into
  its filter clauses: the count query counts the matching rows, the data
  query returns the `LIMIT`/`OFFSET` slice of them in descending key order.
*/
module Database {
  import opened Results
  import opened Models
  import opened Rows
  import opened Sql
  import opened Pagination
  import Dates

  /** What a store operation raises instead of returning. */
  datatype StoreError =
    | UniqueViolation    // a client email or an offer name already taken by another row
    | MissingReferent    // the client/offer name lookup after a write found no row: the write is rolled back
    | UnreadableQuery    // SQL the store cannot read, or a negative LIMIT or OFFSET

  /** One page of a list: the rows and the `pagination` metadata. */
  datatype Page = Page(items: seq<Row>, pagination: PaginationMeta)

  /** Some client other than `id` has this email. */
  predicate EmailHeldByOther(cs: map<int, Client>, email: string, id: int) {
    exists k :: k in cs && k != id && cs[k].email == email
  }

  /** Some offer other than `id` has this name. */
  predicate NameHeldByOther(os: map<int, Offre>, nom: string, id: int) {
    exists k :: k in os && k != id && os[k].nom == nom
  }

  /**
    A partial update of a subscription: each field takes the supplied value,
    or keeps the stored one when the update leaves it `None`. The id and the
    client are never changed.
  */
  function MergeAbonnement(current: Abonnement, upd: AbonnementUpdate): (r: Abonnement)
    ensures r.id == current.id && r.clientId == current.clientId
    ensures r.offreId == upd.offreId.GetOr(current.offreId)
    ensures r.dateDebut == upd.dateDebut.GetOr(current.dateDebut)
    ensures r.dateFin == if upd.dateFin.Some? then upd.dateFin else current.dateFin
  {
    Abonnement(current.id, current.clientId, upd.offreId.GetOr(current.offreId),
               upd.dateDebut.GetOr(current.dateDebut), if upd.dateFin.None? then current.dateFin else upd.dateFin)
  }

  /**
    A partial update of a payment: each field takes the supplied value, or
    keeps the stored one when the update leaves it `None`. The id and the
    subscription are never changed.
  */
  function MergePaiement(current: Paiement, upd: PaiementUpdate): (r: Paiement)
    ensures r.id == current.id && r.abonnementId == current.abonnementId
    ensures r.montant == upd.montant.GetOr(current.montant)
    ensures r.datePaiement == upd.datePaiement.GetOr(current.datePaiement)
  {
    Paiement(current.id, current.abonnementId, upd.montant.GetOr(current.montant),
             upd.datePaiement.GetOr(current.datePaiement))
  }

  /** An update body with every field at its default leaves the subscription as it is. */
  lemma MergeAbonnementNoChange(a: Abonnement)
    ensures MergeAbonnement(a, NoAbonnementChange) == a
  {
  }

  /** Sending the same update twice gives the row the first one gave. */
  lemma MergeAbonnementIdempotent(a: Abonnement, upd: AbonnementUpdate)
    ensures MergeAbonnement(MergeAbonnement(a, upd), upd) == MergeAbonnement(a, upd)
  {
  }

  /** `None` means "keep", so an update can never clear an end date once set. */
  lemma EndDateNeverCleared(a: Abonnement, upd: AbonnementUpdate)
    requires a.dateFin.Some?
    ensures MergeAbonnement(a, upd).dateFin.Some?
  {
  }

  /** An update body with every field at its default leaves the payment as it is. */
  lemma MergePaiementNoChange(p: Paiement)
    ensures MergePaiement(p, NoPaiementChange) == p
  {
  }

  /** Sending the same update twice gives the row the first one gave. */
  lemma MergePaiementIdempotent(p: Paiement, upd: PaiementUpdate)
    ensures MergePaiement(MergePaiement(p, upd), upd) == MergePaiement(p, upd)
  {
  }

  class Store {
    var clients: map<int, Client>
    var offres: map<int, Offre>
    var abonnements: map<int, Abonnement>
    var paiements: map<int, Paiement>
    var logs: map<int, Log>
    /** The next id to hand out; every id in use is positive and below it. */
    var nextId: int

    /**
      Rows sit under their own id, emails and offer names are unique, every
      subscription's offer exists and every payment's subscription exists.
      A subscription's client may be missing: client deletion is unguarded.
    */
    ghost predicate Valid()
      reads this
    {
      nextId >= 1 &&
      (forall id :: id in clients ==> 1 <= id < nextId && clients[id].id == id) &&
      (forall id :: id in offres ==> 1 <= id < nextId && offres[id].id == id) &&
      (forall id :: id in abonnements ==> 1 <= id < nextId && abonnements[id].id == id) &&
      (forall id :: id in paiements ==> 1 <= id < nextId && paiements[id].id == id) &&
      (forall id :: id in logs ==> 1 <= id < nextId && logs[id].id == id) &&
      (forall i, j :: i in clients && j in clients && clients[i].email == clients[j].email ==> i == j) &&
      (forall i, j :: i in offres && j in offres && offres[i].nom == offres[j].nom ==> i == j) &&
      (forall id :: id in abonnements ==> abonnements[id].offreId in offres) &&
      (forall id :: id in paiements ==> paiements[id].abonnementId in abonnements)
    }

    /** An empty store beside the audit entries written by the database itself. */
    constructor (initialLogs: map<int, Log>, firstId: int)
      requires firstId >= 1
      requires forall id :: id in initialLogs ==> 1 <= id < firstId && initialLogs[id].id == id
      ensures Valid()
      ensures clients == map[] && offres == map[] && abonnements == map[] && paiements == map[]
      ensures logs == initialLogs && nextId == firstId
    {
      clients, offres, abonnements, paiements := map[], map[], map[], map[];
      logs, nextId := initialLogs, firstId;
    }

    // -------------------------------------------------------------------
    // Single-row reads

    /** `get_client`. */
    function GetClient(id: int): (r: Option<Client>)
      reads this
      ensures r.Some? <==> id in clients
      ensures r.Some? ==> r.value == clients[id]
    {
      if id in clients then Some(clients[id]) else None
    }

    /** `get_offre`. */
    function GetOffre(id: int): (r: Option<Offre>)
      reads this
      ensures r.Some? <==> id in offres
      ensures r.Some? ==> r.value == offres[id]
    {
      if id in offres then Some(offres[id]) else None
    }

    /** A subscription joined with the names of its client and offer; `None` when either is missing. */
    function AbonnementDetailOf(a: Abonnement): Option<AbonnementDetail>
      reads this
    {
      if a.clientId in clients && a.offreId in offres
      then Some(AbonnementDetail(a, clients[a.clientId].nom, offres[a.offreId].nom))
      else None
    }

    /** A payment joined through its subscription with the client and offer names; `None` when a link is missing. */
    function PaiementDetailOf(p: Paiement): Option<PaiementDetail>
      reads this
    {
      if p.abonnementId in abonnements then
        match AbonnementDetailOf(abonnements[p.abonnementId])
        case Some(d) => Some(PaiementDetail(p, d.clientNom, d.offreNom))
        case None => None
      else None
    }

    /**
      `get_abonnement`: an inner join, so a subscription whose client or
      offer is missing is not found.
    */
    function GetAbonnement(id: int): (r: Option<AbonnementDetail>)
      reads this
      ensures r.Some? <==> id in abonnements && abonnements[id].clientId in clients && abonnements[id].offreId in offres
      ensures r.Some? ==>
        r.value.abonnement == abonnements[id] &&
        r.value.clientNom == clients[abonnements[id].clientId].nom && r.value.offreNom == offres[abonnements[id].offreId].nom
    {
      if id in abonnements then AbonnementDetailOf(abonnements[id]) else None
    }

    /**
      `get_paiement`: an inner join through the subscription, so a payment
      whose subscription, client or offer is missing is not found.
    */
    function GetPaiement(id: int): (r: Option<PaiementDetail>)
      reads this
      ensures r.Some? <==> id in paiements && GetAbonnement(paiements[id].abonnementId).Some?
      ensures r.Some? ==>
        r.value.paiement == paiements[id] &&
        r.value.clientNom == GetAbonnement(paiements[id].abonnementId).value.clientNom &&
        r.value.offreNom == GetAbonnement(paiements[id].abonnementId).value.offreNom
    {
      if id in paiements then PaiementDetailOf(paiements[id]) else None
    }

    // -------------------------------------------------------------------
    // How the store evaluates the list queries

    function Keys(e: Entity): set<int>
      reads this
    {
      match e
      case Clients => clients.Keys
      case Offres => offres.Keys
      case Abonnements => abonnements.Keys
      case Paiements => paiements.Keys
      case Logs => logs.Keys
    }

    /** The result row for `id` in the list of `e`, after its joins; `None` when the joins drop it. */
    function RowAt(e: Entity, id: int): Option<Row>
      reads this
    {
      match e
      case Clients => if id in clients then Some(ClientRow(clients[id])) else None
      case Offres => if id in offres then Some(OffreRow(offres[id])) else None
      case Logs => if id in logs then Some(LogRow(logs[id])) else None
      case Abonnements =>
        if id in abonnements then
          match AbonnementDetailOf(abonnements[id])
          case Some(d) => Some(AbonnementRow(d))
          case None => None
        else None
      case Paiements =>
        if id in paiements then
          match PaiementDetailOf(paiements[id])
          case Some(d) => Some(PaiementRow(d))
          case None => None
        else None
    }

    /** The subscription row `a` that the list of `e` joins to `id`. */
    function SubscriptionOf(e: Entity, id: int): Option<Abonnement>
      reads this
    {
      if e == Abonnements && id in abonnements then Some(abonnements[id])
      else if e == Paiements && id in paiements && paiements[id].abonnementId in abonnements
      then Some(abonnements[paiements[id].abonnementId])
      else None
    }

    /** The date column the month filter of `e` reads. */
    function MonthDate(e: Entity, id: int): Option<Dates.CalendarDate>
      reads this
    {
      if e == Abonnements && id in abonnements then Some(abonnements[id].dateDebut)
      else if e == Paiements && id in paiements then Some(paiements[id].datePaiement)
      else None
    }

    /** The WHERE condition of one clause, for the row `id` of the list of `e`. */
    predicate Satisfies(e: Entity, c: Clause, id: int)
      reads this
    {
      match c
      case NameOrEmailLike(t) => id in clients && (ContainsCI(clients[id].nom, t) || ContainsCI(clients[id].email, t))
      case NameLike(t) => id in offres && ContainsCI(offres[id].nom, t)
      case TableIs(t) => id in logs && logs[id].tableModifiee == t
      case ClientIs(n) => SubscriptionOf(e, id).Some? && SubscriptionOf(e, id).value.clientId == n
      case OffreIs(n) => SubscriptionOf(e, id).Some? && SubscriptionOf(e, id).value.offreId == n
      case AbonnementIs(n) => id in paiements && paiements[id].abonnementId == n
      case MonthIs(m) => MonthDate(e, id).Some? && Dates.YearMonth(MonthDate(e, id).value) == m
    }

    /** Row `id` survives the joins and every clause. */
    predicate Hit(e: Entity, fs: seq<Clause>, id: int)
      reads this
    {
      RowAt(e, id).Some? && forall c :: c in fs ==> Satisfies(e, c, id)
    }

    /** The ids of `ids` that are hits, in the order of `ids`. */
    function HitIds(e: Entity, fs: seq<Clause>, ids: seq<int>): (r: seq<int>)
      reads this
      ensures forall x :: x in r <==> x in ids && Hit(e, fs, x)
    {
      if ids == [] then []
      else if Hit(e, fs, ids[0]) then [ids[0]] + HitIds(e, fs, ids[1..])
      else HitIds(e, fs, ids[1..])
    }

    /** Filtering keeps a strictly decreasing order, so no id is listed twice. */
    lemma {:induction false} HitIdsDecreasing(e: Entity, fs: seq<Clause>, ids: seq<int>)
      requires Decreasing(ids)
      ensures Decreasing(HitIds(e, fs, ids))
    {
      if ids != [] {
        var rest := HitIds(e, fs, ids[1..]);
        assert Decreasing(ids[1..]) by {
          forall i, j | 0 <= i < j < |ids[1..]| ensures ids[1..][i] > ids[1..][j] {
            assert ids[1..][i] == ids[i + 1] && ids[1..][j] == ids[j + 1];
          }
        }
        HitIdsDecreasing(e, fs, ids[1..]);
        if Hit(e, fs, ids[0]) {
          forall k | 0 <= k < |rest| ensures rest[k] < ids[0] {
            assert rest[k] in rest;
            var m :| 0 <= m < |ids[1..]| && ids[1..][m] == rest[k];
            assert ids[m + 1] == rest[k];
          }
          var r := [ids[0]] + rest;
          forall i, j | 0 <= i < j < |r| ensures r[i] > r[j] {
            assert r[j] == rest[j - 1];
            if i > 0 {
              assert r[i] == rest[i - 1];
            } else {
              assert r[i] == ids[0];
            }
          }
          assert HitIds(e, fs, ids) == r;
        } else {
          assert HitIds(e, fs, ids) == rest;
        }
      }
    }

    /** The rows of the ids, each of which must have one. */
    function RowsOf(e: Entity, ids: seq<int>): (r: seq<Row>)
      requires forall id :: id in ids ==> RowAt(e, id).Some?
      reads this
      ensures |r| == |ids|
      ensures forall k :: 0 <= k < |ids| ==> r[k] == RowAt(e, ids[k]).value
    {
      if ids == [] then [] else [RowAt(e, ids[0]).value] + RowsOf(e, ids[1..])
    }

    /** The ids of the rows the filters `fs` keep in the list of `e`, largest first. */
    function MatchingIds(e: Entity, fs: seq<Clause>): seq<int>
      reads this
    {
      HitIds(e, fs, IdsDesc(Keys(e), nextId))
    }

    /** The rows the filters `fs` keep in the list of `e`, in `ORDER BY ... DESC` order. */
    function Matching(e: Entity, fs: seq<Clause>): seq<Row>
      reads this
    {
      SortDesc(RowsOf(e, MatchingIds(e, fs)))
    }

    /** What a list operation returns for filters `fs`: the page of matching rows and its metadata. */
    function Listing(e: Entity, fs: seq<Clause>, page: int, limit: int): Page
      requires page >= 1 && limit >= 1
      reads this
    {
      var rows := Matching(e, fs);
      Page(Window(rows, Offset(page, limit), limit), Meta(|rows|, page, limit))
    }

    /** The store's answer to a count query: the number of matching rows. */
    function CountRows(sql: Sql, params: seq<Param>): Result<nat, StoreError>
      reads this
    {
      match ParseCount(sql, params)
      case None => Err(UnreadableQuery)
      case Some((e, fs)) => Ok(|Matching(e, fs)|)
    }

    /** The store's answer to a paginated data query: the `LIMIT`/`OFFSET` slice of the matching rows. */
    function SelectRows(sql: Sql, params: seq<Param>): Result<seq<Row>, StoreError>
      reads this
    {
      match ParseSelect(sql, params)
      case None => Err(UnreadableQuery)
      case Some((e, fs, limit, offset)) =>
        if limit < 0 || offset < 0 then Err(UnreadableQuery) else Ok(Window(Matching(e, fs), offset, limit))
    }

    /**
      The two queries a builder composes agree: the count query counts the
      rows the data query pages through, and the data query returns the
      page of them that `LIMIT limit OFFSET offset` selects.
    */
    lemma ComposedQueriesAgree(e: Entity, fs: seq<Clause>, limit: nat, offset: nat)
      requires AllAllowed(e, fs)
      ensures CountRows(Compose(e, fs).countQuery, Compose(e, fs).params) == Ok(|Matching(e, fs)|)
      ensures SelectRows(Compose(e, fs).query + LimitOffset, Compose(e, fs).params + [PInt(limit), PInt(offset)])
              == Ok(Window(Matching(e, fs), offset, limit))
    {
      ComposedCountParses(e, fs);
      ComposedSelectParses(e, fs, limit, offset);
    }

    // -------------------------------------------------------------------
    // Pagination and the five list operations

    /**
      `paginate_query`: counts with the count query, then fetches the page
      with `LIMIT %s OFFSET %s` appended to the data query and `[limit,
      offset]` appended to the same parameters.
    */
    method PaginateQuery(query: Sql, countQuery: Sql, params: seq<Param>, page: int, limit: int)
      returns (r: Result<Page, StoreError>)
      requires page >= 1 && limit >= 1
      ensures var total := CountRows(countQuery, params);
        var rows := SelectRows(query + LimitOffset, params + [PInt(limit), PInt(Offset(page, limit))]);
        (r.Ok? <==> total.Ok? && rows.Ok?) &&
        (r.Ok? ==> r.value == Page(rows.value, Meta(total.value, page, limit))) &&
        (total.Err? ==> r == Err(total.error)) &&
        (total.Ok? && rows.Err? ==> r == Err(rows.error))
    {
      var offset := (page - 1) * limit;
      var total := CountRows(countQuery, params);
      if total.Err? {
        return Err(total.error);
      }
      var paginatedQuery := query + LimitOffset;
      var paginatedParams := params + [PInt(limit), PInt(offset)];
      var results := SelectRows(paginatedQuery, paginatedParams);
      if results.Err? {
        return Err(results.error);
      }
      var pages := if total.value > 0 then CeilDiv(total.value, limit) else 1;
      r := Ok(Page(results.value, PaginationMeta(total.value, page, limit, pages)));
    }

    /** `get_clients`. */
    method GetClients(search: Option<string>, page: int, limit: int) returns (r: Result<Page, StoreError>)
      requires page >= 1 && limit >= 1
      ensures r == Ok(Listing(Clients, ClientFilters(search), page, limit))
    {
      var q := ClientsQueries(search);
      ComposedQueriesAgree(Clients, ClientFilters(search), limit, Offset(page, limit));
      r := PaginateQuery(q.query, q.countQuery, q.params, page, limit);
    }

    /** `get_offres`. */
    method GetOffres(search: Option<string>, page: int, limit: int) returns (r: Result<Page, StoreError>)
      requires page >= 1 && limit >= 1
      ensures r == Ok(Listing(Offres, OffreFilters(search), page, limit))
    {
      var q := OffresQueries(search);
      ComposedQueriesAgree(Offres, OffreFilters(search), limit, Offset(page, limit));
      r := PaginateQuery(q.query, q.countQuery, q.params, page, limit);
    }

    /** `get_abonnements`. */
    method GetAbonnements(clientId: Option<int>, offreId: Option<int>, mois: Option<string>, page: int, limit: int)
      returns (r: Result<Page, StoreError>)
      requires page >= 1 && limit >= 1
      ensures r == Ok(Listing(Abonnements, AbonnementFilters(clientId, offreId, mois), page, limit))
    {
      var q := AbonnementsQueries(clientId, offreId, mois);
      ComposedQueriesAgree(Abonnements, AbonnementFilters(clientId, offreId, mois), limit, Offset(page, limit));
      r := PaginateQuery(q.query, q.countQuery, q.params, page, limit);
    }

    /** `get_paiements`. */
    method GetPaiements(abonnementId: Option<int>, clientId: Option<int>, offreId: Option<int>, mois: Option<string>,
                        page: int, limit: int)
      returns (r: Result<Page, StoreError>)
      requires page >= 1 && limit >= 1
      ensures r == Ok(Listing(Paiements, PaiementFilters(abonnementId, clientId, offreId, mois), page, limit))
    {
      var q := PaiementsQueries(abonnementId, clientId, offreId, mois);
      ComposedQueriesAgree(Paiements, PaiementFilters(abonnementId, clientId, offreId, mois), limit, Offset(page, limit));
      r := PaginateQuery(q.query, q.countQuery, q.params, page, limit);
    }

    /** `get_logs`. */
    method GetLogs(table: Option<string>, page: int, limit: int) returns (r: Result<Page, StoreError>)
      requires page >= 1 && limit >= 1
      ensures r == Ok(Listing(Logs, LogFilters(table), page, limit))
    {
      var q := LogsQueries(table);
      ComposedQueriesAgree(Logs, LogFilters(table), limit, Offset(page, limit));
      r := PaginateQuery(q.query, q.countQuery, q.params, page, limit);
    }

    // -------------------------------------------------------------------
    // What the lists contain

    /** The ids of the rows of `e` that pass the joins and the filters `fs`. */
    function HitSet(e: Entity, fs: seq<Clause>): set<int>
      reads this
    {
      set id | id in Keys(e) && Hit(e, fs, id)
    }

    /** A row that survives the joins belongs to the table that is listed. */
    lemma RowAtInKeys(e: Entity, id: int)
      requires RowAt(e, id).Some?
      ensures id in Keys(e)
    {
    }

    /**
      The store scans every row: the matching ids are exactly the hits, each
      listed once, largest first.
    */
    lemma MatchingIdsAreHits(e: Entity, fs: seq<Clause>)
      requires Valid()
      ensures Decreasing(MatchingIds(e, fs))
      ensures forall id :: id in MatchingIds(e, fs) <==> Hit(e, fs, id)
    {
      HitIdsDecreasing(e, fs, IdsDesc(Keys(e), nextId));
      forall id | Hit(e, fs, id) ensures id in Keys(e) && 1 <= id < nextId {
        RowAtInKeys(e, id);
      }
    }

    /** `total` is the number of rows of `e` that pass the joins and the filters. */
    lemma MatchingCountsHits(e: Entity, fs: seq<Clause>)
      requires Valid()
      ensures |Matching(e, fs)| == |HitSet(e, fs)|
    {
      var ids := MatchingIds(e, fs);
      MatchingIdsAreHits(e, fs);
      var rows := RowsOf(e, ids);
      assert |Matching(e, fs)| == |rows| by {
        assert |multiset(Matching(e, fs))| == |multiset(rows)|;
      }
      assert (set x | x in ids) == HitSet(e, fs);
      DistinctCard(ids);
    }

    /** A row is listed exactly when it is the row of an id that passes the joins and the filters. */
    lemma MatchingHoldsHitRows(e: Entity, fs: seq<Clause>, r: Row)
      requires Valid()
      ensures r in Matching(e, fs) <==> exists id :: Hit(e, fs, id) && RowAt(e, id) == Some(r)
    {
      var ids := MatchingIds(e, fs);
      MatchingIdsAreHits(e, fs);
      var rows := RowsOf(e, ids);
      assert r in Matching(e, fs) <==> r in rows by {
        assert r in Matching(e, fs) <==> r in multiset(Matching(e, fs));
        assert r in rows <==> r in multiset(rows);
      }
      if r in rows {
        var k :| 0 <= k < |rows| && rows[k] == r;
        assert Hit(e, fs, ids[k]) && RowAt(e, ids[k]) == Some(r);
      }
      if exists id :: Hit(e, fs, id) && RowAt(e, id) == Some(r) {
        var id :| Hit(e, fs, id) && RowAt(e, id) == Some(r);
        var k :| 0 <= k < |ids| && ids[k] == id;
        assert rows[k] == r;
      }
    }

    /** A strictly decreasing sequence has as many elements as distinct values. */
    static lemma {:induction false} DistinctCard(s: seq<int>)
      requires Decreasing(s)
      ensures |set x | x in s| == |s|
    {
      if s != [] {
        var tail := s[1..];
        assert Decreasing(tail) by {
          forall i, j | 0 <= i < j < |tail| ensures tail[i] > tail[j] {
            assert tail[i] == s[i + 1] && tail[j] == s[j + 1];
          }
        }
        DistinctCard(tail);
        assert s[0] !in tail by {
          forall k | 0 <= k < |tail| ensures tail[k] != s[0] {
            assert tail[k] == s[k + 1];
          }
        }
        assert (set x | x in s) == {s[0]} + (set x | x in tail) by {
          assert s == [s[0]] + tail;
        }
      }
    }

    /** Every page lists its rows in descending order of the table's sort key. */
    lemma ListingInKeyOrder(e: Entity, fs: seq<Clause>, page: int, limit: int)
      requires page >= 1 && limit >= 1
      ensures SortedDesc(Listing(e, fs, page, limit).items)
    {
      var rows, o := Matching(e, fs), Offset(page, limit);
      var w := Window(rows, o, limit);
      forall i, j | 0 <= i < j < |w| ensures SortKey(w[i]) >= SortKey(w[j]) {
        assert w[i] == rows[o + i] && w[j] == rows[o + j];
      }
    }

    /**
      Clients and offers are listed `ORDER BY id DESC`, the order the store
      scans them in: the sort leaves the matching rows as they are.
    */
    lemma IdOrderNeedsNoSort(e: Entity, fs: seq<Clause>)
      requires Valid()
      requires e == Clients || e == Offres
      ensures Matching(e, fs) == RowsOf(e, MatchingIds(e, fs))
    {
      var ids := MatchingIds(e, fs);
      MatchingIdsAreHits(e, fs);
      IdRowsSorted(e, ids);
      SortSorted(RowsOf(e, ids));
    }

    /** A client's or an offer's sort key is its id, so rows of decreasing ids are sorted. */
    lemma IdRowsSorted(e: Entity, ids: seq<int>)
      requires Valid()
      requires e == Clients || e == Offres
      requires Decreasing(ids)
      requires forall id :: id in ids ==> RowAt(e, id).Some?
      ensures SortedDesc(RowsOf(e, ids))
    {
      var rows := RowsOf(e, ids);
      forall i, j | 0 <= i < j < |rows| ensures SortKey(rows[i]) >= SortKey(rows[j]) {
        assert ids[i] in ids && ids[j] in ids;
        assert SortKey(rows[i]) == ids[i] && SortKey(rows[j]) == ids[j];
      }
    }

    /**
      An empty search term is contained in every name and email, so leaving
      the condition out for `search = ""` lists the same rows as sending it
      would.
    */
    lemma EmptySearchFiltersNothing(id: int)
      ensures Hit(Clients, [NameOrEmailLike("")], id) <==> Hit(Clients, [], id)
      ensures Hit(Offres, [NameLike("")], id) <==> Hit(Offres, [], id)
    {
      if id in clients {
        EmptyTermMatches(clients[id].nom);
      }
      if id in offres {
        EmptyTermMatches(offres[id].nom);
      }
    }

    /** `get_clients`: a client is listed when its `nom` or its `email` contains the search term, ignoring case. */
    lemma ClientFiltersMeaning(search: Option<string>, id: int)
      ensures Hit(Clients, ClientFilters(search), id) <==>
        id in clients &&
        (GivenText(search) ==> ContainsCI(clients[id].nom, search.value) || ContainsCI(clients[id].email, search.value))
    {
      if GivenText(search) {
        assert ClientFilters(search) == [NameOrEmailLike(search.value)];
        assert NameOrEmailLike(search.value) in ClientFilters(search);
      }
    }

    /** `get_offres`: an offer is listed when its `nom` contains the search term, ignoring case. */
    lemma OffreFiltersMeaning(search: Option<string>, id: int)
      ensures Hit(Offres, OffreFilters(search), id) <==>
        id in offres && (GivenText(search) ==> ContainsCI(offres[id].nom, search.value))
    {
      if GivenText(search) {
        assert OffreFilters(search) == [NameLike(search.value)];
        assert NameLike(search.value) in OffreFilters(search);
      }
    }

    /** `get_logs`: an entry is listed when it concerns the given table. */
    lemma LogFiltersMeaning(table: Option<string>, id: int)
      ensures Hit(Logs, LogFilters(table), id) <==>
        id in logs && (GivenText(table) ==> logs[id].tableModifiee == table.value)
    {
      if GivenText(table) {
        assert LogFilters(table) == [TableIs(table.value)];
        assert TableIs(table.value) in LogFilters(table);
      }
    }

    /**
      `get_abonnements`: a subscription is listed when the inner joins find
      its client and offer, and it has the given client, the given offer and
      a `date_debut` in the given month.
    */
    lemma AbonnementFiltersMeaning(clientId: Option<int>, offreId: Option<int>, mois: Option<string>, id: int)
      ensures Hit(Abonnements, AbonnementFilters(clientId, offreId, mois), id) <==>
        GetAbonnement(id).Some? &&
        (GivenId(clientId) ==> abonnements[id].clientId == clientId.value) &&
        (GivenId(offreId) ==> abonnements[id].offreId == offreId.value) &&
        (GivenText(mois) ==> Dates.YearMonth(abonnements[id].dateDebut) == mois.value)
    {
      var fs := AbonnementFilters(clientId, offreId, mois);
      if GivenId(clientId) {
        assert ClientIs(clientId.value) in fs;
      }
      if GivenId(offreId) {
        assert OffreIs(offreId.value) in fs;
      }
      if GivenText(mois) {
        assert MonthIs(mois.value) in fs;
      }
    }

    /**
      `get_paiements`: a payment is listed when the inner joins find its
      subscription, client and offer, and it has the given subscription, a
      subscription of the given client and offer, and a `date_paiement` in
      the given month.
    */
    lemma PaiementFiltersMeaning(abonnementId: Option<int>, clientId: Option<int>, offreId: Option<int>,
                                 mois: Option<string>, id: int)
      ensures Hit(Paiements, PaiementFilters(abonnementId, clientId, offreId, mois), id) <==>
        GetPaiement(id).Some? &&
        (GivenId(abonnementId) ==> paiements[id].abonnementId == abonnementId.value) &&
        (GivenId(clientId) ==> abonnements[paiements[id].abonnementId].clientId == clientId.value) &&
        (GivenId(offreId) ==> abonnements[paiements[id].abonnementId].offreId == offreId.value) &&
        (GivenText(mois) ==> Dates.YearMonth(paiements[id].datePaiement) == mois.value)
    {
      var fs := PaiementFilters(abonnementId, clientId, offreId, mois);
      if GivenId(abonnementId) {
        assert AbonnementIs(abonnementId.value) in fs;
      }
      if GivenId(clientId) {
        assert ClientIs(clientId.value) in fs;
      }
      if GivenId(offreId) {
        assert OffreIs(offreId.value) in fs;
      }
      if GivenText(mois) {
        assert MonthIs(mois.value) in fs;
      }
    }

    // -------------------------------------------------------------------
    // Writes: each is one transaction, committed or rolled back whole

    /** Some subscription refers to the offer `id`. */
    predicate OffreInUse(id: int)
      reads this
    {
      exists k :: k in abonnements && abonnements[k].offreId == id
    }

    /** Some payment refers to the subscription `id`. */
    predicate AbonnementInUse(id: int)
      reads this
    {
      exists k :: k in paiements && paiements[k].abonnementId == id
    }

    /**
      `create_client`: the row goes under the next id. An email some client
      already has violates the unique constraint and nothing is written.
    */
    method CreateClient(nom: string, email: string) returns (r: Result<Client, StoreError>)
      requires Valid()
      modifies this
      ensures Valid()
      ensures r.Err? <==> EmailHeldByOther(old(clients), email, old(nextId))
      ensures r.Err? ==> r.error == UniqueViolation && clients == old(clients) && nextId == old(nextId)
      ensures r.Ok? ==>
        r.value == Client(old(nextId), nom, email) && r.value.id !in old(clients) &&
        clients == old(clients)[r.value.id := r.value] && nextId == old(nextId) + 1
      ensures offres == old(offres) && abonnements == old(abonnements) && paiements == old(paiements) && logs == old(logs)
    {
      if EmailHeldByOther(clients, email, nextId) {
        return Err(UniqueViolation);
      }
      var c := Client(nextId, nom, email);
      clients := clients[nextId := c];
      nextId := nextId + 1;
      r := Ok(c);
    }

    /**
      `update_client`: both columns are overwritten. A missing id updates
      nothing and returns `None`; an email another client has violates the
      unique constraint and nothing is written.
    */
    method UpdateClient(id: int, nom: string, email: string) returns (r: Result<Option<Client>, StoreError>)
      requires Valid()
      modifies this
      ensures Valid()
      ensures r == Ok(None) <==> id !in old(clients)
      ensures r.Err? <==> id in old(clients) && EmailHeldByOther(old(clients), email, id)
      ensures r.Err? ==> r.error == UniqueViolation
      ensures r.Ok? && r.value.Some? ==> r.value.value == Client(id, nom, email) && clients == old(clients)[id := r.value.value]
      ensures !(r.Ok? && r.value.Some?) ==> clients == old(clients)
      ensures offres == old(offres) && abonnements == old(abonnements) && paiements == old(paiements) && logs == old(logs)
      ensures nextId == old(nextId)
    {
      if id !in clients {
        return Ok(None);
      }
      if EmailHeldByOther(clients, email, id) {
        return Err(UniqueViolation);
      }
      var c := Client(id, nom, email);
      clients := clients[id := c];
      r := Ok(Some(c));
    }

    /**
      `delete_client`: reports whether a row was deleted. Nothing guards it,
      so subscriptions of the client stay and drop out of the joined reads.
    */
    method DeleteClient(id: int) returns (deleted: bool)
      requires Valid()
      modifies this
      ensures Valid()
      ensures deleted <==> id in old(clients)
      ensures clients == old(clients) - {id}
      ensures offres == old(offres) && abonnements == old(abonnements) && paiements == old(paiements) && logs == old(logs)
      ensures nextId == old(nextId)
    {
      deleted := id in clients;
      clients := clients - {id};
    }

    /**
      `create_offre`: the row goes under the next id. A name some offer
      already has violates the unique constraint and nothing is written.
    */
    method CreateOffre(nom: string, debitMbps: Option<int>, prix: Option<int>) returns (r: Result<Offre, StoreError>)
      requires Valid()
      modifies this
      ensures Valid()
      ensures r.Err? <==> NameHeldByOther(old(offres), nom, old(nextId))
      ensures r.Err? ==> r.error == UniqueViolation && offres == old(offres) && nextId == old(nextId)
      ensures r.Ok? ==>
        r.value == Offre(old(nextId), nom, debitMbps, prix) && r.value.id !in old(offres) &&
        offres == old(offres)[r.value.id := r.value] && nextId == old(nextId) + 1
      ensures clients == old(clients) && abonnements == old(abonnements) && paiements == old(paiements) && logs == old(logs)
    {
      if NameHeldByOther(offres, nom, nextId) {
        return Err(UniqueViolation);
      }
      var o := Offre(nextId, nom, debitMbps, prix);
      offres := offres[nextId := o];
      nextId := nextId + 1;
      r := Ok(o);
    }

    /**
      `update_offre`: every column is overwritten, so an omitted rate or
      price becomes `None`. A missing id updates nothing and returns `None`;
      a name another offer has violates the unique constraint.
    */
    method UpdateOffre(id: int, nom: string, debitMbps: Option<int>, prix: Option<int>)
      returns (r: Result<Option<Offre>, StoreError>)
      requires Valid()
      modifies this
      ensures Valid()
      ensures r == Ok(None) <==> id !in old(offres)
      ensures r.Err? <==> id in old(offres) && NameHeldByOther(old(offres), nom, id)
      ensures r.Err? ==> r.error == UniqueViolation
      ensures r.Ok? && r.value.Some? ==>
        r.value.value == Offre(id, nom, debitMbps, prix) && offres == old(offres)[id := r.value.value]
      ensures !(r.Ok? && r.value.Some?) ==> offres == old(offres)
      ensures clients == old(clients) && abonnements == old(abonnements) && paiements == old(paiements) && logs == old(logs)
      ensures nextId == old(nextId)
    {
      if id !in offres {
        return Ok(None);
      }
      if NameHeldByOther(offres, nom, id) {
        return Err(UniqueViolation);
      }
      var o := Offre(id, nom, debitMbps, prix);
      offres := offres[id := o];
      r := Ok(Some(o));
    }

    /**
      `delete_offre`: refused while a subscription refers to the offer;
      otherwise reports whether a row was deleted.
    */
    method DeleteOffre(id: int) returns (deleted: bool)
      requires Valid()
      modifies this
      ensures Valid()
      ensures deleted <==> id in old(offres) && !old(OffreInUse(id))
      ensures offres == if old(OffreInUse(id)) then old(offres) else old(offres) - {id}
      ensures clients == old(clients) && abonnements == old(abonnements) && paiements == old(paiements) && logs == old(logs)
      ensures nextId == old(nextId)
    {
      if OffreInUse(id) {
        return false;
      }
      deleted := id in offres;
      offres := offres - {id};
    }

    /**
      `create_abonnement`: the row goes under the next id and comes back
      with the names of its client and offer. When either is missing the
      transaction fails and nothing is written.
    */
    method CreateAbonnement(clientId: int, offreId: int, dateDebut: Dates.CalendarDate,
                            dateFin: Option<Dates.CalendarDate>)
      returns (r: Result<AbonnementDetail, StoreError>)
      requires Valid()
      modifies this
      ensures Valid()
      ensures r.Ok? <==> clientId in old(clients) && offreId in old(offres)
      ensures r.Err? ==> r.error == MissingReferent && abonnements == old(abonnements) && nextId == old(nextId)
      ensures r.Ok? ==>
        r.value.abonnement == Abonnement(old(nextId), clientId, offreId, dateDebut, dateFin) &&
        r.value.abonnement.id !in old(abonnements) &&
        abonnements == old(abonnements)[r.value.abonnement.id := r.value.abonnement] && nextId == old(nextId) + 1
      ensures r.Ok? ==> GetAbonnement(r.value.abonnement.id) == Some(r.value)
      ensures clients == old(clients) && offres == old(offres) && paiements == old(paiements) && logs == old(logs)
    {
      if clientId !in clients || offreId !in offres {
        return Err(MissingReferent);
      }
      var a := Abonnement(nextId, clientId, offreId, dateDebut, dateFin);
      abonnements := abonnements[nextId := a];
      nextId := nextId + 1;
      r := Ok(AbonnementDetail(a, clients[clientId].nom, offres[offreId].nom));
    }

    /**
      `update_abonnement`: reads the row, merges the supplied fields into it
      and writes it back with the names of its client and its (new) offer.
      A missing id returns `None`; when the client or the offer is missing
      the transaction fails and nothing is written.
    */
    method UpdateAbonnement(id: int, upd: AbonnementUpdate) returns (r: Result<Option<AbonnementDetail>, StoreError>)
      requires Valid()
      modifies this
      ensures Valid()
      ensures r == Ok(None) <==> id !in old(abonnements)
      ensures r.Err? <==> id in old(abonnements) && old(AbonnementDetailOf(MergeAbonnement(abonnements[id], upd))).None?
      ensures r.Err? ==> r.error == MissingReferent
      ensures r.Ok? && r.value.Some? ==>
        abonnements == old(abonnements)[id := MergeAbonnement(old(abonnements)[id], upd)] &&
        GetAbonnement(id) == r.value
      ensures !(r.Ok? && r.value.Some?) ==> abonnements == old(abonnements)
      ensures clients == old(clients) && offres == old(offres) && paiements == old(paiements) && logs == old(logs)
      ensures nextId == old(nextId)
    {
      if id !in abonnements {
        return Ok(None);
      }
      var current := abonnements[id];
      var a := MergeAbonnement(current, upd);
      if a.offreId !in offres || a.clientId !in clients {
        return Err(MissingReferent);
      }
      abonnements := abonnements[id := a];
      r := Ok(Some(AbonnementDetail(a, clients[a.clientId].nom, offres[a.offreId].nom)));
    }

    /**
      `delete_abonnement`: refused while a payment refers to the
      subscription; otherwise reports whether a row was deleted.
    */
    method DeleteAbonnement(id: int) returns (deleted: bool)
      requires Valid()
      modifies this
      ensures Valid()
      ensures deleted <==> id in old(abonnements) && !old(AbonnementInUse(id))
      ensures abonnements == if old(AbonnementInUse(id)) then old(abonnements) else old(abonnements) - {id}
      ensures clients == old(clients) && offres == old(offres) && paiements == old(paiements) && logs == old(logs)
      ensures nextId == old(nextId)
    {
      if AbonnementInUse(id) {
        return false;
      }
      deleted := id in abonnements;
      abonnements := abonnements - {id};
    }

    /**
      `create_paiement`: the row goes under the next id and comes back with
      the names of the client and offer of its subscription. When the
      subscription, its client or its offer is missing the transaction
      fails and nothing is written.
    */
    method CreatePaiement(abonnementId: int, montant: int, datePaiement: Dates.CalendarDate)
      returns (r: Result<PaiementDetail, StoreError>)
      requires Valid()
      modifies this
      ensures Valid()
      ensures r.Ok? <==> old(GetAbonnement(abonnementId)).Some?
      ensures r.Err? ==> r.error == MissingReferent && paiements == old(paiements) && nextId == old(nextId)
      ensures r.Ok? ==>
        r.value.paiement == Paiement(old(nextId), abonnementId, montant, datePaiement) &&
        r.value.paiement.id !in old(paiements) &&
        paiements == old(paiements)[r.value.paiement.id := r.value.paiement] && nextId == old(nextId) + 1
      ensures r.Ok? ==> GetPaiement(r.value.paiement.id) == Some(r.value)
      ensures clients == old(clients) && offres == old(offres) && abonnements == old(abonnements) && logs == old(logs)
    {
      var details := GetAbonnement(abonnementId);
      if details.None? {
        return Err(MissingReferent);
      }
      var p := Paiement(nextId, abonnementId, montant, datePaiement);
      paiements := paiements[nextId := p];
      nextId := nextId + 1;
      r := Ok(PaiementDetail(p, details.value.clientNom, details.value.offreNom));
    }

    /**
      `update_paiement`: reads the row, merges the supplied fields into it
      and writes it back with the names of the client and offer of its
      subscription. A missing id returns `None`; a payment that the joined
      read does not find fails the transaction and nothing is written.
    */
    method UpdatePaiement(id: int, upd: PaiementUpdate) returns (r: Result<Option<PaiementDetail>, StoreError>)
      requires Valid()
      modifies this
      ensures Valid()
      ensures r == Ok(None) <==> id !in old(paiements)
      ensures r.Err? <==> id in old(paiements) && old(GetPaiement(id)).None?
      ensures r.Err? ==> r.error == MissingReferent
      ensures r.Ok? && r.value.Some? ==>
        paiements == old(paiements)[id := MergePaiement(old(paiements)[id], upd)] &&
        GetPaiement(id) == r.value
      ensures !(r.Ok? && r.value.Some?) ==> paiements == old(paiements)
      ensures clients == old(clients) && offres == old(offres) && abonnements == old(abonnements) && logs == old(logs)
      ensures nextId == old(nextId)
    {
      if id !in paiements {
        return Ok(None);
      }
      var current := paiements[id];
      var p := MergePaiement(current, upd);
      var details := GetAbonnement(p.abonnementId);
      if details.None? {
        return Err(MissingReferent);
      }
      paiements := paiements[id := p];
      r := Ok(Some(PaiementDetail(p, details.value.clientNom, details.value.offreNom)));
    }

    /** `delete_paiement`: unguarded; reports whether a row was deleted. */
    method DeletePaiement(id: int) returns (deleted: bool)
      requires Valid()
      modifies this
      ensures Valid()
      ensures deleted <==> id in old(paiements)
      ensures paiements == old(paiements) - {id}
      ensures clients == old(clients) && offres == old(offres) && abonnements == old(abonnements) && logs == old(logs)
      ensures nextId == old(nextId)
    {
      deleted := id in paiements;
      paiements := paiements - {id};
    }
  }

  /**
    A client with one subscription: the offer cannot be deleted while the
    subscription refers to it, the client can, and afterwards the joined
    read no longer finds the subscription.
  */
  method DeleteGuardScenario() returns (offreDeleted: bool, clientDeleted: bool, found: bool)
    ensures !offreDeleted && clientDeleted && !found
  {
    var store := new Store(map[], 1);
    var c := store.CreateClient("Dupont", "dupont@example.com");
    var o := store.CreateOffre("Fibre", Some(1000), Some(2999));
    assert !EmailHeldByOther(map[], "dupont@example.com", 1);
    assert c.Ok? && o.Ok?;
    var a := store.CreateAbonnement(c.value.id, o.value.id, Dates.Date(2024, 3, 1), None);
    assert a.Ok?;
    var id := a.value.abonnement.id;
    assert store.OffreInUse(o.value.id) by {
      assert store.abonnements[id].offreId == o.value.id;
    }
    offreDeleted := store.DeleteOffre(o.value.id);
    clientDeleted := store.DeleteClient(c.value.id);
    found := store.GetAbonnement(id).Some?;
  }
}
