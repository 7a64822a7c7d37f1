/**
  The parameterised SQL that the list builders of the data-access layer
  compose. A query is a sequence of parts: a fixed fragment of SQL text
  (named by `Fragment`, spelled out by `Spelling`), or a `%s` placeholder
  (`Slot`). Values travel separately in a positional parameter list, as
  psycopg2 binds them.

  The store reads a query back into its filter clauses (`ParseCount`,
  `ParseSelect`). For every clause list, reading back what `Compose`
  rendered yields the same list (`ComposedCountParses`,
  `ComposedSelectParses`). This is how the model shows that the count query
  and the data query select the same rows.
*/
module Sql {
  import opened Results

  // Facts about sequence concatenation used throughout

  lemma Regroup<T>(a: seq<T>, b: seq<T>, c: seq<T>)
    ensures (a + b) + c == a + (b + c)
    ensures (a + (b + c))[|a|..] == b + c
  {
  }

  lemma Regroup4<T>(x: seq<T>, a: seq<T>, b: seq<T>, c: seq<T>)
    ensures x + (a + (b + c)) == ((x + a) + b) + c
  {
  }

  lemma Reassemble<T>(s: seq<T>, head: seq<T>, mid: seq<T>, rest: seq<T>)
    requires |head| <= |s| && s[..|head|] == head && s[|head|..] == mid + rest
    ensures s == (head + mid) + rest
  {
    assert s == s[..|head|] + s[|head|..];
  }

  lemma DropHead<T>(x: seq<T>, a: seq<T>, b: seq<T>, c: seq<T>)
    ensures (((x + a) + b) + c)[|x|..] == a + (b + c)
    ensures (x + a)[|x|..] == a + []
  {
  }

  /** The table a list query reads (with its joins). */
  datatype Entity = Clients | Offres | Abonnements | Paiements | Logs

  /** The fixed pieces of SQL text the list builders and `paginate_query` use. */
  datatype Fragment =
    | SelectFrom(e: Entity)   // the data query up to its WHERE parts
    | CountFrom(e: Entity)    // the count query up to its WHERE parts
    | OrderByKey(e: Entity)   // the data query's ORDER BY
    | WhereNomLike | OrEmailLike | WhereTable
    | AndClient | AndOffre | AndAbonnement | AndMonthDebut | AndMonthPaiement
    | LimitKeyword | OffsetKeyword

  /** The SQL text of each fragment. */
  function Spelling(f: Fragment): string {
    match f
    case SelectFrom(Clients) => "SELECT * FROM clients"
    case SelectFrom(Offres) => "SELECT * FROM offres"
    case SelectFrom(Abonnements) =>
      "SELECT a.*, c.nom as client_nom, o.nom as offre_nom FROM abonnements a JOIN clients c ON a.client_id = c.id JOIN offres o ON a.offre_id = o.id WHERE 1=1"
    case SelectFrom(Paiements) =>
      "SELECT p.*, c.nom as client_nom, o.nom as offre_nom FROM paiements p JOIN abonnements a ON p.abonnement_id = a.id JOIN clients c ON a.client_id = c.id JOIN offres o ON a.offre_id = o.id WHERE 1=1"
    case SelectFrom(Logs) => "SELECT * FROM logs"
    case CountFrom(Clients) => "SELECT COUNT(*) as count FROM clients"
    case CountFrom(Offres) => "SELECT COUNT(*) as count FROM offres"
    case CountFrom(Abonnements) =>
      "SELECT COUNT(*) as count FROM abonnements a JOIN clients c ON a.client_id = c.id JOIN offres o ON a.offre_id = o.id WHERE 1=1"
    case CountFrom(Paiements) =>
      "SELECT COUNT(*) as count FROM paiements p JOIN abonnements a ON p.abonnement_id = a.id JOIN clients c ON a.client_id = c.id JOIN offres o ON a.offre_id = o.id WHERE 1=1"
    case CountFrom(Logs) => "SELECT COUNT(*) as count FROM logs"
    case OrderByKey(Clients) => " ORDER BY id DESC"
    case OrderByKey(Offres) => " ORDER BY id DESC"
    case OrderByKey(Abonnements) => " ORDER BY a.date_debut DESC"
    case OrderByKey(Paiements) => " ORDER BY p.date_paiement DESC"
    case OrderByKey(Logs) => " ORDER BY date_action DESC"
    case WhereNomLike => " WHERE nom ILIKE "
    case OrEmailLike => " OR email ILIKE "
    case WhereTable => " WHERE table_modifiee = "
    case AndClient => " AND a.client_id = "
    case AndOffre => " AND a.offre_id = "
    case AndAbonnement => " AND p.abonnement_id = "
    case AndMonthDebut => " AND TO_CHAR(a.date_debut, 'YYYY-MM') = "
    case AndMonthPaiement => " AND TO_CHAR(p.date_paiement, 'YYYY-MM') = "
    case LimitKeyword => " LIMIT "
    case OffsetKeyword => " OFFSET "
  }

  /** Fixed SQL text, or a `%s` placeholder. */
  datatype SqlPart = Text(fragment: Fragment) | Slot

  type Sql = seq<SqlPart>

  /** The text psycopg2 receives, placeholders still in it. */
  function ToText(q: Sql): string {
    if q == [] then "" else PartText(q[0]) + ToText(q[1..])
  }

  function PartText(p: SqlPart): string {
    match p
    case Text(f) => Spelling(f)
    case Slot => "%s"
  }

  /** A bound parameter value. */
  datatype Param = PInt(n: int) | PStr(s: string)

  /** A WHERE condition a list builder can add. */
  datatype Clause =
    | NameOrEmailLike(term: string)   // clients: nom ILIKE '%term%' OR email ILIKE '%term%'
    | NameLike(term: string)          // offres: nom ILIKE '%term%'
    | TableIs(table: string)          // logs: table_modifiee = table
    | ClientIs(clientId: int)         // a.client_id = clientId
    | OffreIs(offreId: int)           // a.offre_id = offreId
    | AbonnementIs(abonnementId: int) // p.abonnement_id = abonnementId
    | MonthIs(mois: string)           // TO_CHAR(<date column>, 'YYYY-MM') = mois

  /** The data query and count query of one list operation, and the parameters they share. */
  datatype Queries = Queries(query: Sql, countQuery: Sql, params: seq<Param>)

  /** What `paginate_query` appends to the data query. */
  const LimitOffset: Sql := [Text(LimitKeyword), Slot, Text(OffsetKeyword), Slot]

  /** Which clauses the builder of each table can add. */
  predicate Allowed(e: Entity, c: Clause) {
    match c
    case NameOrEmailLike(_) => e == Clients
    case NameLike(_) => e == Offres
    case TableIs(_) => e == Logs
    case ClientIs(_) => e == Abonnements || e == Paiements
    case OffreIs(_) => e == Abonnements || e == Paiements
    case AbonnementIs(_) => e == Paiements
    case MonthIs(_) => e == Abonnements || e == Paiements
  }

  predicate AllAllowed(e: Entity, fs: seq<Clause>) {
    forall c :: c in fs ==> Allowed(e, c)
  }

  /** The `%term%` pattern bound for a search term. */
  function Wrap(term: string): string { "%" + term + "%" }

  predicate IsWrapped(s: string) { |s| >= 2 && s[0] == '%' && s[|s| - 1] == '%' }

  function Unwrap(s: string): string
    requires IsWrapped(s)
  {
    s[1..|s| - 1]
  }

  // ---------------------------------------------------------------------
  // Rendering

  /** The SQL a clause appends to both queries. */
  function Render(e: Entity, c: Clause): Sql {
    match c
    case NameOrEmailLike(_) => [Text(WhereNomLike), Slot, Text(OrEmailLike), Slot]
    case NameLike(_) => [Text(WhereNomLike), Slot]
    case TableIs(_) => [Text(WhereTable), Slot]
    case ClientIs(_) => [Text(AndClient), Slot]
    case OffreIs(_) => [Text(AndOffre), Slot]
    case AbonnementIs(_) => [Text(AndAbonnement), Slot]
    case MonthIs(_) => [Text(if e == Paiements then AndMonthPaiement else AndMonthDebut), Slot]
  }

  /** The parameters a clause appends. */
  function Bind(c: Clause): seq<Param> {
    match c
    case NameOrEmailLike(t) => [PStr(Wrap(t)), PStr(Wrap(t))]
    case NameLike(t) => [PStr(Wrap(t))]
    case TableIs(t) => [PStr(t)]
    case ClientIs(n) => [PInt(n)]
    case OffreIs(n) => [PInt(n)]
    case AbonnementIs(n) => [PInt(n)]
    case MonthIs(m) => [PStr(m)]
  }

  function RenderAll(e: Entity, fs: seq<Clause>): Sql {
    if fs == [] then [] else Render(e, fs[0]) + RenderAll(e, fs[1..])
  }

  function BindAll(fs: seq<Clause>): seq<Param> {
    if fs == [] then [] else Bind(fs[0]) + BindAll(fs[1..])
  }

  /** The number of `%s` placeholders in a query. */
  function Slots(q: Sql): nat {
    if q == [] then 0 else (if q[0] == Slot then 1 else 0) + Slots(q[1..])
  }

  lemma {:induction false} SlotsAppend(a: Sql, b: Sql)
    ensures Slots(a + b) == Slots(a) + Slots(b)
  {
    if a == [] {
      assert a + b == b;
    } else {
      assert (a + b)[0] == a[0];
      assert (a + b)[1..] == a[1..] + b;
      SlotsAppend(a[1..], b);
    }
  }

  lemma RenderSlots(e: Entity, c: Clause)
    ensures Slots(Render(e, c)) == |Bind(c)|
  {
    assert Slots([Slot]) == 1;
    assert Slots([Text(OrEmailLike), Slot]) == 1 by {
      assert [Text(OrEmailLike), Slot][1..] == [Slot];
    }
  }

  /** Every rendered WHERE part has exactly as many placeholders as bound parameters. */
  lemma {:induction false} RenderedSlotsMatchParams(e: Entity, fs: seq<Clause>)
    ensures Slots(RenderAll(e, fs)) == |BindAll(fs)|
  {
    if fs != [] {
      RenderedSlotsMatchParams(e, fs[1..]);
      SlotsAppend(Render(e, fs[0]), RenderAll(e, fs[1..]));
      RenderSlots(e, fs[0]);
    }
  }

  /**
    The queries a list builder produces for filters `fs`: the data query and
    the count query carry the same WHERE parts, and one parameter list
    serves both. Only the data query is ordered.
  */
  function Compose(e: Entity, fs: seq<Clause>): Queries {
    Queries([Text(SelectFrom(e))] + RenderAll(e, fs) + [Text(OrderByKey(e))],
            [Text(CountFrom(e))] + RenderAll(e, fs),
            BindAll(fs))
  }

  /**
    Placeholders match parameters: the count query takes exactly the shared
    parameters, and the paginated data query takes them followed by
    `[limit, offset]`.
  */
  lemma ComposedSlotsMatch(e: Entity, fs: seq<Clause>, limit: int, offset: int)
    ensures var q := Compose(e, fs);
      Slots(q.countQuery) == |q.params| &&
      Slots(q.query + LimitOffset) == |q.params + [PInt(limit), PInt(offset)]|
  {
    var w := RenderAll(e, fs);
    RenderedSlotsMatchParams(e, fs);
    SlotsAppend([Text(CountFrom(e))], w);
    SlotsAppend([Text(SelectFrom(e))], w);
    SlotsAppend([Text(SelectFrom(e))] + w, [Text(OrderByKey(e))]);
    SlotsAppend([Text(SelectFrom(e))] + w + [Text(OrderByKey(e))], LimitOffset);
    assert Slots(LimitOffset) == 2 by {
      assert LimitOffset[1..] == [Slot, Text(OffsetKeyword), Slot];
      assert LimitOffset[1..][1..] == [Text(OffsetKeyword), Slot];
      assert LimitOffset[1..][1..][1..] == [Slot];
    }
  }

  lemma {:induction false} ToTextAppend(a: Sql, b: Sql)
    ensures ToText(a + b) == ToText(a) + ToText(b)
  {
    if a != [] {
      assert (a + b)[0] == a[0] && (a + b)[1..] == a[1..] + b;
      ToTextAppend(a[1..], b);
      var h := PartText(a[0]);
      assert ToText(a + b) == h + (ToText(a[1..]) + ToText(b));
      assert h + (ToText(a[1..]) + ToText(b)) == (h + ToText(a[1..])) + ToText(b);
    } else {
      assert a + b == b;
    }
  }

  lemma ToTextOne(p: SqlPart)
    ensures ToText([p]) == PartText(p)
  {
    assert [p][1..] == [];
    assert PartText(p) + "" == PartText(p);
  }

  /** The text of a four-part query piece. */
  lemma ToTextOfFour(p0: SqlPart, p1: SqlPart, p2: SqlPart, p3: SqlPart)
    ensures ToText([p0, p1, p2, p3]) == PartText(p0) + PartText(p1) + PartText(p2) + PartText(p3)
  {
    ToTextOne(p0);
    ToTextOne(p1);
    ToTextOne(p2);
    ToTextOne(p3);
    ToTextAppend([p0], [p1]);
    ToTextAppend([p0] + [p1], [p2]);
    ToTextAppend([p0] + [p1] + [p2], [p3]);
    assert [p0, p1, p2, p3] == [p0] + [p1] + [p2] + [p3];
  }

  /** `paginate_query` appends `LIMIT %s OFFSET %s` to the text of the data query. */
  lemma PaginatedText(q: Sql)
    ensures ToText(q + LimitOffset) == ToText(q) + " LIMIT %s OFFSET %s"
  {
    ToTextAppend(q, LimitOffset);
    ToTextOfFour(Text(LimitKeyword), Slot, Text(OffsetKeyword), Slot);
    assert ToText(LimitOffset) == " LIMIT %s OFFSET %s";
  }

  /** The search condition of `get_clients`, placeholders still in it. */
  lemma ClientSearchText(t: string)
    ensures ToText(Render(Clients, NameOrEmailLike(t))) == " WHERE nom ILIKE %s OR email ILIKE %s"
  {
    ToTextOfFour(Text(WhereNomLike), Slot, Text(OrEmailLike), Slot);
  }

  /**
    The texts `get_clients` sends: the search adds the same `nom`/`email`
    condition to the data query and to the count query.
  */
  lemma ClientQueriesText(search: Option<string>)
    ensures ToText(Compose(Clients, ClientFilters(search)).countQuery) ==
      "SELECT COUNT(*) as count FROM clients" + (if GivenText(search) then " WHERE nom ILIKE %s OR email ILIKE %s" else "")
    ensures ToText(Compose(Clients, ClientFilters(search)).query) ==
      "SELECT * FROM clients" + (if GivenText(search) then " WHERE nom ILIKE %s OR email ILIKE %s" else "") + " ORDER BY id DESC"
  {
    var w := RenderAll(Clients, ClientFilters(search));
    var cond := if GivenText(search) then " WHERE nom ILIKE %s OR email ILIKE %s" else "";
    assert ToText(w) == cond by {
      if GivenText(search) {
        var c := NameOrEmailLike(search.value);
        assert w == Render(Clients, c) by {
          assert ClientFilters(search) == [c];
          assert RenderAll(Clients, [c]) == Render(Clients, c) + RenderAll(Clients, []);
        }
        ClientSearchText(search.value);
      }
    }
    ToTextAppend([Text(CountFrom(Clients))], w);
    ToTextAppend([Text(SelectFrom(Clients))], w);
    ToTextAppend([Text(SelectFrom(Clients))] + w, [Text(OrderByKey(Clients))]);
    assert ToText([Text(CountFrom(Clients))]) == "SELECT COUNT(*) as count FROM clients";
    assert ToText([Text(SelectFrom(Clients))]) == "SELECT * FROM clients";
    assert ToText([Text(OrderByKey(Clients))]) == " ORDER BY id DESC";
  }


  // ---------------------------------------------------------------------
  // Which filters a list call applies: only truthy arguments count

  /** Python truthiness of an optional string: present and non-empty. */
  predicate GivenText(s: Option<string>) { s.Some? && s.value != "" }

  /** Python truthiness of an optional id: present and not 0. */
  predicate GivenId(n: Option<int>) { n.Some? && n.value != 0 }

  function ClientFilters(search: Option<string>): (fs: seq<Clause>)
    ensures AllAllowed(Clients, fs)
    ensures fs == [] <==> !GivenText(search)
  {
    if GivenText(search) then [NameOrEmailLike(search.value)] else []
  }

  function OffreFilters(search: Option<string>): (fs: seq<Clause>)
    ensures AllAllowed(Offres, fs)
    ensures fs == [] <==> !GivenText(search)
  {
    if GivenText(search) then [NameLike(search.value)] else []
  }

  function LogFilters(table: Option<string>): (fs: seq<Clause>)
    ensures AllAllowed(Logs, fs)
    ensures fs == [] <==> !GivenText(table)
  {
    if GivenText(table) then [TableIs(table.value)] else []
  }

  /** The position of a filter's argument in the signatures of `get_abonnements` and `get_paiements`. */
  function ArgumentRank(c: Clause): nat {
    match c
    case AbonnementIs(_) => 0
    case ClientIs(_) => 1
    case OffreIs(_) => 2
    case MonthIs(_) => 3
    case _ => 4
  }

  /** The clauses come in the order of the arguments that add them. */
  predicate InArgumentOrder(fs: seq<Clause>) {
    forall i, j :: 0 <= i < j < |fs| ==> ArgumentRank(fs[i]) < ArgumentRank(fs[j])
  }

  function AbonnementFilters(clientId: Option<int>, offreId: Option<int>, mois: Option<string>): (fs: seq<Clause>)
    ensures AllAllowed(Abonnements, fs)
    ensures |fs| == (if GivenId(clientId) then 1 else 0) + (if GivenId(offreId) then 1 else 0) + (if GivenText(mois) then 1 else 0)
  {
    (if GivenId(clientId) then [ClientIs(clientId.value)] else []) +
    (if GivenId(offreId) then [OffreIs(offreId.value)] else []) +
    (if GivenText(mois) then [MonthIs(mois.value)] else [])
  }

  function PaiementFilters(abonnementId: Option<int>, clientId: Option<int>, offreId: Option<int>, mois: Option<string>): (fs: seq<Clause>)
    ensures AllAllowed(Paiements, fs)
    ensures |fs| == (if GivenId(abonnementId) then 1 else 0) + (if GivenId(clientId) then 1 else 0)
                  + (if GivenId(offreId) then 1 else 0) + (if GivenText(mois) then 1 else 0)
  {
    (if GivenId(abonnementId) then [AbonnementIs(abonnementId.value)] else []) +
    (if GivenId(clientId) then [ClientIs(clientId.value)] else []) +
    (if GivenId(offreId) then [OffreIs(offreId.value)] else []) +
    (if GivenText(mois) then [MonthIs(mois.value)] else [])
  }

  /** A clause in front of a list in argument order, every clause of which comes after it. */
  lemma ConsInArgumentOrder(c: Clause, rest: seq<Clause>)
    requires InArgumentOrder(rest)
    requires forall x :: x in rest ==> ArgumentRank(c) < ArgumentRank(x)
    ensures InArgumentOrder([c] + rest)
  {
    var fs := [c] + rest;
    forall i, j | 0 <= i < j < |fs| ensures ArgumentRank(fs[i]) < ArgumentRank(fs[j]) {
      assert fs[j] == rest[j - 1] && fs[j] in rest;
      if i > 0 {
        assert fs[i] == rest[i - 1];
      }
    }
  }

  /** `get_abonnements` adds one clause for each given argument, carrying that argument. */
  lemma AbonnementFiltersCarryArguments(clientId: Option<int>, offreId: Option<int>, mois: Option<string>)
    ensures forall n :: ClientIs(n) in AbonnementFilters(clientId, offreId, mois) <==> GivenId(clientId) && n == clientId.value
    ensures forall n :: OffreIs(n) in AbonnementFilters(clientId, offreId, mois) <==> GivenId(offreId) && n == offreId.value
    ensures forall m :: MonthIs(m) in AbonnementFilters(clientId, offreId, mois) <==> GivenText(mois) && m == mois.value
  {
  }

  /** `get_abonnements` adds its clauses in the order of its arguments. */
  lemma AbonnementFiltersInArgumentOrder(clientId: Option<int>, offreId: Option<int>, mois: Option<string>)
    ensures InArgumentOrder(AbonnementFilters(clientId, offreId, mois))
  {
    var byMonth := if GivenText(mois) then [MonthIs(mois.value)] else [];
    var byOffre := (if GivenId(offreId) then [OffreIs(offreId.value)] else []) + byMonth;
    assert AbonnementFilters(clientId, offreId, mois) == (if GivenId(clientId) then [ClientIs(clientId.value)] else []) + byOffre;
    if GivenId(offreId) {
      ConsInArgumentOrder(OffreIs(offreId.value), byMonth);
    }
    if GivenId(clientId) {
      ConsInArgumentOrder(ClientIs(clientId.value), byOffre);
    }
  }

  /** `get_paiements` adds one clause for each given argument, carrying that argument. */
  lemma PaiementFiltersCarryArguments(abonnementId: Option<int>, clientId: Option<int>, offreId: Option<int>, mois: Option<string>)
    ensures forall n :: AbonnementIs(n) in PaiementFilters(abonnementId, clientId, offreId, mois) <==> GivenId(abonnementId) && n == abonnementId.value
    ensures forall n :: ClientIs(n) in PaiementFilters(abonnementId, clientId, offreId, mois) <==> GivenId(clientId) && n == clientId.value
    ensures forall n :: OffreIs(n) in PaiementFilters(abonnementId, clientId, offreId, mois) <==> GivenId(offreId) && n == offreId.value
    ensures forall m :: MonthIs(m) in PaiementFilters(abonnementId, clientId, offreId, mois) <==> GivenText(mois) && m == mois.value
  {
  }

  /** `get_paiements` adds its clauses in the order of its arguments. */
  lemma PaiementFiltersInArgumentOrder(abonnementId: Option<int>, clientId: Option<int>, offreId: Option<int>, mois: Option<string>)
    ensures InArgumentOrder(PaiementFilters(abonnementId, clientId, offreId, mois))
  {
    var rest := AbonnementFilters(clientId, offreId, mois);
    AbonnementFiltersInArgumentOrder(clientId, offreId, mois);
    assert PaiementFilters(abonnementId, clientId, offreId, mois) ==
      (if GivenId(abonnementId) then [AbonnementIs(abonnementId.value)] else []) + rest;
    if GivenId(abonnementId) {
      forall x | x in rest ensures ArgumentRank(AbonnementIs(abonnementId.value)) < ArgumentRank(x) {
        assert Allowed(Abonnements, x);
      }
      ConsInArgumentOrder(AbonnementIs(abonnementId.value), rest);
    }
  }

  // ---------------------------------------------------------------------
  // The list builders: each grows the data query, the count query and the
  // parameters step by step

  /** The parts built so far are those that the clauses `fs` render and bind. */
  ghost predicate Grown(e: Entity, fs: seq<Clause>, query: Sql, countQuery: Sql, params: seq<Param>) {
    query == [Text(SelectFrom(e))] + RenderAll(e, fs) &&
    countQuery == [Text(CountFrom(e))] + RenderAll(e, fs) &&
    params == BindAll(fs)
  }

  lemma {:induction false} RenderAllAppend(e: Entity, fs: seq<Clause>, c: Clause)
    ensures RenderAll(e, fs + [c]) == RenderAll(e, fs) + Render(e, c)
    ensures BindAll(fs + [c]) == BindAll(fs) + Bind(c)
  {
    if fs == [] {
      assert [] + [c] == [c];
      assert RenderAll(e, [c]) == Render(e, c) + RenderAll(e, []);
      assert BindAll([c]) == Bind(c) + BindAll([]);
    } else {
      assert (fs + [c])[0] == fs[0];
      assert (fs + [c])[1..] == fs[1..] + [c];
      RenderAllAppend(e, fs[1..], c);
      Regroup(Render(e, fs[0]), RenderAll(e, fs[1..]), Render(e, c));
      Regroup(Bind(fs[0]), BindAll(fs[1..]), Bind(c));
    }
  }

  lemma GrowStart(e: Entity)
    ensures Grown(e, [], [Text(SelectFrom(e))], [Text(CountFrom(e))], [])
  {
    assert [Text(SelectFrom(e))] + [] == [Text(SelectFrom(e))];
    assert [Text(CountFrom(e))] + [] == [Text(CountFrom(e))];
  }

  /** Appending one clause's SQL to both queries and its values to the parameters. */
  lemma GrowStep(e: Entity, fs: seq<Clause>, c: Clause, query: Sql, countQuery: Sql, params: seq<Param>)
    requires Grown(e, fs, query, countQuery, params)
    ensures Grown(e, fs + [c], query + Render(e, c), countQuery + Render(e, c), params + Bind(c))
  {
    RenderAllAppend(e, fs, c);
    Regroup([Text(SelectFrom(e))], RenderAll(e, fs), Render(e, c));
    Regroup([Text(CountFrom(e))], RenderAll(e, fs), Render(e, c));
  }

  /** Ordering the data query completes the pair `Compose` describes. */
  lemma GrowFinish(e: Entity, fs: seq<Clause>, query: Sql, countQuery: Sql, params: seq<Param>)
    requires Grown(e, fs, query, countQuery, params)
    ensures Queries(query + [Text(OrderByKey(e))], countQuery, params) == Compose(e, fs)
  {
  }

  /** `get_clients` up to its call of `paginate_query`. */
  method ClientsQueries(search: Option<string>) returns (q: Queries)
    ensures q == Compose(Clients, ClientFilters(search))
  {
    var query := [Text(SelectFrom(Clients))];
    var countQuery := [Text(CountFrom(Clients))];
    var params: seq<Param> := [];
    ghost var fs: seq<Clause> := [];
    GrowStart(Clients);
    if search.Some? && search.value != "" {
      GrowStep(Clients, fs, NameOrEmailLike(search.value), query, countQuery, params);
      assert Render(Clients, NameOrEmailLike(search.value)) == [Text(WhereNomLike), Slot, Text(OrEmailLike), Slot];
      query := query + [Text(WhereNomLike), Slot, Text(OrEmailLike), Slot];
      countQuery := countQuery + [Text(WhereNomLike), Slot, Text(OrEmailLike), Slot];
      params := params + [PStr("%" + search.value + "%"), PStr("%" + search.value + "%")];
      fs := fs + [NameOrEmailLike(search.value)];
    }
    assert fs == ClientFilters(search);
    GrowFinish(Clients, fs, query, countQuery, params);
    query := query + [Text(OrderByKey(Clients))];
    q := Queries(query, countQuery, params);
  }

  /** `get_offres` up to its call of `paginate_query`. */
  method OffresQueries(search: Option<string>) returns (q: Queries)
    ensures q == Compose(Offres, OffreFilters(search))
  {
    var query := [Text(SelectFrom(Offres))];
    var countQuery := [Text(CountFrom(Offres))];
    var params: seq<Param> := [];
    ghost var fs: seq<Clause> := [];
    GrowStart(Offres);
    if search.Some? && search.value != "" {
      GrowStep(Offres, fs, NameLike(search.value), query, countQuery, params);
      assert Render(Offres, NameLike(search.value)) == [Text(WhereNomLike), Slot];
      query := query + [Text(WhereNomLike), Slot];
      countQuery := countQuery + [Text(WhereNomLike), Slot];
      params := params + [PStr("%" + search.value + "%")];
      fs := fs + [NameLike(search.value)];
    }
    assert fs == OffreFilters(search);
    GrowFinish(Offres, fs, query, countQuery, params);
    query := query + [Text(OrderByKey(Offres))];
    q := Queries(query, countQuery, params);
  }

  /** `get_logs` up to its call of `paginate_query`. */
  method LogsQueries(table: Option<string>) returns (q: Queries)
    ensures q == Compose(Logs, LogFilters(table))
  {
    var query := [Text(SelectFrom(Logs))];
    var countQuery := [Text(CountFrom(Logs))];
    var params: seq<Param> := [];
    ghost var fs: seq<Clause> := [];
    GrowStart(Logs);
    if table.Some? && table.value != "" {
      GrowStep(Logs, fs, TableIs(table.value), query, countQuery, params);
      assert Render(Logs, TableIs(table.value)) == [Text(WhereTable), Slot];
      query := query + [Text(WhereTable), Slot];
      countQuery := countQuery + [Text(WhereTable), Slot];
      params := params + [PStr(table.value)];
      fs := fs + [TableIs(table.value)];
    }
    assert fs == LogFilters(table);
    GrowFinish(Logs, fs, query, countQuery, params);
    query := query + [Text(OrderByKey(Logs))];
    q := Queries(query, countQuery, params);
  }

  /** `get_abonnements` up to its call of `paginate_query`. */
  method AbonnementsQueries(clientId: Option<int>, offreId: Option<int>, mois: Option<string>) returns (q: Queries)
    ensures q == Compose(Abonnements, AbonnementFilters(clientId, offreId, mois))
  {
    var query := [Text(SelectFrom(Abonnements))];
    var countQuery := [Text(CountFrom(Abonnements))];
    var params: seq<Param> := [];
    ghost var fs: seq<Clause> := [];
    GrowStart(Abonnements);
    if clientId.Some? && clientId.value != 0 {
      GrowStep(Abonnements, fs, ClientIs(clientId.value), query, countQuery, params);
      assert Render(Abonnements, ClientIs(clientId.value)) == [Text(AndClient), Slot];
      query := query + [Text(AndClient), Slot];
      countQuery := countQuery + [Text(AndClient), Slot];
      params := params + [PInt(clientId.value)];
      fs := fs + [ClientIs(clientId.value)];
    }
    if offreId.Some? && offreId.value != 0 {
      GrowStep(Abonnements, fs, OffreIs(offreId.value), query, countQuery, params);
      assert Render(Abonnements, OffreIs(offreId.value)) == [Text(AndOffre), Slot];
      query := query + [Text(AndOffre), Slot];
      countQuery := countQuery + [Text(AndOffre), Slot];
      params := params + [PInt(offreId.value)];
      fs := fs + [OffreIs(offreId.value)];
    }
    if mois.Some? && mois.value != "" {
      GrowStep(Abonnements, fs, MonthIs(mois.value), query, countQuery, params);
      assert Render(Abonnements, MonthIs(mois.value)) == [Text(AndMonthDebut), Slot];
      query := query + [Text(AndMonthDebut), Slot];
      countQuery := countQuery + [Text(AndMonthDebut), Slot];
      params := params + [PStr(mois.value)];
      fs := fs + [MonthIs(mois.value)];
    }
    assert fs == AbonnementFilters(clientId, offreId, mois);
    GrowFinish(Abonnements, fs, query, countQuery, params);
    query := query + [Text(OrderByKey(Abonnements))];
    q := Queries(query, countQuery, params);
  }

  /** `get_paiements` up to its call of `paginate_query`. */
  method PaiementsQueries(abonnementId: Option<int>, clientId: Option<int>, offreId: Option<int>, mois: Option<string>)
    returns (q: Queries)
    ensures q == Compose(Paiements, PaiementFilters(abonnementId, clientId, offreId, mois))
  {
    var query := [Text(SelectFrom(Paiements))];
    var countQuery := [Text(CountFrom(Paiements))];
    var params: seq<Param> := [];
    ghost var fs: seq<Clause> := [];
    GrowStart(Paiements);
    if abonnementId.Some? && abonnementId.value != 0 {
      GrowStep(Paiements, fs, AbonnementIs(abonnementId.value), query, countQuery, params);
      assert Render(Paiements, AbonnementIs(abonnementId.value)) == [Text(AndAbonnement), Slot];
      query := query + [Text(AndAbonnement), Slot];
      countQuery := countQuery + [Text(AndAbonnement), Slot];
      params := params + [PInt(abonnementId.value)];
      fs := fs + [AbonnementIs(abonnementId.value)];
    }
    assert fs == (if GivenId(abonnementId) then [AbonnementIs(abonnementId.value)] else []);
    if clientId.Some? && clientId.value != 0 {
      GrowStep(Paiements, fs, ClientIs(clientId.value), query, countQuery, params);
      assert Render(Paiements, ClientIs(clientId.value)) == [Text(AndClient), Slot];
      query := query + [Text(AndClient), Slot];
      countQuery := countQuery + [Text(AndClient), Slot];
      params := params + [PInt(clientId.value)];
      fs := fs + [ClientIs(clientId.value)];
    }
    assert fs == (if GivenId(abonnementId) then [AbonnementIs(abonnementId.value)] else []) +
                 (if GivenId(clientId) then [ClientIs(clientId.value)] else []);
    if offreId.Some? && offreId.value != 0 {
      GrowStep(Paiements, fs, OffreIs(offreId.value), query, countQuery, params);
      assert Render(Paiements, OffreIs(offreId.value)) == [Text(AndOffre), Slot];
      query := query + [Text(AndOffre), Slot];
      countQuery := countQuery + [Text(AndOffre), Slot];
      params := params + [PInt(offreId.value)];
      fs := fs + [OffreIs(offreId.value)];
    }
    assert fs == (if GivenId(abonnementId) then [AbonnementIs(abonnementId.value)] else []) +
                 (if GivenId(clientId) then [ClientIs(clientId.value)] else []) +
                 (if GivenId(offreId) then [OffreIs(offreId.value)] else []);
    if mois.Some? && mois.value != "" {
      GrowStep(Paiements, fs, MonthIs(mois.value), query, countQuery, params);
      assert Render(Paiements, MonthIs(mois.value)) == [Text(AndMonthPaiement), Slot];
      query := query + [Text(AndMonthPaiement), Slot];
      countQuery := countQuery + [Text(AndMonthPaiement), Slot];
      params := params + [PStr(mois.value)];
      fs := fs + [MonthIs(mois.value)];
    }
    assert fs == PaiementFilters(abonnementId, clientId, offreId, mois);
    GrowFinish(Paiements, fs, query, countQuery, params);
    query := query + [Text(OrderByKey(Paiements))];
    q := Queries(query, countQuery, params);
  }

  // ---------------------------------------------------------------------
  // How the store reads a query back into its clauses

  lemma WrapUnwrap(s: string)
    requires IsWrapped(s)
    ensures Wrap(Unwrap(s)) == s
  {
    assert s == [s[0]] + s[1..|s| - 1] + [s[|s| - 1]];
  }

  lemma UnwrapWrap(t: string)
    ensures IsWrapped(Wrap(t)) && Unwrap(Wrap(t)) == t
  {
  }

  /** The one-placeholder clause that fragment `f` opens for table `e`, with value `p`. */
  function ParseSimple(e: Entity, f: Fragment, p: Param): (r: Option<Clause>)
    ensures r.Some? ==> Allowed(e, r.value) && Render(e, r.value) == [Text(f), Slot] && Bind(r.value) == [p]
  {
    match f
    case WhereNomLike =>
      if e == Offres && p.PStr? && IsWrapped(p.s) then
        WrapUnwrap(p.s);
        Some(NameLike(Unwrap(p.s)))
      else None
    case WhereTable => if e == Logs && p.PStr? then Some(TableIs(p.s)) else None
    case AndClient => if (e == Abonnements || e == Paiements) && p.PInt? then Some(ClientIs(p.n)) else None
    case AndOffre => if (e == Abonnements || e == Paiements) && p.PInt? then Some(OffreIs(p.n)) else None
    case AndAbonnement => if e == Paiements && p.PInt? then Some(AbonnementIs(p.n)) else None
    case AndMonthDebut => if e == Abonnements && p.PStr? then Some(MonthIs(p.s)) else None
    case AndMonthPaiement => if e == Paiements && p.PStr? then Some(MonthIs(p.s)) else None
    case _ => None
  }

  /** The client search, which opens with four parts and binds its pattern twice. */
  function ParseClientSearch(parts: Sql, params: seq<Param>): (r: Option<Clause>)
    ensures r.Some? ==>
      Allowed(Clients, r.value) &&
      |Render(Clients, r.value)| <= |parts| && parts[..|Render(Clients, r.value)|] == Render(Clients, r.value) &&
      |Bind(r.value)| <= |params| && params[..|Bind(r.value)|] == Bind(r.value)
  {
    if |parts| >= 4 && parts[0] == Text(WhereNomLike) && parts[1] == Slot && parts[2] == Text(OrEmailLike) &&
       parts[3] == Slot && |params| >= 2 && params[0].PStr? && IsWrapped(params[0].s) && params[1] == params[0]
    then
      WrapUnwrap(params[0].s);
      assert parts[..4] == [parts[0], parts[1], parts[2], parts[3]];
      assert params[..2] == [params[0], params[1]];
      Some(NameOrEmailLike(Unwrap(params[0].s)))
    else None
  }

  /**
    The clause whose rendering starts `parts` and whose values start
    `params`, if there is one. The clauses open with distinct fragments, so
    at most one applies; a search term must come back as its `%term%` pattern.
  */
  function ParseClause(e: Entity, parts: Sql, params: seq<Param>): (r: Option<Clause>)
    ensures r.Some? ==>
      Allowed(e, r.value) &&
      |Render(e, r.value)| <= |parts| && parts[..|Render(e, r.value)|] == Render(e, r.value) &&
      |Bind(r.value)| <= |params| && params[..|Bind(r.value)|] == Bind(r.value)
  {
    if e == Clients then ParseClientSearch(parts, params)
    else if |parts| < 2 || parts[0].Slot? || parts[1] != Slot || |params| == 0 then None
    else
      var r := ParseSimple(e, parts[0].fragment, params[0]);
      assert parts[..2] == [parts[0], parts[1]];
      assert params[..1] == [params[0]];
      r
  }

  /** The client search is read back from its own rendering, whatever follows it. */
  lemma ParseSearchOne(t: string, rest: Sql, restParams: seq<Param>)
    ensures ParseClientSearch(Render(Clients, NameOrEmailLike(t)) + rest, Bind(NameOrEmailLike(t)) + restParams)
            == Some(NameOrEmailLike(t))
  {
    var parts, params := Render(Clients, NameOrEmailLike(t)) + rest, Bind(NameOrEmailLike(t)) + restParams;
    UnwrapWrap(t);
    assert parts[0] == Text(WhereNomLike) && parts[1] == Slot && parts[2] == Text(OrEmailLike) && parts[3] == Slot;
    assert params[0] == PStr(Wrap(t)) == params[1];
  }

  /** Each clause is read back from its own rendering, whatever follows it. */
  lemma ParseOne(e: Entity, c: Clause, rest: Sql, restParams: seq<Param>)
    requires Allowed(e, c)
    ensures ParseClause(e, Render(e, c) + rest, Bind(c) + restParams) == Some(c)
  {
    if c.NameOrEmailLike? {
      ParseSearchOne(c.term, rest, restParams);
    } else {
      var parts, params := Render(e, c) + rest, Bind(c) + restParams;
      if c.NameLike? {
        UnwrapWrap(c.term);
      }
      assert parts[0] == Render(e, c)[0] && parts[1] == Slot;
      assert params[0] == Bind(c)[0];
      assert ParseSimple(e, parts[0].fragment, params[0]) == Some(c);
    }
  }

  lemma RenderNonEmpty(e: Entity, c: Clause)
    ensures |Render(e, c)| >= 2
  {
  }

  lemma {:induction false} RenderAllCons(e: Entity, c: Clause, fs: seq<Clause>)
    ensures RenderAll(e, [c] + fs) == Render(e, c) + RenderAll(e, fs)
    ensures BindAll([c] + fs) == Bind(c) + BindAll(fs)
    ensures forall x :: x in [c] + fs ==> x == c || x in fs
  {
    assert ([c] + fs)[0] == c && ([c] + fs)[1..] == fs;
  }

  /**
    Reads clauses for as long as one applies. What it returns renders back
    to the input: the clauses' SQL and values, followed by the unread rest.
  */
  function ParseClauses(e: Entity, parts: Sql, params: seq<Param>): (r: (seq<Clause>, Sql, seq<Param>))
    ensures AllAllowed(e, r.0)
    ensures parts == RenderAll(e, r.0) + r.1 && params == BindAll(r.0) + r.2
    ensures ParseClause(e, r.1, r.2).None?
    decreases |parts|
  {
    match ParseClause(e, parts, params)
    case None => ([], parts, params)
    case Some(c) =>
      var n, k := |Render(e, c)|, |Bind(c)|;
      RenderNonEmpty(e, c);
      var tail := ParseClauses(e, parts[n..], params[k..]);
      Reassemble(parts, Render(e, c), RenderAll(e, tail.0), tail.1);
      Reassemble(params, Bind(c), BindAll(tail.0), tail.2);
      RenderAllCons(e, c, tail.0);
      ([c] + tail.0, tail.1, tail.2)
  }

  /**
    The reading of rendered clauses gives the same clauses back, provided
    what follows them does not itself read as a clause.
  */
  lemma {:induction false} ParseRendered(e: Entity, fs: seq<Clause>, tail: Sql, tailParams: seq<Param>)
    requires AllAllowed(e, fs)
    requires ParseClause(e, tail, tailParams).None?
    ensures ParseClauses(e, RenderAll(e, fs) + tail, BindAll(fs) + tailParams) == (fs, tail, tailParams)
  {
    if fs == [] {
      assert RenderAll(e, fs) + tail == tail;
      assert BindAll(fs) + tailParams == tailParams;
    } else {
      var c := fs[0];
      var restParts, restParams := RenderAll(e, fs[1..]) + tail, BindAll(fs[1..]) + tailParams;
      Regroup(Render(e, c), RenderAll(e, fs[1..]), tail);
      Regroup(Bind(c), BindAll(fs[1..]), tailParams);
      ParseOne(e, c, restParts, restParams);
      ParseRendered(e, fs[1..], tail, tailParams);
      assert [c] + fs[1..] == fs;
    }
  }

  /** The table and clauses of a count query, when it has the shape the builders give it. */
  function ParseCount(sql: Sql, params: seq<Param>): (r: Option<(Entity, seq<Clause>)>)
    ensures r.Some? ==>
      AllAllowed(r.value.0, r.value.1) &&
      sql == Compose(r.value.0, r.value.1).countQuery && params == Compose(r.value.0, r.value.1).params
  {
    if |sql| == 0 || sql[0].Slot? || !sql[0].fragment.CountFrom? then None
    else
      var e := sql[0].fragment.e;
      var read := ParseClauses(e, sql[1..], params);
      if read.1 == [] && read.2 == [] then
        assert sql == [sql[0]] + sql[1..];
        Some((e, read.0))
      else None
  }

  /**
    The table, clauses, LIMIT and OFFSET of a paginated data query, when it
    has the shape the builders and `paginate_query` give it.
  */
  function ParseSelect(sql: Sql, params: seq<Param>): (r: Option<(Entity, seq<Clause>, int, int)>)
    ensures r.Some? ==>
      AllAllowed(r.value.0, r.value.1) &&
      sql == Compose(r.value.0, r.value.1).query + LimitOffset &&
      params == Compose(r.value.0, r.value.1).params + [PInt(r.value.2), PInt(r.value.3)]
  {
    if |sql| == 0 || sql[0].Slot? || !sql[0].fragment.SelectFrom? then None
    else
      var e := sql[0].fragment.e;
      var read := ParseClauses(e, sql[1..], params);
      if read.1 == [Text(OrderByKey(e))] + LimitOffset && |read.2| == 2 && read.2[0].PInt? && read.2[1].PInt? then
        assert sql == [sql[0]] + sql[1..];
        Regroup4([sql[0]], RenderAll(e, read.0), [Text(OrderByKey(e))], LimitOffset);
        assert read.2 == [PInt(read.2[0].n), PInt(read.2[1].n)];
        Some((e, read.0, read.2[0].n, read.2[1].n))
      else None
  }

  /** The count query a builder composes reads back as its table and clauses. */
  lemma ComposedCountParses(e: Entity, fs: seq<Clause>)
    requires AllAllowed(e, fs)
    ensures ParseCount(Compose(e, fs).countQuery, Compose(e, fs).params) == Some((e, fs))
  {
    var q := Compose(e, fs);
    ParseRendered(e, fs, [], []);
    DropHead([Text(CountFrom(e))], RenderAll(e, fs), [], []);
    assert q.params + [] == q.params;
  }

  /**
    The paginated data query reads back as the same table and clauses, with
    the two values `paginate_query` appends as its LIMIT and OFFSET.
  */
  lemma ComposedSelectParses(e: Entity, fs: seq<Clause>, limit: int, offset: int)
    requires AllAllowed(e, fs)
    ensures ParseSelect(Compose(e, fs).query + LimitOffset, Compose(e, fs).params + [PInt(limit), PInt(offset)])
            == Some((e, fs, limit, offset))
  {
    var tail := [Text(OrderByKey(e))] + LimitOffset;
    assert ParseClause(e, tail, [PInt(limit), PInt(offset)]).None?;
    ParseRendered(e, fs, tail, [PInt(limit), PInt(offset)]);
    DropHead([Text(SelectFrom(e))], RenderAll(e, fs), [Text(OrderByKey(e))], LimitOffset);
  }
}
