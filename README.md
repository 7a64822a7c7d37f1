# Subscription management: the data-access layer, modelled in Dafny

The API manages clients, internet offers (`offres`), subscriptions
(`abonnements`), payments (`paiements`) and an audit log (`logs`). Its
data-access layer does three things, and this project models and proves
each of them.

- **Paginated, filtered lists.** Each of `get_clients`, `get_offres`,
  `get_abonnements`, `get_paiements` and `get_logs` grows a data query, a
  count query and a shared parameter list clause by clause. `paginate_query`
  then counts the rows, appends `LIMIT %s OFFSET %s` with `[limit, offset]`
  and computes the `pagination` metadata.
- **Single-row reads and writes** over five tables. The writes are create,
  full-replace update, partial update, guarded delete and unguarded delete.
  Subscription and payment rows come back joined with their client and
  offer names.
- **Request checks** from the pydantic models: the email pattern of
  `validate_email`, the `montant >= 0` constraint, and the all-optional
  update bodies.

Modules, one file each:

- `results.dfy`, module `Results`: `Option` (Python's `None` or a value) and `Result` (a value or a raised error).
- `pagination.dfy`, module `Pagination`: the offset and page-count arithmetic, and the `LIMIT`/`OFFSET` window.
- `dates.dfy`, module `Dates`: calendar dates, their sort key, and the `TO_CHAR(d, 'YYYY-MM')` text with its parser.
- `email.dfy`, module `Email`: the email regex as a predicate, and a matcher proved to decide it.
- `models.dfy`, module `Models`: the rows and the request-body checks.
- `rows.dfy`, module `Rows`: result rows, sort keys, the descending sort, and the case-insensitive substring test behind `ILIKE '%term%'`.
- `sql.dfy`, module `Sql`: queries as sequences of SQL fragments and `%s` placeholders, the five builders as imperative methods, and the reading of a query back into its clauses.
- `database.dfy`, module `Database`: class `Store`, which has five maps keyed by id and an id counter. Its methods are the CRUD operations, `paginate_query` and the five list operations.

The store answers SQL by reading it back into the clauses it was built
from. The count query and the data query each read back as the same table
and clause list (`Sql.ComposedCountParses`, `Sql.ComposedSelectParses`).
This is how the model states that both queries share one predicate and one
parameter list. A list operation returns the rows that survive the table's
inner joins and every clause, sorted by descending key, with the
`[offset, offset + limit)` slice taken from them (`Database.Store.Listing`).

## Model

| member | source | states |
|---|---|---|
| Pagination.Pages | py-api/database.py:68-74 | the page count is at least 1, is 1 for an empty result, and otherwise satisfies `(pages-1)*limit < total <= pages*limit` |
| Pagination.CeilDiv | py-api/database.py:72 | `math.ceil(total / limit)` on the exact quotient: for `total > 0`, the least `q >= 1` with `q * limit >= total` |
| Pagination.PagesIsCeiling | py-api/database.py:72 | the ceiling is the only page count with those bounds |
| Pagination.Window | py-api/database.py:60-65 | `LIMIT limit OFFSET offset` keeps `min(limit, total - offset)` rows (none past the end), and row `k` of the page is row `offset + k` |
| Pagination.PageNonEmptyIff | py-api/database.py:53-74 | with `offset = (page-1)*limit`, a page holds rows exactly when there are rows and `page <= pages` |
| Pagination.RowOnPage | py-api/database.py:53-65 | every row appears on page `i / limit + 1`, at position `i % limit` |
| Pagination.TwelveRowsSecondPage | py-api/database.py:53-74 | 12 rows at 10 per page: page 2 holds 2 rows and the metadata is `{total 12, page 2, limit 10, pages 2}` |
| Pagination.PagesExamples | py-api/database.py:72-73 | 0 rows give 1 page; 25 and 30 rows give 3 pages |
| Dates.KeyIsChronological | py-api/database.py:215 | the key that date columns sort by orders dates by year, then month, then day, and is injective |
| Dates.YearMonth | py-api/database.py:211 | `TO_CHAR(d, 'YYYY-MM')` is seven characters: digits around a dash at position 4 |
| Dates.ParseFormatted | py-api/database.py:211 | reading the `YYYY-MM` text of a date gives back its year and month |
| Dates.FormatParsed | py-api/database.py:352 | text that reads as the year and month of `d` is exactly the `YYYY-MM` text of `d` |
| Dates.MonthFilterMeaning | py-api/database.py:210-213 | `TO_CHAR(d, 'YYYY-MM') = mois` holds iff `mois` is well-formed `YYYY-MM` naming the year and month of `d`, whatever the day |
| Dates.March2024 | py-api/database.py:351-354 | the filter `"2024-03"` keeps exactly the dates of March 2024 |
| Email.FirstIndex | py-api/models.py:9 | the position of the first `@`: found with no earlier `@`, or absent from the whole string |
| Email.LastIndex | py-api/models.py:9 | the position of the last `.`: found with no later dot, or absent from the whole string |
| Email.SplitIsFirstAtLastDot | py-api/models.py:9 | any split that matches the pattern has its `@` at the first `@` and its dot at the last dot |
| Email.WholeMatchIffFirstLastSplit | py-api/models.py:9 | the pattern matches iff the split at the first `@` and the last dot matches |
| Email.MatchesWhole | py-api/models.py:9 | the matcher returns true iff the pattern matches the whole string |
| Email.Matches | py-api/models.py:9-10 | the matcher agrees with `re.match` of the anchored pattern, where `$` also allows one final newline |
| Email.ValidateEmail | py-api/models.py:8-12 | returns the email unchanged iff it matches the pattern, and the error otherwise |
| Email.Examples | py-api/models.py:9-11 | `"a@b.com"` is accepted; `"not-an-email"`, `"a@b.c"` and `"a@.com"` are rejected |
| Email.TrailingNewlineAccepted | py-api/models.py:9-10 | `"a@b.com\n"` is accepted unchanged |
| Models.ParseClientBody | py-api/models.py:15-27 | a client create or update body is accepted iff its email matches the pattern, and the body is kept unchanged |
| Models.ParsePaiementCreate | py-api/models.py:87-93 | a payment create body is accepted iff `montant >= 0` |
| Models.ParsePaiementUpdate | py-api/models.py:95-97 | a payment update body is accepted iff `montant` is omitted or `>= 0` |
| Rows.Insert | py-api/database.py:215 | inserting into a descending list keeps it descending and adds exactly that row |
| Rows.SortDesc | py-api/database.py:356 | `ORDER BY <key> DESC` gives a descending permutation of its input |
| Rows.SortSorted | py-api/database.py:90 | rows already in descending order come back unchanged |
| Rows.IdsDesc | py-api/database.py:90 | the candidate ids are exactly the table's ids between 1 and the next id, strictly decreasing |
| Rows.LowerAll | py-api/database.py:86 | folding keeps the length and lowers each character |
| Rows.Contains | py-api/database.py:86 | the substring scan returns true iff the term occurs at some position |
| Rows.ContainsCI | py-api/database.py:86-88 | `ILIKE '%term%'` holds iff the lower-cased term occurs in the lower-cased text |
| Rows.SearchIgnoresCase | py-api/database.py:86 | the search `"DUP"` finds `"Dupont"` |
| Sql.SlotsAppend | py-api/database.py:61-62 | placeholders of concatenated SQL add up |
| Sql.RenderedSlotsMatchParams | py-api/database.py:85-88 | the WHERE parts of any clause list have exactly as many `%s` as they bind parameters |
| Sql.ComposedSlotsMatch | py-api/database.py:55-64 | the count query has one placeholder per shared parameter; the paginated data query has one per shared parameter plus two for `[limit, offset]` |
| Sql.ClientFilters | py-api/database.py:85 | the search clause is added iff `search` is truthy |
| Sql.OffreFilters | py-api/database.py:131 | the search clause is added iff `search` is truthy |
| Sql.LogFilters | py-api/database.py:448 | the table clause is added iff `table` is truthy |
| Sql.AbonnementFilters | py-api/database.py:200-213 | only subscription filters, one per truthy argument: ids other than 0, non-empty `mois` |
| Sql.PaiementFilters | py-api/database.py:336-354 | only payment filters, one per truthy argument: ids other than 0, non-empty `mois` |
| Sql.AbonnementFiltersCarryArguments | py-api/database.py:200-213 | a client, offer or month clause is present iff that argument is truthy, and it carries that argument's value |
| Sql.AbonnementFiltersInArgumentOrder | py-api/database.py:200-213 | the clauses come in the order `client_id`, `offre_id`, `mois` |
| Sql.PaiementFiltersCarryArguments | py-api/database.py:336-354 | a subscription, client, offer or month clause is present iff that argument is truthy, and it carries that argument's value |
| Sql.PaiementFiltersInArgumentOrder | py-api/database.py:336-354 | the clauses come in the order `abonnement_id`, `client_id`, `offre_id`, `mois` |
| Sql.PaginatedText | py-api/database.py:60 | the paginated query's text is the data query's text followed by ` LIMIT %s OFFSET %s` |
| Sql.ClientSearchText | py-api/database.py:86-87 | the search clause renders as ` WHERE nom ILIKE %s OR email ILIKE %s` |
| Sql.ClientQueriesText | py-api/database.py:81-90 | the count query is `SELECT COUNT(*) as count FROM clients` and the data query `SELECT * FROM clients ... ORDER BY id DESC`, both carrying the search condition iff `search` is truthy |
| Sql.RenderAllAppend | py-api/database.py:200-203 | appending a clause appends its SQL and its parameters |
| Sql.GrowStart | py-api/database.py:184-198 | the builders start from the bare data and count queries and no parameters |
| Sql.GrowStep | py-api/database.py:205-208 | one filter step appends the same SQL to both queries and its values to the shared parameters |
| Sql.GrowFinish | py-api/database.py:215 | adding `ORDER BY` to the data query alone completes the composed pair |
| Sql.ClientsQueries | py-api/database.py:79-90 | `get_clients` builds the composed queries of its clauses, the pattern `%search%` bound twice |
| Sql.OffresQueries | py-api/database.py:125-136 | `get_offres` builds the composed queries of its clauses |
| Sql.LogsQueries | py-api/database.py:442-453 | `get_logs` builds the composed queries of its clauses |
| Sql.AbonnementsQueries | py-api/database.py:176-215 | `get_abonnements` builds the composed queries of its clauses, in argument order |
| Sql.PaiementsQueries | py-api/database.py:309-356 | `get_paiements` builds the composed queries of its clauses, in argument order |
| Sql.WrapUnwrap | py-api/database.py:88 | a `%...%` pattern is the wrapping of its inside |
| Sql.UnwrapWrap | py-api/database.py:134 | unwrapping `%term%` gives back `term` |
| Sql.ParseSimple | py-api/database.py:336-339 | a clause read from one fragment and one value renders back to that fragment and value |
| Sql.ParseClientSearch | py-api/database.py:86-88 | a client search is read only from its two-placeholder SQL with the same `%term%` bound twice |
| Sql.ParseClause | py-api/database.py:57 | a clause the store reads is allowed for the table and renders back to the prefix it was read from |
| Sql.ParseSearchOne | py-api/database.py:86-88 | the client search is read back from its own SQL, whatever follows |
| Sql.ParseOne | py-api/database.py:200-213 | every allowed clause is read back from its own SQL, whatever follows |
| Sql.RenderNonEmpty | py-api/database.py:201 | every clause renders at least a fragment and a placeholder |
| Sql.RenderAllCons | py-api/database.py:85-88 | rendering a clause list renders its head, then its tail |
| Sql.ParseClauses | py-api/database.py:57 | the clauses read, rendered back, followed by the unread rest, give the input |
| Sql.ParseRendered | py-api/database.py:200-213 | the rendered clauses read back as the same clauses |
| Sql.ParseCount | py-api/database.py:56-57 | a count query the store reads is the composed count query of its table and clauses |
| Sql.ParseSelect | py-api/database.py:60-64 | a paginated query the store reads is a composed data query followed by `LIMIT %s OFFSET %s` and two values |
| Sql.ComposedCountParses | py-api/database.py:55-58 | the count query reads back as its table and clause list |
| Sql.ComposedSelectParses | py-api/database.py:60-64 | the paginated data query reads back as the same table and clause list, with `limit` and `offset` |
| Database.MergeAbonnement | py-api/database.py:268-271 | the id and client are kept, and each field takes the supplied value or keeps the stored one |
| Database.MergePaiement | py-api/database.py:407-409 | the id and subscription are kept, and each field takes the supplied value or keeps the stored one |
| Database.MergeAbonnementNoChange | py-api/models.py:63-66 | the default update body changes nothing |
| Database.MergeAbonnementIdempotent | py-api/database.py:269-271 | repeating an update changes nothing more |
| Database.EndDateNeverCleared | py-api/database.py:271 | a set `date_fin` can never be cleared by an update |
| Database.MergePaiementNoChange | py-api/models.py:95-97 | the default update body changes nothing |
| Database.MergePaiementIdempotent | py-api/database.py:408-409 | repeating an update changes nothing more |
| Database.Store.GetClient | py-api/database.py:94-98 | the row under the id, or `None` iff there is none |
| Database.Store.GetOffre | py-api/database.py:140-144 | the row under the id, or `None` iff there is none |
| Database.Store.GetAbonnement | py-api/database.py:219-229 | found iff the subscription, its client and its offer all exist; carries their names |
| Database.Store.GetPaiement | py-api/database.py:360-371 | found iff the payment exists and its subscription is found by the joined read; carries the client and offer names |
| Database.Store.HitIds | py-api/database.py:57 | keeps exactly the candidate ids whose rows pass the joins and every clause |
| Database.Store.HitIdsDecreasing | py-api/database.py:64 | filtering keeps the candidates strictly decreasing, so no row is listed twice |
| Database.Store.RowsOf | py-api/database.py:65 | one row per id, in order |
| Database.Store.ComposedQueriesAgree | py-api/database.py:55-65 | the count query of a builder counts exactly the rows its data query pages through, and the data query returns the `[offset, offset+limit)` slice of them |
| Database.Store.PaginateQuery | py-api/database.py:39-76 | the result is the data query's rows for `[limit, (page-1)*limit]` with the count query's total and the page count; a failed query fails the call |
| Database.Store.GetClients | py-api/database.py:79-92 | the page of clients matching the search, newest id first, with its metadata |
| Database.Store.GetOffres | py-api/database.py:125-138 | the page of offers matching the search, newest id first, with its metadata |
| Database.Store.GetAbonnements | py-api/database.py:176-217 | the page of joined subscriptions matching the filters, latest start date first, with its metadata |
| Database.Store.GetPaiements | py-api/database.py:309-358 | the page of joined payments matching the filters, latest payment date first, with its metadata |
| Database.Store.GetLogs | py-api/database.py:442-455 | the page of log entries of the table, latest action first, with its metadata |
| Database.Store.RowAtInKeys | py-api/database.py:81 | a listed row belongs to the listed table |
| Database.Store.MatchingIdsAreHits | py-api/database.py:57 | the store scans every row: the matching ids are exactly the hits, each once, largest first |
| Database.Store.MatchingCountsHits | py-api/database.py:57-58 | `total` is the number of rows that pass the joins and the filters |
| Database.Store.MatchingHoldsHitRows | py-api/database.py:64-65 | a row is listed iff it is the row of an id that passes the joins and the filters |
| Database.Store.DistinctCard | py-api/database.py:58 | a list without repeats has as many elements as distinct values |
| Database.Store.ListingInKeyOrder | py-api/database.py:90 | every page is in descending order of the table's sort key |
| Database.Store.ClientFiltersMeaning | py-api/database.py:85-88 | a client is listed iff no search is given or its `nom` or `email` contains the term, ignoring case |
| Database.Store.OffreFiltersMeaning | py-api/database.py:131-134 | an offer is listed iff no search is given or its `nom` contains the term, ignoring case |
| Database.Store.IdOrderNeedsNoSort | py-api/database.py:90 | for clients (and offers, line 136) `ORDER BY id DESC` leaves the scanned matching rows in the order they were found |
| Database.Store.EmptySearchFiltersNothing | py-api/database.py:85-88 | an empty search term would keep every client, and every offer (line 131), so skipping it when `search == ""` changes no list |
| Database.Store.LogFiltersMeaning | py-api/database.py:448-451 | an entry is listed iff no table is given or it concerns that table |
| Database.Store.AbonnementFiltersMeaning | py-api/database.py:184-213 | a subscription is listed iff the joins find its client and offer, and it has each given client, offer and start month |
| Database.Store.PaiementFiltersMeaning | py-api/database.py:318-354 | a payment is listed iff the joins find its subscription, client and offer, and it has each given subscription, client, offer and payment month |
| Database.Store.CreateClient | py-api/database.py:100-107 | a new row under a fresh id; an email already taken fails with nothing written |
| Database.Store.UpdateClient | py-api/database.py:109-116 | a missing id gives `None`; an email another client has fails; otherwise both columns are replaced; nothing else changes |
| Database.Store.DeleteClient | py-api/database.py:118-122 | returns true iff the row existed; only that row is removed |
| Database.Store.CreateOffre | py-api/database.py:146-153 | a new row under a fresh id; a name already taken fails with nothing written |
| Database.Store.UpdateOffre | py-api/database.py:155-162 | a missing id gives `None`; a name another offer has fails; otherwise every column is replaced, so an omitted rate or price becomes `None` |
| Database.Store.DeleteOffre | py-api/database.py:164-173 | refused while a subscription refers to the offer; otherwise true iff the row existed, and only that row is removed |
| Database.Store.CreateAbonnement | py-api/database.py:231-251 | succeeds iff the client and offer exist, inserting under a fresh id and returning the row with their names; otherwise nothing is written |
| Database.Store.UpdateAbonnement | py-api/database.py:253-293 | a missing id gives `None`; otherwise the merged row is written and returned with its client and offer names, or nothing is written when either is missing |
| Database.Store.DeleteAbonnement | py-api/database.py:295-306 | refused while a payment refers to the subscription; otherwise true iff the row existed, and only that row is removed |
| Database.Store.CreatePaiement | py-api/database.py:373-395 | succeeds iff the joined read finds the subscription, inserting under a fresh id and returning the row with the names; otherwise nothing is written |
| Database.Store.UpdatePaiement | py-api/database.py:397-433 | a missing id gives `None`; otherwise the merged row is written and returned with the names, or nothing is written when the joined read fails |
| Database.Store.DeletePaiement | py-api/database.py:435-439 | returns true iff the row existed; only that row is removed |
| Database.DeleteGuardScenario | py-api/database.py:164-173 | an offer with a subscription is not deleted, its client is, and the subscription then drops out of the joined read |

Every write method also requires and ensures `Store.Valid`. That invariant
says:

- each row sits under its own id, and every id lies below the next id to hand out;
- emails are unique, and so are offer names;
- every subscription's offer exists;
- every payment's subscription exists.

It does not require a subscription's client to exist, because
`delete_client` has no guard.

## Left out

- Connection handling, cursors, commit and rollback plumbing (py-api/database.py:8-37) are not modelled. Each operation is one atomic step. A failed transaction leaves the store unchanged.
- Concurrency is not modelled, including the read-then-write split of the partial updates and the check-then-delete of the guarded deletes. Every operation is sequential.
- py-api/main.py is not part of this model. Its HTTP routing, status codes and the bounds `page >= 1` and `1 <= limit <= 100` are out of scope.
- Database.Store.PaginateQuery: requires `page >= 1` and `limit >= 1`. Every call site meets this. The list routes at main.py:47-48, 121-122, 197-198, 301-302 and 386-387 declare `ge=1` for both. The statistics routes at main.py:408 and 422 pass `limit=1000` (outside the routes' `le=100`) and leave `page` at its default 1. The source divides by zero when `limit = 0` and `total > 0`.
- Database.Store.CreateAbonnement: a missing client or offer is modelled as an error result that writes nothing, not as a precondition. In the source the `details` lookup (py-api/database.py:240-248) finds no row, and the exception rolls the transaction back (py-api/database.py:33-35). main.py:230-237 checks existence first.
- Database.Store.DeleteClient: the model assumes no foreign-key constraint on `abonnements.client_id`; the schema is not part of this model. Under such a constraint, deleting a client that a subscription refers to would fail instead. Database.DeleteGuardScenario relies on the same assumption when it deletes the client of a subscription.
- Database.Store.CreatePaiement: a missing subscription, client or offer is modelled the same way (main.py:334-336 checks first).
- `ILIKE` is modelled as a literal substring match with ASCII case folding. A `%` or `_` inside the search term is not treated as a wildcard, and collation-dependent folding of non-ASCII letters is not modelled.
- `montant` is a Python `Decimal`, stored as `numeric`. It is modelled as an integer number of cents; float conversion is not modelled.
- `math.ceil(total / limit)` works on a float. It is modelled as exact ceiling division, which agrees with the float result for counts far below 2^53.
- Dates are year, month and day with years 1 to 9999, as Python `date` allows. `date_action` is modelled as a number that orders timestamps.
- The SQL text is modelled as a sequence of named fragments. The line breaks and indentation inside the source's triple-quoted queries are normalised to single spaces.
- The store reads back only queries of the shapes the builders produce. Any other SQL, and a negative `LIMIT` or `OFFSET`, is an error result.
- SQL leaves the order of rows with equal sort keys open. The model breaks ties by descending id.
- The database's per-table id sequences are modelled as a single counter shared by all tables. A failed insert does not consume an id.
- The log table's writers (database-side triggers) and its `donnees` payload are not modelled. `get_logs` reads a log map that the constructor supplies.
- Pydantic parsing of dates and decimals, and the `from_attributes` configuration, are not modelled.
