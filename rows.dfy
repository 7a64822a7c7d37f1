/**
  What a list query returns before pagination: result rows, the column
  each table is ordered by, the descending sort, the candidate order the
  store scans rows in, and the case-insensitive substring test behind
  `ILIKE '%term%'`.
*/
module Rows {
  import opened Models
  import Dates

  /** One result row of a list query. */
  datatype Row =
    | ClientRow(client: Client)
    | OffreRow(offre: Offre)
    | AbonnementRow(abonnement: AbonnementDetail)
    | PaiementRow(paiement: PaiementDetail)
    | LogRow(log: Log)

  /** The value each list query orders by: `id`, `a.date_debut`, `p.date_paiement` or `date_action`. */
  function SortKey(r: Row): int {
    match r
    case ClientRow(c) => c.id
    case OffreRow(o) => o.id
    case AbonnementRow(d) => Dates.Key(d.abonnement.dateDebut)
    case PaiementRow(d) => Dates.Key(d.paiement.datePaiement)
    case LogRow(l) => l.dateAction
  }

  predicate SortedDesc(rs: seq<Row>) {
    forall i, j :: 0 <= i < j < |rs| ==> SortKey(rs[i]) >= SortKey(rs[j])
  }

  /** A row whose key bounds those of a sorted sequence can go in front of it. */
  lemma SortedCons(x: Row, s: seq<Row>)
    requires SortedDesc(s)
    requires forall y :: y in s ==> SortKey(y) <= SortKey(x)
    ensures SortedDesc([x] + s)
  {
    forall i, j | 0 <= i < j < |[x] + s|
      ensures SortKey(([x] + s)[i]) >= SortKey(([x] + s)[j])
    {
      assert ([x] + s)[j] == s[j - 1];
      if i > 0 {
        assert ([x] + s)[i] == s[i - 1];
      }
    }
  }

  lemma SortedTail(x: Row, s: seq<Row>)
    requires SortedDesc([x] + s)
    ensures SortedDesc(s)
    ensures forall y :: y in s ==> SortKey(y) <= SortKey(x)
  {
    forall i, j | 0 <= i < j < |s|
      ensures SortKey(s[i]) >= SortKey(s[j])
    {
      assert s[i] == ([x] + s)[i + 1] && s[j] == ([x] + s)[j + 1];
    }
    forall y | y in s ensures SortKey(y) <= SortKey(x) {
      var k :| 0 <= k < |s| && s[k] == y;
      assert ([x] + s)[0] == x && ([x] + s)[k + 1] == y;
    }
  }

  /** Places `r` before the first row of the sorted `rs` whose key is not larger. */
  function Insert(r: Row, rs: seq<Row>): (out: seq<Row>)
    requires SortedDesc(rs)
    ensures SortedDesc(out)
    ensures multiset(out) == multiset(rs) + multiset{r}
  {
    if rs == [] || SortKey(r) >= SortKey(rs[0]) then
      SortedCons(r, rs);
      assert forall y :: y in rs ==> SortKey(y) <= SortKey(rs[0]) by {
        if rs != [] {
          assert rs == [rs[0]] + rs[1..];
          SortedTail(rs[0], rs[1..]);
        }
      }
      [r] + rs
    else
      assert rs == [rs[0]] + rs[1..];
      SortedTail(rs[0], rs[1..]);
      var tail := Insert(r, rs[1..]);
      assert forall y :: y in tail ==> SortKey(y) <= SortKey(rs[0]) by {
        forall y | y in tail ensures SortKey(y) <= SortKey(rs[0]) {
          assert y in multiset(tail);
          if y != r {
            assert y in multiset(rs[1..]);
          }
        }
      }
      SortedCons(rs[0], tail);
      [rs[0]] + tail
  }

  /**
    `ORDER BY <key> DESC`: the rows ordered by descending key, none added
    and none lost. Rows with equal keys keep their input order.
  */
  function SortDesc(rs: seq<Row>): (out: seq<Row>)
    ensures SortedDesc(out)
    ensures multiset(out) == multiset(rs)
  {
    if rs == [] then []
    else
      assert rs == [rs[0]] + rs[1..];
      Insert(rs[0], SortDesc(rs[1..]))
  }

  lemma InsertFirst(r: Row, rs: seq<Row>)
    requires SortedDesc([r] + rs)
    ensures SortedDesc(rs) && Insert(r, rs) == [r] + rs
  {
    SortedTail(r, rs);
  }

  /** Rows already in descending order come back unchanged. */
  lemma {:induction false} SortSorted(rs: seq<Row>)
    requires SortedDesc(rs)
    ensures SortDesc(rs) == rs
  {
    if rs != [] {
      assert rs == [rs[0]] + rs[1..];
      InsertFirst(rs[0], rs[1..]);
      SortSorted(rs[1..]);
    }
  }

  /** Strictly decreasing: in particular no element occurs twice. */
  predicate Decreasing(s: seq<int>) {
    forall i, j :: 0 <= i < j < |s| ==> s[i] > s[j]
  }

  /**
    The ids in `keys` below `bound`, largest first: the order the store
    scans candidate rows in (ids are positive and below the next id to hand out).
  */
  function IdsDesc(keys: set<int>, bound: int): (r: seq<int>)
    ensures forall x :: x in r <==> x in keys && 1 <= x < bound
    ensures Decreasing(r)
    decreases bound
  {
    if bound <= 1 then []
    else
      var rest := IdsDesc(keys, bound - 1);
      if bound - 1 in keys then
        assert forall i :: 0 <= i < |rest| ==> rest[i] < bound - 1 by {
          forall i | 0 <= i < |rest| ensures rest[i] < bound - 1 {
            assert rest[i] in rest;
          }
        }
        [bound - 1] + rest
      else rest
  }

  /** ASCII lower case. */
  function Lower(c: char): char {
    if 'A' <= c <= 'Z' then (c as int + 32) as char else c
  }

  function LowerAll(s: string): (t: string)
    ensures |t| == |s| && forall i :: 0 <= i < |s| ==> t[i] == Lower(s[i])
  {
    if s == [] then [] else [Lower(s[0])] + LowerAll(s[1..])
  }

  /** `needle` occurs in `hay` starting at position `i`. */
  predicate OccursAt(hay: string, needle: string, i: int) {
    0 <= i && i + |needle| <= |hay| && hay[i..i + |needle|] == needle
  }

  /** Whether `needle` occurs in `hay`, scanning start positions left to right. */
  function Contains(hay: string, needle: string): (b: bool)
    ensures b <==> exists i :: OccursAt(hay, needle, i)
    decreases |hay|
  {
    if |needle| > |hay| then
      assert forall i :: !OccursAt(hay, needle, i);
      false
    else if hay[..|needle|] == needle then
      assert OccursAt(hay, needle, 0);
      true
    else
      var b := Contains(hay[1..], needle);
      assert forall i :: 1 <= i ==> (OccursAt(hay, needle, i) <==> OccursAt(hay[1..], needle, i - 1)) by {
        forall i | 1 <= i ensures OccursAt(hay, needle, i) <==> OccursAt(hay[1..], needle, i - 1) {
          if 0 <= i - 1 && i - 1 + |needle| <= |hay[1..]| {
            assert hay[1..][i - 1..i - 1 + |needle|] == hay[i..i + |needle|];
          }
        }
      }
      if b then
        var j :| OccursAt(hay[1..], needle, j);
        assert OccursAt(hay, needle, j + 1);
        true
      else
        assert !OccursAt(hay, needle, 0);
        false
  }

  /**
    `ILIKE '%term%'` with the term taken literally: `term` occurs in `s`
    when both are folded to ASCII lower case.
  */
  function ContainsCI(s: string, term: string): (b: bool)
    ensures b <==> exists i :: OccursAt(LowerAll(s), LowerAll(term), i)
  {
    var b := Contains(LowerAll(s), LowerAll(term));
    assert b ==> exists i :: OccursAt(LowerAll(s), LowerAll(term), i);
    b
  }

  /** The empty search term occurs in every string. */
  lemma EmptyTermMatches(s: string)
    ensures ContainsCI(s, "")
  {
    assert OccursAt(LowerAll(s), LowerAll(""), 0);
  }

  /** Search ignores ASCII case: `"DUP"` finds `"Dupont"`. */
  lemma SearchIgnoresCase()
    ensures ContainsCI("Dupont", "DUP")
  {
    assert LowerAll("Dupont")[0..3] == "dup" == LowerAll("DUP");
    assert OccursAt(LowerAll("Dupont"), LowerAll("DUP"), 0);
  }
}
