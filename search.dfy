/** The dashboard search (`filteredInvoices`): an invoice is listed when its
    lower-cased client name contains the lower-cased term, or when its id
    contains the term as typed. */
module Search {
  import opened InvoiceData
  import opened Sequences

  /** `toLowerCase` on one character; only the ASCII letters A-Z change. */
  function LowerChar(c: char): char {
    if 'A' <= c <= 'Z' then (c as int + 32) as char else c
  }

  /** `toLowerCase` on a string: each character lower-cased in place. */
  function Lower(s: string): (r: string)
    ensures |r| == |s|
    ensures forall i :: 0 <= i < |s| ==> r[i] == LowerChar(s[i])
  {
    if s == [] then [] else [LowerChar(s[0])] + Lower(s[1..])
  }

  predicate StartsWith(s: string, prefix: string) {
    |prefix| <= |s| && s[..|prefix|] == prefix
  }

  /** `s.includes(t)`: `t` starts at some position of `s`. */
  predicate Includes(s: string, t: string): (b: bool)
    ensures t == [] ==> b
    ensures b ==> |t| <= |s|
    decreases |s|
  {
    StartsWith(s, t) || (s != [] && Includes(s[1..], t))
  }

  /** `t` occurs in `s` starting at position `i`. */
  predicate OccursAt(s: string, t: string, i: int) {
    0 <= i <= |s| - |t| && s[i..i + |t|] == t
  }

  /** `Includes` holds exactly when `t` occurs in `s` at some position. */
  lemma {:induction false} IncludesAt(s: string, t: string)
    ensures Includes(s, t) <==> exists i :: OccursAt(s, t, i)
    decreases |s|
  {
    if StartsWith(s, t) {
      assert OccursAt(s, t, 0);
    }
    if s != [] {
      IncludesAt(s[1..], t);
      if Includes(s[1..], t) {
        var i :| OccursAt(s[1..], t, i);
        assert s[i + 1..i + 1 + |t|] == s[1..][i..i + |t|];
        assert OccursAt(s, t, i + 1);
      }
      if i :| OccursAt(s, t, i) {
        if i > 0 {
          assert OccursAt(s[1..], t, i - 1);
        }
      }
    } else {
      if i :| OccursAt(s, t, i) {
        assert StartsWith(s, t);
      }
    }
  }

  /** The test of one invoice; the empty term matches every invoice. */
  predicate Matches(inv: Invoice, term: string): (b: bool)
    ensures term == "" ==> b
    ensures b ==> |term| <= |inv.clientName| || |term| <= |inv.id|
  {
    Includes(Lower(inv.clientName), Lower(term)) || Includes(inv.id, term)
  }

  /** The search condition for a fixed term, as the value `Filter` takes. */
  function Matcher(term: string): Invoice -> bool {
    (inv: Invoice) => Matches(inv, term)
  }

  /** `filteredInvoices`: the invoices matching the term, in list order;
      each matching invoice is listed as often as it is stored. */
  function FilteredInvoices(invs: seq<Invoice>, term: string): (r: seq<Invoice>)
    ensures IsSubsequence(r, invs)
    ensures forall inv :: inv in r <==> inv in invs && Matches(inv, term)
    ensures forall inv :: multiset(r)[inv] == if Matches(inv, term) then multiset(invs)[inv] else 0
  {
    var r := Filter(invs, Matcher(term));
    FilterIsSubsequence(invs, Matcher(term));
    forall inv ensures multiset(r)[inv] == if Matches(inv, term) then multiset(invs)[inv] else 0 {
      FilterCount(invs, Matcher(term), inv);
    }
    r
  }

  /** An empty search term lists every invoice. */
  lemma EmptyTermListsAll(invs: seq<Invoice>)
    ensures FilteredInvoices(invs, "") == invs
  {
    forall i | 0 <= i < |invs| ensures Matcher("")(invs[i]) {
      assert Matches(invs[i], "");
    }
    FilterKeepsAll(invs, Matcher(""));
  }
}
