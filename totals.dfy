/** The computation layer: line amounts, invoice totals (`calculateTotal`)
    and the dashboard statistics (`stats`). */
module Totals {
  import opened InvoiceData
  import opened Sequences

  /** What one line bills: quantity times rate. */
  function Amount(item: LineItem): real {
    item.quantity * item.rate
  }

  /** Every line has a positive quantity and a non-negative rate. */
  predicate PositiveLines(items: seq<LineItem>) {
    forall i :: 0 <= i < |items| ==> items[i].quantity > 0.0 && items[i].rate >= 0.0
  }

  /** `calculateTotal`: a fold from the left, starting at 0, adding the
      amount of each line in turn. Lines with a positive quantity and a
      non-negative rate never give a negative total. */
  function Total(items: seq<LineItem>): (r: real)
    ensures PositiveLines(items) ==> r >= 0.0
  {
    if items == [] then 0.0
    else
      var last := items[|items| - 1];
      assert PositiveLines(items) ==> PositiveLines(items[..|items| - 1]) && Amount(last) >= 0.0;
      Total(items[..|items| - 1]) + Amount(last)
  }

  /** The total of a concatenation is the sum of the parts' totals. */
  lemma {:induction false} TotalAppend(a: seq<LineItem>, b: seq<LineItem>)
    ensures Total(a + b) == Total(a) + Total(b)
    decreases |b|
  {
    if b == [] {
      assert a + b == a;
    } else {
      var last := |b| - 1;
      assert (a + b)[..|a + b| - 1] == a + b[..last];
      assert (a + b)[|a + b| - 1] == b[last];
      TotalAppend(a, b[..last]);
    }
  }

  /** Adding one line at the end adds its amount. */
  lemma TotalSnoc(s: seq<LineItem>, x: LineItem)
    ensures Total(s + [x]) == Total(s) + Amount(x)
  {
    assert (s + [x])[..|s|] == s;
  }

  /** A line in the middle contributes exactly its amount. */
  lemma TotalSplit(before: seq<LineItem>, x: LineItem, after: seq<LineItem>)
    ensures Total(before + [x] + after) == Total(before + after) + Amount(x)
  {
    TotalSnoc(before, x);
    TotalAppend(before + [x], after);
    TotalAppend(before, after);
  }

  /** Taking one line out lowers the total by exactly its amount. */
  lemma TotalWithout(s: seq<LineItem>, i: nat)
    requires i < |s|
    ensures Total(s) == Total(s[..i] + s[i + 1..]) + Amount(s[i])
  {
    SplitAt(s, i);
    TotalSplit(s[..i], s[i], s[i + 1..]);
  }

  /** Reordering the lines does not change the total. */
  lemma {:induction false} TotalPermutation(s: seq<LineItem>, t: seq<LineItem>)
    requires multiset(s) == multiset(t)
    ensures Total(s) == Total(t)
    decreases |s|
  {
    if s == [] {
      assert |t| == |multiset(t)| == 0;
    } else {
      var last := |s| - 1;
      var x := s[last];
      assert x in multiset(t) by {
        assert x in s;
      }
      var i :| 0 <= i < |t| && t[i] == x;
      var rest := t[..i] + t[i + 1..];
      MultisetWithoutLast(s);
      MultisetWithoutAt(t, i);
      TotalPermutation(s[..last], rest);
      TotalWithout(t, i);
    }
  }

  /** The figures shown on the dashboard cards. */
  datatype Stats = Stats(total: nat, paid: nat, pending: nat, revenue: real)

  predicate IsPaid(inv: Invoice) { inv.status == Paid }
  predicate IsPending(inv: Invoice) { inv.status == Pending }
  predicate IsOverdue(inv: Invoice) { inv.status == Overdue }

  /** The fold that sums invoice totals, again from the left from 0;
      non-negative totals give a non-negative sum. */
  function SumTotals(invs: seq<Invoice>): (r: real)
    ensures (forall k :: 0 <= k < |invs| ==> Total(invs[k].items) >= 0.0) ==> r >= 0.0
  {
    if invs == [] then 0.0
    else SumTotals(invs[..|invs| - 1]) + Total(invs[|invs| - 1].items)
  }

  /** Reference count: the invoices with status `st`, counted from the
      front of the list. */
  function CountStatus(invs: seq<Invoice>, st: Status): nat {
    if invs == [] then 0
    else (if invs[0].status == st then 1 else 0) + CountStatus(invs[1..], st)
  }

  /** Filtering on "status is `st`" keeps exactly `CountStatus` invoices. */
  lemma {:induction false} FilterCountsStatus(invs: seq<Invoice>, keep: Invoice -> bool, st: Status)
    requires forall inv :: keep(inv) <==> inv.status == st
    ensures |Filter(invs, keep)| == CountStatus(invs, st)
  {
    if invs != [] {
      FilterCountsStatus(invs[1..], keep, st);
    }
  }

  /** Every invoice has exactly one status, so the three status counts
      partition the list. */
  lemma {:induction false} StatusPartition(invs: seq<Invoice>)
    ensures |Filter(invs, IsPaid)| + |Filter(invs, IsPending)| + |Filter(invs, IsOverdue)| == |invs|
  {
    if invs != [] {
      StatusPartition(invs[1..]);
    }
  }

  /** `stats`: the number of invoices, the paid and pending counts, and the
      revenue summed over the paid invoices only. */
  function ComputeStats(invs: seq<Invoice>): (st: Stats)
    ensures st.total == |invs|
    ensures st.paid + st.pending <= st.total
    ensures st.paid == CountStatus(invs, Paid)
    ensures st.pending == CountStatus(invs, Pending)
    ensures st.total - st.paid - st.pending == CountStatus(invs, Overdue)
  {
    StatusPartition(invs);
    FilterCountsStatus(invs, IsPaid, Paid);
    FilterCountsStatus(invs, IsPending, Pending);
    FilterCountsStatus(invs, IsOverdue, Overdue);
    Stats(|invs|, |Filter(invs, IsPaid)|, |Filter(invs, IsPending)|, SumTotals(Filter(invs, IsPaid)))
  }

  /** Reference definition of revenue: every invoice contributes its total
      when it is paid and nothing otherwise. */
  function PaidContribution(invs: seq<Invoice>): real {
    if invs == [] then 0.0
    else (if IsPaid(invs[0]) then Total(invs[0].items) else 0.0) + PaidContribution(invs[1..])
  }

  lemma {:induction false} SumTotalsAppend(a: seq<Invoice>, b: seq<Invoice>)
    ensures SumTotals(a + b) == SumTotals(a) + SumTotals(b)
    decreases |b|
  {
    if b == [] {
      assert a + b == a;
    } else {
      var last := |b| - 1;
      assert (a + b)[..|a + b| - 1] == a + b[..last];
      assert (a + b)[|a + b| - 1] == b[last];
      SumTotalsAppend(a, b[..last]);
    }
  }

  /** Revenue counts the paid invoices' totals and nothing else: pending
      and overdue invoices contribute nothing. */
  lemma {:induction false} RevenueIsPaidOnly(invs: seq<Invoice>)
    ensures ComputeStats(invs).revenue == PaidContribution(invs)
  {
    if invs != [] {
      RevenueIsPaidOnly(invs[1..]);
      var head := if IsPaid(invs[0]) then [invs[0]] else [];
      assert Filter(invs, IsPaid) == head + Filter(invs[1..], IsPaid);
      SumTotalsAppend(head, Filter(invs[1..], IsPaid));
      assert SumTotals(head) == if IsPaid(invs[0]) then Total(invs[0].items) else 0.0 by {
        if IsPaid(invs[0]) {
          assert head[..0] == [];
        }
      }
    }
  }

  /** When every stored invoice has non-negative line totals, revenue is
      non-negative. */
  lemma {:induction false} RevenueNonNegative(invs: seq<Invoice>)
    requires forall k :: 0 <= k < |invs| ==> Total(invs[k].items) >= 0.0
    ensures ComputeStats(invs).revenue >= 0.0
  {
    RevenueIsPaidOnly(invs);
    PaidContributionNonNegative(invs);
  }

  lemma {:induction false} PaidContributionNonNegative(invs: seq<Invoice>)
    requires forall k :: 0 <= k < |invs| ==> Total(invs[k].items) >= 0.0
    ensures PaidContribution(invs) >= 0.0
  {
    if invs != [] {
      PaidContributionNonNegative(invs[1..]);
    }
  }
}
