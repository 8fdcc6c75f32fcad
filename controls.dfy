/** The pagination controls (src/components/ui/PaginationControls.jsx): when
    the Prev and Next buttons are disabled, and the "Página X de Y" label;
    and how they agree with the hook's `prevPage`/`nextPage`. */
module PaginationControls {
  import opened Wrappers
  import Decimal
  import Pagination

  /** `disabled={page === 0}` on the Prev button: on a non-negative page,
      Prev is disabled exactly when there is no earlier page. */
  predicate PrevDisabled(page: int)
    ensures page >= 0 ==> (PrevDisabled(page) <==> page - 1 < 0)
  {
    page == 0
  }

  /** `disabled={totalPages !== 0 && page >= totalPages - 1}` on Next: with a
      known, non-zero count it is disabled exactly when no page follows this
      one; with a count of 0 it is never disabled. */
  predicate NextDisabled(page: int, totalPages: int)
    ensures totalPages > 0 ==> (NextDisabled(page, totalPages) <==> page + 1 >= totalPages)
    ensures totalPages == 0 ==> !NextDisabled(page, totalPages)
  {
    totalPages != 0 && page >= totalPages - 1
  }

  /** `totalPages || 1`: the page count as shown; 0 is shown as 1. */
  function ShownTotal(totalPages: nat): (n: nat)
    ensures n >= 1
    ensures totalPages != 0 ==> n == totalPages
    ensures totalPages == 0 ==> n == 1
  {
    if totalPages != 0 then totalPages else 1
  }

  /** The text "Página {page + 1} de {totalPages || 1}": after the word
      "Página " comes the one-based page number, then " de ", and the label
      ends with the shown page count, with nothing else in between; both
      numbers read back as written. */
  function Label(page: nat, totalPages: nat): (shown: string)
    ensures |shown| == 11 + |Decimal.Show(page + 1)| + |Decimal.Show(ShownTotal(totalPages))|
    ensures |shown| >= 7 && shown[..7] == "Página "
    ensures var a := Decimal.Show(page + 1);
            |shown| >= 11 + |a| && shown[7 + |a|..11 + |a|] == " de "
            && Decimal.AllDigits(shown[7..7 + |a|]) && Decimal.Parse(shown[7..7 + |a|]) == page + 1
    ensures var b := Decimal.Show(ShownTotal(totalPages));
            |shown| >= |b| && Decimal.AllDigits(shown[|shown| - |b|..])
            && Decimal.Parse(shown[|shown| - |b|..]) == ShownTotal(totalPages)
  {
    var a := Decimal.Show(page + 1);
    var b := Decimal.Show(ShownTotal(totalPages));
    Decimal.ParseShow(page + 1);
    Decimal.ParseShow(ShownTotal(totalPages));
    var shown := "Página " + a + " de " + b;
    assert shown[7..7 + |a|] == a;
    assert shown[|shown| - |b|..] == b;
    shown
  }

  /** Prev is enabled exactly when `prevPage` would move the page. */
  lemma PrevAgreesWithPrevPage(page: int)
    requires page >= 0
    ensures !PrevDisabled(page) <==> Pagination.PrevOf(page) != page
  {
  }

  /** Once there is at least one page, Next is enabled exactly when `nextPage`
      would move the page forward. */
  lemma NextAgreesWithNextPage(page: int, totalPages: nat)
    requires totalPages > 0
    ensures !NextDisabled(page, totalPages) <==> Pagination.NextOf(page, totalPages) == page + 1
  {
  }

  /** With a page count of 0 (an empty result) Next stays enabled, but
      `nextPage` leaves the page where it is. */
  lemma NextInertWithoutPages(page: int)
    ensures !NextDisabled(page, 0)
    ensures Pagination.NextOf(page, 0) == page
  {
  }

  /** Before any data arrives (no items, one page) neither button is enabled
      on the first page, and the label reads "Página 1 de 1". */
  lemma BeforeDataArrives()
    ensures Pagination.Items(None) == []
    ensures PrevDisabled(0) && NextDisabled(0, Pagination.TotalPages(None))
    ensures Label(0, Pagination.TotalPages(None)) == "Página 1 de 1"
  {
  }

  /** In a digit string followed by a space, that space is the first one. */
  lemma FirstSpaceAfterDigits(a: string, r: string)
    requires Decimal.AllDigits(a)
    requires |r| > 0 && r[0] == ' '
    ensures (a + r)[|a|] == ' '
    ensures forall k :: 0 <= k < |a| ==> (a + r)[k] != ' '
  {
  }

  /** Two digit strings each followed by text starting with a space: equal
      concatenations split at the same place. */
  lemma {:induction false} SplitAtSpace(a1: string, r1: string, a2: string, r2: string)
    requires Decimal.AllDigits(a1) && Decimal.AllDigits(a2)
    requires |r1| > 0 && r1[0] == ' ' && |r2| > 0 && r2[0] == ' '
    requires a1 + r1 == a2 + r2
    ensures a1 == a2 && r1 == r2
  {
    // the first space sits right after the digits, on both sides
    FirstSpaceAfterDigits(a1, r1);
    FirstSpaceAfterDigits(a2, r2);
    assert |a1| <= |a2| && |a2| <= |a1|;
    assert a1 == (a1 + r1)[..|a1|];
    assert a2 == (a2 + r2)[..|a2|];
    assert r1 == (a1 + r1)[|a1|..];
    assert r2 == (a2 + r2)[|a2|..];
  }

  /** Two labels built from digit strings are equal only when their
      numbers are. */
  lemma {:induction false} SplitLabel(a1: string, b1: string, a2: string, b2: string)
    requires Decimal.AllDigits(a1) && Decimal.AllDigits(a2)
    requires "Página " + a1 + " de " + b1 == "Página " + a2 + " de " + b2
    ensures a1 == a2 && b1 == b2
  {
    var head := "Página ";
    var rest1, rest2 := a1 + (" de " + b1), a2 + (" de " + b2);
    assert head + a1 + " de " + b1 == head + rest1;
    assert head + a2 + " de " + b2 == head + rest2;
    assert rest1 == (head + rest1)[|head|..];
    assert rest2 == (head + rest2)[|head|..];
    SplitAtSpace(a1, " de " + b1, a2, " de " + b2);
    assert b1 == (" de " + b1)[4..];
    assert b2 == (" de " + b2)[4..];
  }

  /** The label determines the page and the shown page count: two positions
      that differ never read the same, so the user can always tell which page
      is on screen. */
  lemma LabelDeterminesPosition(p1: nat, t1: nat, p2: nat, t2: nat)
    ensures Label(p1, t1) == Label(p2, t2) ==> p1 == p2 && ShownTotal(t1) == ShownTotal(t2)
  {
    if Label(p1, t1) == Label(p2, t2) {
      var a1, a2 := Decimal.Show(p1 + 1), Decimal.Show(p2 + 1);
      var b1, b2 := Decimal.Show(ShownTotal(t1)), Decimal.Show(ShownTotal(t2));
      SplitLabel(a1, b1, a2, b2);
      Decimal.ShowInjective(p1 + 1, p2 + 1);
      Decimal.ShowInjective(ShownTotal(t1), ShownTotal(t2));
    }
  }
}
