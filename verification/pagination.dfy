/** The pager under the recipe list: hidden for a single page, otherwise
    previous/next buttons around a "Page p of m" label. */
module Pagination {
  import opened Text

  /** What the pager shows: nothing, or both buttons (whether each is
      disabled and which page it asks for) and the caption. */
  datatype Controls =
    | Hidden
    | Shown(prevDisabled: bool, prevPage: int, caption: string, nextDisabled: bool, nextPage: int)

  /** `Math.ceil(total / pageSize)` for a positive page size. */
  function CeilDiv(total: nat, pageSize: nat): (r: nat)
    requires pageSize >= 1
    ensures r * pageSize >= total
    ensures r == 0 || (r - 1) * pageSize < total
  {
    (total + pageSize - 1) / pageSize
  }

  /** The last page: the fewest pages of `pageSize` rows that hold `total`
      rows, and at least 1. */
  function MaxPage(total: nat, pageSize: nat): (r: nat)
    requires pageSize >= 1
    ensures r >= 1 && r * pageSize >= total
    ensures r == 1 || (r - 1) * pageSize < total
  {
    var c := CeilDiv(total, pageSize);
    if c < 1 then 1 else c
  }

  function Label(page: int, maxPage: nat): string {
    "Page " + IntToString(page) + " of " + NatToString(maxPage)
  }

  /** The pager for a page of a listing of `total` rows. */
  function Render(page: int, pageSize: nat, total: nat): (r: Controls)
    requires pageSize >= 1
    ensures r.Hidden? <==> total <= pageSize
    ensures r.Shown? ==> r.prevPage == page - 1 && r.nextPage == page + 1
    ensures r.Shown? ==> (r.prevDisabled <==> page == 1)
    ensures r.Shown? ==> (r.nextDisabled <==> page >= MaxPage(total, pageSize))
    ensures r.Shown? ==> r.caption == Label(page, MaxPage(total, pageSize))
  {
    SinglePageIff(total, pageSize);
    var maxPage := MaxPage(total, pageSize);
    if maxPage <= 1 then Hidden
    else Shown(page == 1, page - 1, Label(page, maxPage), page >= maxPage, page + 1)
  }

  /** From a page at 1 or above, "Next" is enabled exactly when rows remain
      after this page, so it never leads to an empty page. */
  lemma NextEnabledIffRowsRemain(page: int, pageSize: nat, total: nat)
    requires pageSize >= 1 && page >= 1
    requires Render(page, pageSize, total).Shown?
    ensures !Render(page, pageSize, total).nextDisabled <==> page * pageSize < total
  {
    var m := MaxPage(total, pageSize);
    if page < m {
      MulMonotonic(page, m - 1, pageSize);
    } else {
      MulMonotonic(m, page, pageSize);
    }
  }

  /** There is a single page exactly when one page holds every row. */
  lemma SinglePageIff(total: nat, pageSize: nat)
    requires pageSize >= 1
    ensures MaxPage(total, pageSize) <= 1 <==> total <= pageSize
  {
    var m := MaxPage(total, pageSize);
    if m >= 2 {
      MulMonotonic(1, m - 1, pageSize);
    }
  }

  lemma MulMonotonic(a: int, b: int, c: nat)
    requires a <= b
    ensures a * c <= b * c
  {
    assert b * c - a * c == (b - a) * c;
  }

  /** Twenty rows in pages of twenty: no pager; twenty-one: two pages. */
  lemma PagerThresholds()
    ensures Render(1, 20, 20) == Hidden
    ensures Render(1, 20, 21) == Shown(true, 0, "Page 1 of 2", false, 2)
  {
    assert MaxPage(21, 20) == 2;
    assert NatToString(2) == "2" && NatToString(1) == "1";
  }
}
