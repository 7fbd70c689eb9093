/** The picker's pagination: the arithmetic of pages over a list of
    `totalItems` items shown `itemsPerPage` at a time, and the `Pagination`
    object that walks the pages.

    Indices are unbounded here; in the Rust code they are `usize`, and no sum
    or product below comes near its limit for a list that fits in memory. */
module Paging {

  /** `total_pages`: the number of pages, rounding a partial last page up. A
      page size of zero would divide by zero; the picker always uses 30. */
  function PageCount(totalItems: nat, itemsPerPage: nat): nat
    requires itemsPerPage > 0
  {
    (totalItems + itemsPerPage - 1) / itemsPerPage
  }

  /** `page_start`: the index of the first item of `page`. */
  function FirstIndex(page: nat, itemsPerPage: nat): nat {
    page * itemsPerPage
  }

  /** `page_end`: one past the last item of `page`, never past the list. */
  function EndIndex(page: nat, itemsPerPage: nat, totalItems: nat): (r: nat)
    ensures r <= totalItems
  {
    var end := (page + 1) * itemsPerPage;
    if end < totalItems then end else totalItems
  }

  /** The page count is the ceiling of the quotient: the pages hold every item,
      and one page fewer would not. */
  lemma PageCountIsCeiling(totalItems: nat, itemsPerPage: nat)
    requires itemsPerPage > 0
    ensures PageCount(totalItems, itemsPerPage) * itemsPerPage >= totalItems
    ensures PageCount(totalItems, itemsPerPage) > 0 ==>
      (PageCount(totalItems, itemsPerPage) - 1) * itemsPerPage < totalItems
    ensures PageCount(totalItems, itemsPerPage) == 0 <==> totalItems == 0
  {
    var n, k := totalItems + itemsPerPage - 1, itemsPerPage;
    var q := n / k;
    assert n == q * k + n % k && n % k < k;
    assert q * k >= totalItems;
    if q > 0 {
      assert (q - 1) * k == q * k - k;
    }
  }

  /** Every item lies on the page its index divided by the page size names,
      and that page exists. */
  lemma ItemOnItsPage(totalItems: nat, itemsPerPage: nat, i: nat)
    requires itemsPerPage > 0 && i < totalItems
    ensures i / itemsPerPage < PageCount(totalItems, itemsPerPage)
    ensures FirstIndex(i / itemsPerPage, itemsPerPage) <= i < EndIndex(i / itemsPerPage, itemsPerPage, totalItems)
  {
    var k := itemsPerPage;
    var p := i / k;
    assert i == p * k + i % k && i % k < k;
    assert (p + 1) * k == p * k + k;
    PageCountIsCeiling(totalItems, k);
    if p >= PageCount(totalItems, k) {
      var c := PageCount(totalItems, k);
      assert c * k <= p * k by {
        MultiplyMonotone(c, p, k);
      }
    }
  }

  /** Pages do not overlap: an item on page `p` is on no other page. */
  lemma PageOfItem(totalItems: nat, itemsPerPage: nat, p: nat, i: nat)
    requires itemsPerPage > 0
    requires FirstIndex(p, itemsPerPage) <= i < EndIndex(p, itemsPerPage, totalItems)
    ensures p == i / itemsPerPage
  {
    var k := itemsPerPage;
    assert p * k <= i < p * k + k by {
      assert (p + 1) * k == p * k + k;
    }
    var q := i / k;
    assert i == q * k + i % k && i % k < k;
    if q < p {
      MultiplyMonotone(q + 1, p, k);
    } else if q > p {
      MultiplyMonotone(p + 1, q, k);
    }
  }

  lemma MultiplyMonotone(a: nat, b: nat, k: nat)
    requires a <= b
    ensures a * k <= b * k
  {
  }

  /** Every page before the last is full, and the last page is not empty. */
  lemma PageSizes(totalItems: nat, itemsPerPage: nat, p: nat)
    requires itemsPerPage > 0 && p < PageCount(totalItems, itemsPerPage)
    ensures p + 1 < PageCount(totalItems, itemsPerPage) ==>
      EndIndex(p, itemsPerPage, totalItems) - FirstIndex(p, itemsPerPage) == itemsPerPage
    ensures FirstIndex(p, itemsPerPage) < EndIndex(p, itemsPerPage, totalItems)
  {
    var k, c := itemsPerPage, PageCount(totalItems, itemsPerPage);
    PageCountIsCeiling(totalItems, k);
    assert (p + 1) * k == p * k + k;
    MultiplyMonotone(p + 1, c, k);
    MultiplyMonotone(p, c - 1, k);
    if p + 1 < c {
      MultiplyMonotone(p + 2, c, k);
      assert (p + 2) * k == (p + 1) * k + k;
      assert (c - 1) * k == c * k - k;
    }
  }

  /** `Pagination`: the list's length, the page size and the page shown. */
  class Pagination {
    var totalItems: nat
    var itemsPerPage: nat
    var currentPage: nat

    ghost predicate Valid()
      reads this
    {
      itemsPerPage > 0
    }

    /** `Pagination::new`: the first page. */
    constructor (totalItems: nat, itemsPerPage: nat)
      requires itemsPerPage > 0
      ensures Valid()
      ensures this.totalItems == totalItems && this.itemsPerPage == itemsPerPage && currentPage == 0
    {
      this.totalItems := totalItems;
      this.itemsPerPage := itemsPerPage;
      currentPage := 0;
    }

    function TotalPages(): nat
      reads this
      requires Valid()
    {
      PageCount(totalItems, itemsPerPage)
    }

    function PageStart(): nat
      reads this
    {
      FirstIndex(currentPage, itemsPerPage)
    }

    function PageEnd(): nat
      reads this
    {
      EndIndex(currentPage, itemsPerPage, totalItems)
    }

    /** `has_next`: a page follows the current one. */
    predicate HasNext()
      reads this
      requires Valid()
    {
      currentPage + 1 < TotalPages()
    }

    /** `has_prev`: a page precedes the current one. */
    predicate HasPrev()
      reads this
    {
      currentPage > 0
    }

    /** `next_page`: moves one page on exactly when a next page exists, and says
        whether it moved. */
    method NextPage() returns (moved: bool)
      requires Valid()
      modifies this
      ensures Valid()
      ensures moved == old(HasNext())
      ensures currentPage == if moved then old(currentPage) + 1 else old(currentPage)
      ensures totalItems == old(totalItems) && itemsPerPage == old(itemsPerPage)
    {
      if currentPage + 1 < TotalPages() {
        currentPage := currentPage + 1;
        moved := true;
      } else {
        moved := false;
      }
    }

    /** `prev_page`: moves one page back exactly when not on the first page. */
    method PrevPage() returns (moved: bool)
      requires Valid()
      modifies this
      ensures Valid()
      ensures moved == old(HasPrev())
      ensures currentPage == if moved then old(currentPage) - 1 else old(currentPage)
      ensures totalItems == old(totalItems) && itemsPerPage == old(itemsPerPage)
    {
      if currentPage > 0 {
        currentPage := currentPage - 1;
        moved := true;
      } else {
        moved := false;
      }
    }

    /** `first_page`. */
    method FirstPage()
      requires Valid()
      modifies this
      ensures Valid() && !HasPrev()
      ensures currentPage == 0
      ensures totalItems == old(totalItems) && itemsPerPage == old(itemsPerPage)
    {
      currentPage := 0;
    }

    /** `last_page`: the last page, or the first when there are none; no page
        follows it. */
    method LastPage()
      requires Valid()
      modifies this
      ensures Valid() && !HasNext()
      ensures currentPage == if TotalPages() > 0 then TotalPages() - 1 else 0
      ensures totalItems == old(totalItems) && itemsPerPage == old(itemsPerPage)
    {
      var pages := TotalPages();
      currentPage := if pages > 0 then pages - 1 else 0;
    }
  }

  /** Moving to the next page and back returns to the page left, and every
      other field keeps its value. */
  method NextThenPrev(pagination: Pagination)
    requires pagination.Valid() && pagination.HasNext()
    modifies pagination
    ensures pagination.Valid()
    ensures pagination.currentPage == old(pagination.currentPage)
    ensures pagination.totalItems == old(pagination.totalItems) && pagination.itemsPerPage == old(pagination.itemsPerPage)
  {
    var forward := pagination.NextPage();
    assert forward;
    var back := pagination.PrevPage();
    assert back;
  }
}
