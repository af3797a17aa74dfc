/** The pager under the customer list
    (src/components/customers/customer-pagination.tsx): a count with its
    plural, previous and next buttons, and the page label. */
module CustomerPagination {
  import opened Text

  /** `${total} customer${total !== 1 ? "s" : ""} total` */
  function Summary(total: nat): string {
    NatToString(total) + " customer" + (if total != 1 then "s" else "") + " total"
  }

  predicate PrevDisabled(page: int) {
    page <= 1
  }

  predicate NextDisabled(page: int, totalPages: int) {
    page >= totalPages
  }

  /** `Page ${page} of ${totalPages || 1}` */
  function PageLabel(page: int, totalPages: int): string {
    "Page " + IntToString(page) + " of " + IntToString(if totalPages == 0 then 1 else totalPages)
  }

  /** An enabled button moves to a page between 1 and `totalPages`, and on
      a one-page (or empty) list both are disabled at page 1. */
  lemma ButtonsStayInRange(page: int, totalPages: int)
    requires 1 <= page
    ensures !PrevDisabled(page) ==> 1 <= page - 1
    ensures !NextDisabled(page, totalPages) ==> page + 1 <= totalPages
    ensures totalPages <= 1 && page == 1 ==> PrevDisabled(page) && NextDisabled(page, totalPages)
  {
  }

  /** One customer is singular; none and several are plural. */
  lemma Plural()
    ensures Summary(1) == "1 customer total"
    ensures Summary(0) == "0 customers total"
  {
  }

  /** For every count, the summary ends in "s total" exactly when the
      count is not one. */
  lemma {:induction false} PluralEnding(total: nat)
    ensures |Summary(total)| >= 7
    ensures Summary(total)[|Summary(total)| - 7..] == "s total" <==> total != 1
  {
    var s := Summary(total);
    var head := NatToString(total) + " customer";
    if total != 1 {
      assert s == head + "s total";
    } else {
      assert s == "1 customer total";
      assert s[|s| - 7] == 'r';
    }
  }

  /** An empty list is labelled as one page, the same as a one-page list. */
  lemma EmptyListIsOnePage(page: int)
    ensures PageLabel(page, 0) == PageLabel(page, 1)
  {
  }
}
