// Fetching all validators of an operator page by page.
module Paging {

  const PAGE_SIZE := 100

  datatype Validator = Validator(pubkey: string)

  datatype Page = Page(validators: seq<Validator>) | Failed(message: string)

  /** What the registry answers when asked for a page; pages count from 1. */
  type Registry = nat -> Page

  predicate Stops(registry: Registry, p: nat) {
    registry(p).Failed? || registry(p).validators == []
  }

  /** The first n pages, one after the other. */
  function FirstPages(registry: Registry, n: nat): seq<Validator>
    requires forall p :: 1 <= p <= n ==> !Stops(registry, p)
  {
    assert n >= 1 ==> !Stops(registry, n);
    if n == 0 then [] else FirstPages(registry, n - 1) + registry(n).validators
  }

  /** Page n is the first that is empty or fails. */
  predicate StopsFirstAt(registry: Registry, n: nat) {
    n >= 1 && Stops(registry, n) && forall p :: 1 <= p < n ==> !Stops(registry, p)
  }

  lemma StopIsUnique(registry: Registry, m: nat, n: nat)
    requires StopsFirstAt(registry, m) && StopsFirstAt(registry, n)
    ensures m == n
  {
    assert Stops(registry, m) && Stops(registry, n);
  }

  /**
   * GetAllValidatorsInfoByOperator on a registry that has a last page: the pages before the first
   * empty one, or the error of the first failing one, whichever comes first.
   */
  method GetAllValidatorsInfoByOperator(registry: Registry, ghost last: nat)
    returns (r: Page, calls: nat)
    requires StopsFirstAt(registry, last)
    ensures calls == last
    ensures r == match registry(last)
                 case Failed(message) => Failed(message)
                 case Page(_) => Page(FirstPages(registry, last - 1))
  {
    var finalValidators: seq<Validator> := [];
    var pageNumber: nat := 1;
    calls := 0;
    while true
      invariant 1 <= pageNumber <= last && calls == pageNumber - 1
      invariant finalValidators == FirstPages(registry, pageNumber - 1)
      decreases last - pageNumber
    {
      assert pageNumber < last ==> !Stops(registry, pageNumber);
      var page := registry(pageNumber);
      calls := calls + 1;
      if page.Failed? {
        return page, calls;
      }
      if page.validators == [] {
        return Page(finalValidators), calls;
      }
      finalValidators := finalValidators + page.validators;
      pageNumber := pageNumber + 1;
    }
  }

  // ---- A registry that serves a list in blocks of a page ----

  function Min(a: nat, b: nat): nat {
    if a < b then a else b
  }

  /** The p-th block of a page size from a list; empty beyond its end. */
  function Block(all: seq<Validator>, p: nat): seq<Validator>
    requires p >= 1
  {
    all[Min(PAGE_SIZE * (p - 1), |all|)..Min(PAGE_SIZE * p, |all|)]
  }

  ghost predicate Serves(registry: Registry, all: seq<Validator>) {
    forall p :: p >= 1 ==> registry(p) == Page(Block(all, p))
  }

  lemma {:induction false} FirstPagesAreAPrefix(registry: Registry, all: seq<Validator>, n: nat)
    requires Serves(registry, all) && forall p :: 1 <= p <= n ==> !Stops(registry, p)
    ensures FirstPages(registry, n) == all[..Min(PAGE_SIZE * n, |all|)]
  {
    if n > 0 {
      FirstPagesAreAPrefix(registry, all, n - 1);
    }
  }

  /**
   * The pages before the first empty one are the whole list, for every length, and their number is
   * the length divided by the page size, rounded up: a length that is a multiple of the page size
   * needs one more call than it has full pages, like any other.
   */
  lemma AllPagesAreTheList(registry: Registry, all: seq<Validator>, last: nat)
    requires Serves(registry, all)
    ensures StopsFirstAt(registry, last) <==> last == (|all| + 99) / 100 + 1
    ensures StopsFirstAt(registry, last) ==> FirstPages(registry, last - 1) == all && registry(last) == Page([])
  {
    var end := (|all| + PAGE_SIZE - 1) / PAGE_SIZE + 1;
    forall p: nat | p >= 1 ensures Stops(registry, p) <==> p >= end {
      assert registry(p) == Page(Block(all, p));
      assert Block(all, p) == [] <==> PAGE_SIZE * (p - 1) >= |all|;
    }
    assert StopsFirstAt(registry, end);
    FirstPagesAreAPrefix(registry, all, end - 1);
    if StopsFirstAt(registry, last) { StopIsUnique(registry, last, end); }
  }

  /** The same of the method: an operator's validators come back complete, in order and once each. */
  method GetOperatorsValidators(registry: Registry, ghost all: seq<Validator>) returns (r: Page, calls: nat)
    requires Serves(registry, all)
    ensures r == Page(all)
    ensures calls == (|all| + 99) / 100 + 1
  {
    ghost var last := (|all| + PAGE_SIZE - 1) / PAGE_SIZE + 1;
    AllPagesAreTheList(registry, all, last);
    r, calls := GetAllValidatorsInfoByOperator(registry, last);
  }
}
