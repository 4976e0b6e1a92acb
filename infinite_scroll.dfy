/** The infinite-scroll hook of assets/js/hooks/infinite_scroll.js.

    When the observed element comes into view the hook asks its LiveComponent for
    the next page, and then waits: it asks again only once the server has rendered
    a new page (the `updated` callback), so each page is requested at most once. The
    page number is `Number(data-page)` and is read afresh at every call, so it is a
    parameter of each method. */
module InfiniteScroll {
  import opened Js

  class Hook {
    /** The page the hook is willing to ask after; one past the page once asked. */
    var pending: Number
    /** The targets of the `load-more` events pushed, oldest first. */
    var requests: seq<string>
    /** Whether the intersection observer watches the element. */
    var observing: bool

    /** `mounted`: wait for the page on display, and start observing. */
    constructor Mounted(page: Number)
      ensures pending == page && requests == [] && observing
    {
      pending := page;
      requests := [];
      observing := true;
    }

    /** The observer's callback `loadMore(entries)`, given whether the first entry
        intersects: the observer calls it only while it observes the element, and it
        asks for more only when the hook is waiting on the page on display. */
    method LoadMore(intersecting: bool, page: Number, target: string)
      modifies this`pending, this`requests
      ensures observing && intersecting && !Differs(old(pending), page) ==>
        requests == old(requests) + [target] && pending == Num(page.v + 1.0)
      ensures !(observing && intersecting && !Differs(old(pending), page)) ==>
        requests == old(requests) && pending == old(pending)
      ensures Differs(pending, page) || requests == old(requests)
    {
      if observing && intersecting && !Differs(pending, page) {
        pending := Num(page.v + 1.0);
        requests := requests + [target];
      }
    }

    /** `updated`: a new render; wait for the page now on display. */
    method Updated(page: Number)
      modifies this`pending
      ensures pending == page
    {
      pending := page;
    }

    /** `destroyed`: stop observing. */
    method Destroyed()
      modifies this`observing
      ensures !observing
    {
      observing := false;
    }
  }

  /** However many intersections arrive while the same page is on display, at most one
      request goes out; a page that is not a number (NaN) is never asked after. */
  method AtMostOnePerPage(page: Number, target: string, i1: bool, i2: bool, i3: bool)
    returns (requests: seq<string>)
    ensures |requests| <= 1
    ensures page.NaN? ==> requests == []
    ensures page.Num? && (i1 || i2 || i3) ==> requests == [target]
  {
    var hook := new Hook.Mounted(page);
    hook.LoadMore(i1, page, target);
    hook.LoadMore(i2, page, target);
    hook.LoadMore(i3, page, target);
    requests := hook.requests;
  }

  /** After the server renders the next page, the hook asks again. */
  method NextPageAfterUpdate() returns (requests: seq<string>)
    ensures requests == ["posts", "posts"]
  {
    var hook := new Hook.Mounted(Num(1.0));
    hook.LoadMore(true, Num(1.0), "posts");
    hook.LoadMore(true, Num(1.0), "posts");
    hook.Updated(Num(2.0));
    hook.LoadMore(true, Num(2.0), "posts");
    requests := hook.requests;
  }

  /** Once the hook is destroyed the observer no longer reports intersections, so an
      intersection that would have asked for the page asks for nothing. */
  method NoRequestAfterDestroy() returns (requests: seq<string>)
    ensures requests == []
  {
    var hook := new Hook.Mounted(Num(1.0));
    hook.Destroyed();
    hook.LoadMore(true, Num(1.0), "posts");
    requests := hook.requests;
  }
}
