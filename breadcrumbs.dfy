/**
 * The breadcrumb trail (app/components/Breadcrumbs/Breadcrumbs.tsx).
 *
 * The route matches of the current URL are filtered to those whose handle
 * has a `breadcrumb`, and each kept match becomes one list item: a separator
 * before every item but the first, the match's breadcrumb rendered with its
 * loader data, and a position meta of its index plus one.
 */
module Breadcrumbs {
  import opened Http

  /** What a route's `breadcrumb` renders: a link to `href` labelled `text`. */
  datatype Crumb = Crumb(href: string, text: string)

  /** A route module's `handle` export. */
  datatype Handle = Handle(breadcrumb: Option<Crumb>)

  /** One route match of the current URL, with the route's handle (if any) and loader data. */
  datatype Match<D> = Match(id: string, handle: Option<Handle>, data: D)

  /** One rendered list item. */
  datatype Item<D> = Item(separator: bool, crumb: Crumb, data: D, position: nat)

  /** `handle?.breadcrumb`: whether a match contributes a breadcrumb. */
  predicate HasCrumb<D>(m: Match<D>) {
    m.handle.Some? && m.handle.value.breadcrumb.Some?
  }

  /** The filter of the matches to those with a breadcrumb. */
  function WithCrumbs<D>(matches: seq<Match<D>>): (kept: seq<Match<D>>)
    ensures |kept| <= |matches|
    ensures forall k :: 0 <= k < |kept| ==> HasCrumb(kept[k])
  {
    if matches == [] then []
    else if HasCrumb(matches[0]) then [matches[0]] + WithCrumbs(matches[1..])
    else WithCrumbs(matches[1..])
  }

  /**
   * The filter works piecewise: filtering a concatenation is concatenating
   * the filtered parts, so the kept matches keep their relative order.
   */
  lemma {:induction false} WithCrumbsKeepsOrder<D>(front: seq<Match<D>>, back: seq<Match<D>>)
    ensures WithCrumbs(front + back) == WithCrumbs(front) + WithCrumbs(back)
  {
    if front == [] {
      assert front + back == back;
    } else {
      assert (front + back)[1..] == front[1..] + back;
      WithCrumbsKeepsOrder(front[1..], back);
    }
  }

  /** A match is kept exactly when it is one of the matches and has a breadcrumb. */
  lemma {:induction false} WithCrumbsMembers<D>(matches: seq<Match<D>>)
    ensures forall m :: m in WithCrumbs(matches) <==> m in matches && HasCrumb(m)
  {
    if matches != [] {
      WithCrumbsMembers(matches[1..]);
      assert matches == [matches[0]] + matches[1..];
    }
  }

  /** The items of already-filtered matches, the first of them at index `start`. */
  function ItemsFrom<D>(kept: seq<Match<D>>, start: nat): seq<Item<D>>
    requires forall k :: 0 <= k < |kept| ==> HasCrumb(kept[k])
  {
    if kept == [] then []
    else
      assert HasCrumb(kept[0]);
      [Item(start > 0, kept[0].handle.value.breadcrumb.value, kept[0].data, start + 1)]
      + ItemsFrom(kept[1..], start + 1)
  }

  lemma {:induction false} ItemsFromAt<D>(kept: seq<Match<D>>, start: nat, k: nat)
    requires forall j :: 0 <= j < |kept| ==> HasCrumb(kept[j])
    requires k < |kept|
    ensures |ItemsFrom(kept, start)| == |kept|
    ensures ItemsFrom(kept, start)[k]
      == Item(start + k > 0, kept[k].handle.value.breadcrumb.value, kept[k].data, start + k + 1)
  {
    if k == 0 {
      if |kept| > 1 {
        ItemsFromAt(kept[1..], start + 1, 0);
      } else {
        assert kept[1..] == [];
      }
    } else {
      ItemsFromAt(kept[1..], start + 1, k - 1);
    }
  }

  /** Every item of a mapped list, at once. */
  lemma {:induction false} ItemsFromAll<D>(kept: seq<Match<D>>, start: nat)
    requires forall j :: 0 <= j < |kept| ==> HasCrumb(kept[j])
    ensures |ItemsFrom(kept, start)| == |kept|
    ensures forall k :: 0 <= k < |kept| ==>
      ItemsFrom(kept, start)[k] == Item(start + k > 0, kept[k].handle.value.breadcrumb.value, kept[k].data, start + k + 1)
  {
    if kept != [] {
      ItemsFromAt(kept, start, 0);
      forall k | 0 <= k < |kept|
        ensures ItemsFrom(kept, start)[k]
          == Item(start + k > 0, kept[k].handle.value.breadcrumb.value, kept[k].data, start + k + 1)
      {
        ItemsFromAt(kept, start, k);
      }
    }
  }

  /**
   * The rendered list: one item per kept match, in order. Item i has a
   * separator exactly when i > 0, position i + 1, and shows the i-th kept
   * match's breadcrumb rendered with that match's data.
   */
  function Render<D>(matches: seq<Match<D>>): (items: seq<Item<D>>)
    ensures |items| == |WithCrumbs(matches)|
    ensures forall i :: 0 <= i < |items| ==>
      && (items[i].separator <==> i > 0)
      && items[i].position == i + 1
      && items[i].crumb == WithCrumbs(matches)[i].handle.value.breadcrumb.value
      && items[i].data == WithCrumbs(matches)[i].data
  {
    var kept := WithCrumbs(matches);
    ItemsFromAll(kept, 0);
    ItemsFrom(kept, 0)
  }
}
