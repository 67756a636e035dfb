/** filteredAds: how the provider splits its ads into the groups the player
    plays side by side and the widgets it rotates. */
module Classify {
  import opened Types

  /** Array `filter`: the elements of `s` that satisfy `p`, in order. It is
      written from the end, as the pushes of a left-to-right pass. */
  function Filter<T(!new)>(s: seq<T>, p: T -> bool): (r: seq<T>)
    ensures |r| <= |s|
    ensures forall k :: 0 <= k < |r| ==> p(r[k])
  {
    if |s| == 0 then []
    else
      var front := s[..|s| - 1];
      var x := s[|s| - 1];
      assert s == front + [x];
      Filter(front, p) + (if p(x) then [x] else [])
  }

  /** Filtering keeps every element that satisfies `p` as often as it
      occurs, and no other. */
  lemma {:induction false} FilterCount<T(!new)>(s: seq<T>, p: T -> bool, x: T)
    ensures multiset(Filter(s, p))[x] == if p(x) then multiset(s)[x] else 0
  {
    if |s| > 0 {
      var front := s[..|s| - 1];
      assert s == front + [s[|s| - 1]];
      FilterCount(front, p, x);
    }
  }

  /** Filtering works piece by piece, so it keeps the relative order of
      what it keeps. */
  lemma {:induction false} FilterAppend<T(!new)>(s: seq<T>, t: seq<T>, p: T -> bool)
    ensures Filter(s + t, p) == Filter(s, p) + Filter(t, p)
    decreases |t|
  {
    if |t| == 0 {
      assert s + t == s;
    } else {
      var t' := t[..|t| - 1];
      assert (s + t)[..|s + t| - 1] == s + t';
      assert t[..|t| - 1] == t';
      FilterAppend(s, t', p);
    }
  }

  /** `campaign.campaignView` is truthy: a number other than 0. */
  predicate HasView(a: Ad) { a.campaignView != 0 }

  predicate IsFirstView(a: Ad) { a.campaignView == 1 }

  /** The ads the reduce pushes into the second accumulator once the falsy
      ones are gone. */
  predicate IsOtherView(a: Ad) { a.campaignView != 0 && a.campaignView != 1 }

  predicate NotFirstView(a: Ad) { a.campaignView != 1 }

  /** `["time", "weather"].includes(campaign.adId)`. */
  predicate IsWidget(a: Ad) { a.adId in ["time", "weather"] }

  predicate NonEmpty(g: seq<Ad>) { |g| > 0 }

  /** The reduce over `[[], []]`: `campaignView === 1` goes to the first
      accumulator, everything else to the second. */
  function Grouped(s: seq<Ad>): (r: (seq<Ad>, seq<Ad>))
  {
    if |s| == 0 then ([], [])
    else
      var acc := Grouped(s[..|s| - 1]);
      var obj := s[|s| - 1];
      if obj.campaignView == 1 then (acc.0 + [obj], acc.1) else (acc.0, acc.1 + [obj])
  }

  /** The two accumulators are the two filters of the input. */
  lemma {:induction false} GroupedIsFilters(s: seq<Ad>)
    ensures Grouped(s) == (Filter(s, IsFirstView), Filter(s, NotFirstView))
  {
    if |s| > 0 {
      var front := s[..|s| - 1];
      var obj := s[|s| - 1];
      GroupedIsFilters(front);
      var acc := Grouped(front);
      assert Grouped(s) == if obj.campaignView == 1 then (acc.0 + [obj], acc.1) else (acc.0, acc.1 + [obj]);
      assert Filter(s, IsFirstView) == Filter(front, IsFirstView) + (if IsFirstView(obj) then [obj] else []);
      assert Filter(s, NotFirstView) == Filter(front, NotFirstView) + (if NotFirstView(obj) then [obj] else []);
      if obj.campaignView == 1 {
        assert Filter(front, NotFirstView) + [] == Filter(front, NotFirstView);
      } else {
        assert Filter(front, IsFirstView) + [] == Filter(front, IsFirstView);
      }
    } else {
      assert Filter(s, IsFirstView) == [];
      assert Filter(s, NotFirstView) == [];
      assert Grouped(s) == ([], []);
    }
  }

  /** Filtering by a test that implies the first is filtering by it alone. */
  lemma {:induction false} FilterFilter(s: seq<Ad>, p: Ad -> bool, q: Ad -> bool, pq: Ad -> bool)
    requires forall a :: pq(a) == (p(a) && q(a))
    ensures Filter(Filter(s, p), q) == Filter(s, pq)
  {
    if |s| > 0 {
      var front := s[..|s| - 1];
      var x := s[|s| - 1];
      FilterFilter(front, p, q, pq);
      assert s == front + [x];
      FilterAppend(Filter(front, p), if p(x) then [x] else [], q);
    }
  }

  /** `[a, b].filter(group => group.length > 0)`. */
  lemma DropEmptyOfPair(a: seq<Ad>, b: seq<Ad>)
    ensures Filter([a, b], NonEmpty) == (if |a| > 0 then [a] else []) + (if |b| > 0 then [b] else [])
  {
    var front := [a, b][..1];
    assert front == [a];
    assert Filter(front, NonEmpty) == Filter([], NonEmpty) + (if NonEmpty(a) then [a] else []);
  }

  /** The groups and widgets the provider hands to the player. */
  datatype Filtered = Filtered(adGroups: seq<seq<Ad>>, widgets: seq<Ad>)

  /** filteredAds: there are at most two groups and neither is empty; the
      first present one is the `campaignView === 1` ads and the other the
      ads with any other non-zero view, each in the original order; the
      widgets are the ads whose `adId` is "time" or "weather", in order,
      whatever their view. */
  function FilteredAds(ads: seq<Ad>): (r: Filtered)
    ensures |r.adGroups| <= 2
    ensures forall g :: 0 <= g < |r.adGroups| ==> |r.adGroups[g]| > 0
    ensures r.adGroups
            == (if |Filter(ads, IsFirstView)| > 0 then [Filter(ads, IsFirstView)] else [])
               + (if |Filter(ads, IsOtherView)| > 0 then [Filter(ads, IsOtherView)] else [])
    ensures r.widgets == Filter(ads, IsWidget)
  {
    var withView := Filter(ads, HasView);
    var widgets := Filter(ads, IsWidget);
    var grouped := Grouped(withView);
    GroupedIsFilters(withView);
    FilterFilter(ads, HasView, IsFirstView, IsFirstView);
    FilterFilter(ads, HasView, NotFirstView, IsOtherView);
    DropEmptyOfPair(grouped.0, grouped.1);
    Filtered(Filter([grouped.0, grouped.1], NonEmpty), widgets)
  }

  /** Every element of every group, group after group. */
  function Flatten(groups: seq<seq<Ad>>): seq<Ad> {
    if |groups| == 0 then [] else Flatten(groups[..|groups| - 1]) + groups[|groups| - 1]
  }

  /** The groups partition the ads with a truthy view: each such ad occurs
      in the groups as often as in the input, and any other ad not at all. */
  lemma GroupsPartitionViewed(ads: seq<Ad>)
    ensures forall x :: multiset(Flatten(FilteredAds(ads).adGroups))[x]
                        == if HasView(x) then multiset(ads)[x] else 0
  {
    var ones := Filter(ads, IsFirstView);
    var others := Filter(ads, IsOtherView);
    FlattenOfDropped(ones, others);
    var flat := Flatten(FilteredAds(ads).adGroups);
    assert flat == ones + others;
    forall x
      ensures multiset(flat)[x] == if HasView(x) then multiset(ads)[x] else 0
    {
      FilterCount(ads, IsFirstView, x);
      FilterCount(ads, IsOtherView, x);
      assert multiset(flat)[x] == multiset(ones)[x] + multiset(others)[x];
    }
  }

  /** No ad is in both groups. */
  lemma GroupsDisjoint(ads: seq<Ad>)
    ensures var groups := FilteredAds(ads).adGroups;
            forall k :: |groups| == 2 && 0 <= k < |groups[0]| ==> groups[0][k] !in groups[1]
  {
    var groups := FilteredAds(ads).adGroups;
    if |groups| == 2 {
      var ones := Filter(ads, IsFirstView);
      var others := Filter(ads, IsOtherView);
      assert groups == [ones, others];
    }
  }

  /** Flattening the two accumulators with the empty ones dropped. */
  lemma FlattenOfDropped(a: seq<Ad>, b: seq<Ad>)
    ensures Flatten((if |a| > 0 then [a] else []) + (if |b| > 0 then [b] else []))
            == a + b
  {
    var gs := (if |a| > 0 then [a] else []) + (if |b| > 0 then [b] else []);
    if |a| > 0 && |b| > 0 {
      assert gs[..1] == [a];
      assert Flatten([a]) == Flatten([]) + a;
    } else if |a| > 0 {
      assert gs == [a];
      assert Flatten([a]) == Flatten([]) + a;
      assert b == [];
    } else if |b| > 0 {
      assert gs == [b];
      assert Flatten([b]) == Flatten([]) + b;
      assert a == [];
    } else {
      assert a == [] && b == [];
    }
  }

  /** An ad with view 1 whose `adId` is "time" is both in the first group
      and among the widgets. */
  lemma WidgetAlsoInGroup()
    ensures var cfg := AdConfiguration(["Monday"], 5, DateTime(0, 0, 0), DateTime(1, 23, 59));
            var clock := Ad("acct", cfg, "time", Iframe, Some("u"), None, "camp", 1, "clock", "ref");
            FilteredAds([clock]) == Filtered([[clock]], [clock])
  {
    var cfg := AdConfiguration(["Monday"], 5, DateTime(0, 0, 0), DateTime(1, 23, 59));
    var clock := Ad("acct", cfg, "time", Iframe, Some("u"), None, "camp", 1, "clock", "ref");
    assert Filter([clock], IsFirstView) == [clock];
    assert Filter([clock], IsOtherView) == [];
    assert Filter([clock], IsWidget) == [clock];
  }
}
