/** The screen the player shows: whether there is anything to play at all
    (useAds), which of the ad lists and the widget rotation is on screen,
    how the widget rotation advances on its 5-second interval (Widgets),
    and how the ad lists report that every group has finished (PlayerList). */
module Screen {
  import opened Types
  import opened Schedule
  import opened Rotation

  /** `group.some(ad => adCanPlayToday(ad) && adCanPlayNow(ad))`. */
  function SomeAdmissible(group: seq<Ad>, now: Now): (r: bool)
    ensures r <==> exists j :: 0 <= j < |group| && Admissible(group[j], now)
  {
    if |group| == 0 then false
    else Admissible(group[0], now) || SomeAdmissible(group[1..], now)
  }

  /** `adGroups.some(group => group.some(...))`. */
  function SomeGroupAdmissible(groups: seq<seq<Ad>>, now: Now): (r: bool)
    ensures r <==> exists g :: 0 <= g < |groups| && SomeAdmissible(groups[g], now)
  {
    if |groups| == 0 then false
    else SomeAdmissible(groups[0], now) || SomeGroupAdmissible(groups[1..], now)
  }

  /** useAds' `emptyContent`: no ad of any group is admissible and there is
      no widget. */
  function EmptyContent(groups: seq<seq<Ad>>, widgets: seq<Ad>, now: Now): (r: bool)
    ensures r <==> |widgets| == 0
                   && forall g, j :: 0 <= g < |groups| && 0 <= j < |groups[g]|
                                     ==> !Admissible(groups[g][j], now)
  {
    var r := !SomeGroupAdmissible(groups, now) && |widgets| == 0;
    assert !r && |widgets| == 0 ==>
      exists g :: 0 <= g < |groups| && SomeAdmissible(groups[g], now);
    r
  }

  /** A group has an admissible ad exactly when its PlayerView does not
      start at -1; so the content is empty exactly when there is no widget
      and every ad list would report completion as soon as it mounts. */
  lemma EmptyMeansEveryListStartsDone(groups: seq<seq<Ad>>, widgets: seq<Ad>, now: Now)
    ensures EmptyContent(groups, widgets, now)
            <==> |widgets| == 0
                 && forall g :: 0 <= g < |groups| ==> InitialIndex(groups[g], now) == -1
  {
    if |widgets| == 0 && forall g :: 0 <= g < |groups| ==> InitialIndex(groups[g], now) == -1 {
      forall g, j | 0 <= g < |groups| && 0 <= j < |groups[g]|
        ensures !Admissible(groups[g][j], now)
      {
        assert InitialIndex(groups[g], now) == -1;
      }
    }
    if EmptyContent(groups, widgets, now) {
      forall g | 0 <= g < |groups|
        ensures InitialIndex(groups[g], now) == -1
      {
        assert forall j :: 0 <= j < |groups[g]| ==> !Admissible(groups[g][j], now);
      }
    }
  }

  /** The widget index after one tick of the interval. */
  function NextWidgetIndex(count: int, i: int): int {
    if i < count - 1 then i + 1 else i
  }

  /** Whether one tick of the interval calls `onComplete`. */
  predicate TickCompletes(count: int, i: int) {
    !(i < count - 1) && count > 1
  }

  /** The widget index after `k` ticks from a freshly mounted rotation. */
  function IndexAfter(count: int, k: nat): int {
    if k == 0 then 0 else NextWidgetIndex(count, IndexAfter(count, k - 1))
  }

  /** After `k` ticks the rotation shows widget `min(k, count - 1)`, and it
      stays on the first widget when there are fewer than two. */
  lemma {:induction false} IndexAfterIs(count: int, k: nat)
    ensures IndexAfter(count, k) == if count <= 1 then 0 else if k < count - 1 then k else count - 1
  {
    if k > 0 {
      IndexAfterIs(count, k - 1);
    }
  }

  /** Tick `k` (counting from 1) of a freshly mounted rotation calls
      `onComplete` exactly when there are at least two widgets and every
      widget has been shown, i.e. from tick `count` on; with zero or one
      widget no tick ever does. */
  lemma WidgetCompletion(count: int, k: nat)
    requires k >= 1
    ensures TickCompletes(count, IndexAfter(count, k - 1)) <==> count > 1 && k >= count
  {
    IndexAfterIs(count, k - 1);
  }

  /** The view useAds keeps in state. */
  datatype View = PlayerScreen | WidgetScreen

  /** The period, in milliseconds, of the Widgets component's interval;
      each of its firings is one `Display.WidgetTick`. */
  const WidgetInterval := 5000

  /** The ad lists, the widget rotation and the view that switches between
      them, as one object: `adListComplete` is PlayerList's counter and
      `widgetIndex` the Widgets component's index; each is fresh whenever
      its component mounts again. */
  class Display {
    const groupCount: int
    const widgetCount: int
    var view: View
    var adListComplete: int
    var widgetIndex: int

    ghost predicate Valid()
      reads this
    {
      && groupCount >= 0 && widgetCount >= 0 && adListComplete >= 0
      && 0 <= widgetIndex && (widgetIndex == 0 || widgetIndex < widgetCount)
      && (view == PlayerScreen ==> 0 <= adListComplete < groupCount && widgetIndex == 0)
      && (view == WidgetScreen ==> adListComplete == 0)
    }

    /** Mounting on the player view. PlayerList's effect runs on mount, so
        with no ad group it reports completion at once and the widget view
        is shown. */
    constructor (groupCount: nat, widgetCount: nat)
      ensures Valid()
      ensures this.groupCount == groupCount && this.widgetCount == widgetCount
      ensures adListComplete == 0 && widgetIndex == 0
      ensures view == (if groupCount == 0 then WidgetScreen else PlayerScreen)
    {
      this.groupCount := groupCount;
      this.widgetCount := widgetCount;
      adListComplete := 0;
      widgetIndex := 0;
      view := if groupCount == 0 then WidgetScreen else PlayerScreen;
    }

    /** One PlayerView calls `onComplete`: the counter goes up, and the
        effect switches to the widget view when it equals the number of
        groups (only then). */
    method GroupCompleted()
      requires Valid() && view == PlayerScreen
      modifies this
      ensures Valid()
      ensures old(adListComplete) + 1 == groupCount ==>
                view == WidgetScreen && adListComplete == 0 && widgetIndex == 0
      ensures old(adListComplete) + 1 != groupCount ==>
                view == PlayerScreen && adListComplete == old(adListComplete) + 1
                && widgetIndex == 0
    {
      adListComplete := adListComplete + 1;
      if adListComplete == groupCount {
        view := WidgetScreen;
        adListComplete := 0;
        widgetIndex := 0;
      }
    }

    /** One tick of the widget interval, every `WidgetInterval` ms: the next widget is shown until the
        last one; from then on, with at least two widgets, `onComplete`
        switches back to the player view, whose ad lists mount afresh (and,
        with no group, hand straight back to a fresh widget rotation). */
    method WidgetTick()
      requires Valid() && view == WidgetScreen
      modifies this
      ensures Valid()
      ensures !TickCompletes(widgetCount, old(widgetIndex)) ==>
                view == WidgetScreen && widgetIndex == NextWidgetIndex(widgetCount, old(widgetIndex))
                && adListComplete == 0
      ensures TickCompletes(widgetCount, old(widgetIndex)) ==>
                adListComplete == 0 && widgetIndex == 0
                && view == (if groupCount == 0 then WidgetScreen else PlayerScreen)
    {
      if widgetIndex < widgetCount - 1 {
        widgetIndex := widgetIndex + 1;
      } else if widgetCount > 1 {
        view := PlayerScreen;
        adListComplete := 0;
        widgetIndex := 0;
        if groupCount == 0 {
          view := WidgetScreen;
        }
      }
    }
  }

  /** What the player route draws. */
  datatype Body = Nothing | EmptyScreen | PlayerList | Widgets

  datatype Frame = Frame(loader: bool, backgroundLoader: bool, body: Body)

  /** The player route and Player: the loaders follow the two loading
      flags; the content is drawn only once it is safe to play, as the
      empty screen when there is nothing to play, and otherwise as the view
      in state. */
  function Render(adsLoading: bool, adsBackgroundLoading: bool, safeToPlay: bool,
                  emptyContent: bool, view: View): (f: Frame)
    ensures f.loader == adsLoading && f.backgroundLoader == adsBackgroundLoading
    ensures f.body.Nothing? <==> !safeToPlay
    ensures f.body.EmptyScreen? <==> safeToPlay && emptyContent
    ensures f.body.PlayerList? <==> safeToPlay && !emptyContent && view.PlayerScreen?
    ensures f.body.Widgets? <==> safeToPlay && !emptyContent && view.WidgetScreen?
  {
    var body := if !safeToPlay then Nothing
                else if emptyContent then EmptyScreen
                else if view == PlayerScreen then PlayerList
                else Widgets;
    Frame(adsLoading, adsBackgroundLoading, body)
  }
}
