/** The per-group rotation of the playback scheduler (usePlayingAds): an
    index into the group's ads, the play/skip log it sends, and the one
    timer it arms for the ad on screen. The selection logic is stated over
    `Marks(s, now)`, which ads of the group are admissible at the clock. */
module Rotation {
  import opened Types
  import opened Schedule

  /** Which ads of `s` are admissible at `now`, position by position. */
  function Marks(s: seq<Ad>, now: Now): (m: seq<bool>)
    ensures |m| == |s|
  {
    if |s| == 0 then [] else Marks(s[..|s| - 1], now) + [Admissible(s[|s| - 1], now)]
  }

  /** Position `j` of the marks is set exactly when ad `j` is admissible. */
  lemma {:induction false} MarksMeaning(s: seq<Ad>, now: Now)
    ensures forall j :: 0 <= j < |s| ==> (Marks(s, now)[j] <==> Admissible(s[j], now))
  {
    if |s| > 0 {
      var p := s[..|s| - 1];
      MarksMeaning(p, now);
      forall j | 0 <= j < |s|
        ensures Marks(s, now)[j] <==> Admissible(s[j], now)
      {
        if j < |s| - 1 {
          assert s[j] == p[j];
        }
      }
    }
  }

  /** The same, for one position. */
  lemma MarkAt(s: seq<Ad>, now: Now, j: int)
    requires 0 <= j < |s|
    ensures Marks(s, now)[j] <==> Admissible(s[j], now)
  {
    MarksMeaning(s, now);
  }

  /** The least marked index `j` with `lo <= j < |m|`, or -1 when there is
      none; there is no wrap-around. */
  function FirstMarked(m: seq<bool>, lo: nat): (r: int)
    ensures r == -1 || (lo <= r < |m| && m[r])
    ensures r == -1 ==> forall j :: lo <= j < |m| ==> !m[j]
    ensures r != -1 ==> forall j :: lo <= j < r ==> !m[j]
    decreases |m| - lo
  {
    if lo >= |m| then -1
    else if m[lo] then lo
    else FirstMarked(m, lo + 1)
  }

  /** JavaScript `x || y` on numbers: `x` unless it is 0. */
  function NumberOr(x: int, y: int): int {
    if x != 0 then x else y
  }

  /** Array `findIndex` with the admissibility test, from position `from`:
      the first position whose ad is admissible, or -1. */
  function FindAdmissible(s: seq<Ad>, now: Now, from: nat): int
    decreases |s| - from
  {
    if from >= |s| then -1
    else if CanPlayToday(Some(s[from]), now) && CanPlayNow(Some(s[from]), now) then from
    else FindAdmissible(s, now, from + 1)
  }

  /** `findIndex` agrees with the first marked position. */
  lemma {:induction false} FindIsFirstMarked(s: seq<Ad>, now: Now, from: nat)
    ensures FindAdmissible(s, now, from) == FirstMarked(Marks(s, now), from)
    decreases |s| - from
  {
    if from < |s| {
      MarkAt(s, now, from);
      FindIsFirstMarked(s, now, from + 1);
    }
  }

  /** The initial index, `findIndex(...) || 0`: exactly the first admissible
      index, or -1; the `|| 0` never changes it. */
  function InitialIndex(s: seq<Ad>, now: Now): (r: int)
    ensures r == FirstMarked(Marks(s, now), 0)
    ensures r == -1 <==> forall j :: 0 <= j < |s| ==> !Admissible(s[j], now)
    ensures r != -1 ==> 0 <= r < |s| && Admissible(s[r], now)
                        && forall j :: 0 <= j < r ==> !Admissible(s[j], now)
  {
    FindIsFirstMarked(s, now, 0);
    MarksMeaning(s, now);
    NumberOr(FindAdmissible(s, now, 0), 0)
  }

  /** Where a forward scan that found `next` stopped looking. */
  function ScanEnd(s: seq<Ad>, next: int): int {
    if next == -1 then |s| else next
  }

  /** The `skipped` logs for the ads at indices `lo` up to `hi`, in order. */
  function SkipLogs(s: seq<Ad>, lo: int, hi: int): (r: seq<LogEvent>)
    requires 0 <= lo <= hi <= |s|
    ensures |r| == hi - lo
    ensures forall k :: 0 <= k < |r| ==> r[k] == LogFor(s[lo + k], Skipped)
  {
    seq(hi - lo, k requires 0 <= k < hi - lo => LogFor(s[lo + k], Skipped))
  }

  /** The body of moveToNextAd's state updater: scan forward from `prev`,
      logging every ad passed over, and stop at the next admissible one.
      `adNotActive` never excuses an ad from the log. */
  method ScanForward(s: seq<Ad>, prev: int, now: Now) returns (next: int, skipped: seq<LogEvent>)
    requires 0 <= prev < |s|
    ensures next == FirstMarked(Marks(s, now), prev + 1)
    ensures skipped == SkipLogs(s, prev + 1, ScanEnd(s, next))
  {
    var nextIndex := prev + 1;
    skipped := [];
    while nextIndex < |s|
      invariant prev + 1 <= nextIndex <= |s|
      invariant forall j :: prev < j < nextIndex ==> !Admissible(s[j], now)
      invariant |skipped| == nextIndex - (prev + 1)
      invariant forall k :: 0 <= k < |skipped| ==> skipped[k] == LogFor(s[prev + 1 + k], Skipped)
    {
      var ad := s[nextIndex];
      if CanPlayToday(Some(ad), now) && CanPlayNow(Some(ad), now) {
        ScanForwardSpec(s, prev, now, nextIndex, skipped);
        return nextIndex, skipped;
      }
      if !Truthy(NotActive(Some(ad), now)) {
        skipped := skipped + [LogFor(ad, Skipped)];
      }
      nextIndex := nextIndex + 1;
    }
    ScanForwardSpec(s, prev, now, -1, skipped);
    return -1, skipped;
  }

  /** What a forward scan's contract pins down: the next index is the first
      marked one after `prev`, and the skips are those of the ads between. */
  lemma ScanForwardSpec(s: seq<Ad>, prev: int, now: Now, next: int, skipped: seq<LogEvent>)
    requires 0 <= prev < |s|
    requires next == -1 || (prev < next < |s| && Admissible(s[next], now))
    requires forall j :: prev < j < ScanEnd(s, next) ==> !Admissible(s[j], now)
    requires |skipped| == ScanEnd(s, next) - (prev + 1)
    requires forall k :: 0 <= k < |skipped| ==> skipped[k] == LogFor(s[prev + 1 + k], Skipped)
    ensures next == FirstMarked(Marks(s, now), prev + 1)
    ensures skipped == SkipLogs(s, prev + 1, ScanEnd(s, next))
  {
    MarksMeaning(s, now);
  }

  /** The logs one pass emits from index `i` on when every event sees the
      same marks: the play log of `s[i]` if it is marked, the skips up to the
      next marked index, and the rest of the pass from there. */
  function PassTrace(s: seq<Ad>, m: seq<bool>, i: int): seq<LogEvent>
    requires |m| == |s| && -1 <= i < |s|
    decreases if i < 0 then 0 else |s| - i
  {
    if i == -1 then []
    else
      var n := FirstMarked(m, i + 1);
      (if m[i] then [LogFor(s[i], Play)] else [])
      + SkipLogs(s, i + 1, ScanEnd(s, n)) + PassTrace(s, m, n)
  }

  /** One step of a pass: what PassTrace unfolds to at an index on screen. */
  lemma PassTraceUnfold(s: seq<Ad>, m: seq<bool>, i: int)
    requires |m| == |s| && 0 <= i < |s|
    ensures var n := FirstMarked(m, i + 1);
            PassTrace(s, m, i)
            == (if m[i] then [LogFor(s[i], Play)] else [])
               + (SkipLogs(s, i + 1, ScanEnd(s, n)) + PassTrace(s, m, n))
  {
  }

  /** The log of every ad from index `lo` to the end, `play` for the marked
      ones and `skipped` for the others. */
  function Tags(s: seq<Ad>, m: seq<bool>, lo: int): (r: seq<LogEvent>)
    requires |m| == |s| && 0 <= lo <= |s|
    ensures |r| == |s| - lo
  {
    seq(|s| - lo, k requires 0 <= k < |s| - lo =>
      LogFor(s[lo + k], if m[lo + k] then Play else Skipped))
  }

  /** The rest of a pass from `i` logs every later ad once, in order: `play`
      if marked, `skipped` otherwise. */
  lemma {:induction false} PassTraceTags(s: seq<Ad>, m: seq<bool>, i: int)
    requires |m| == |s| && 0 <= i < |s|
    ensures PassTrace(s, m, i)
            == (if m[i] then [LogFor(s[i], Play)] else []) + Tags(s, m, i + 1)
    decreases |s| - i
  {
    var n := FirstMarked(m, i + 1);
    PassTraceUnfold(s, m, i);
    if n == -1 {
      TagsSkipsTo(s, m, i + 1, |s|);
      assert Tags(s, m, |s|) == [];
    } else {
      PassTraceTags(s, m, n);
      TagsSkipsTo(s, m, i + 1, n);
      TagsPlayAt(s, m, n);
      var skips := SkipLogs(s, i + 1, n);
      var play := [LogFor(s[n], Play)];
      assert Tags(s, m, i + 1) == skips + (play + Tags(s, m, n + 1));
      assert PassTrace(s, m, n) == play + Tags(s, m, n + 1);
    }
  }

  /** At a marked position the tags start with its play log. */
  lemma TagsPlayAt(s: seq<Ad>, m: seq<bool>, n: int)
    requires |m| == |s| && 0 <= n < |s| && m[n]
    ensures Tags(s, m, n) == [LogFor(s[n], Play)] + Tags(s, m, n + 1)
  {
  }

  /** Where no position in `lo..hi` is marked, the tags there are all
      skips. */
  lemma TagsSkipsTo(s: seq<Ad>, m: seq<bool>, lo: int, hi: int)
    requires |m| == |s| && 0 <= lo <= hi <= |s|
    requires forall j :: lo <= j < hi ==> !m[j]
    ensures Tags(s, m, lo) == SkipLogs(s, lo, hi) + Tags(s, m, hi)
  {
    var t := Tags(s, m, lo);
    var u := SkipLogs(s, lo, hi) + Tags(s, m, hi);
    assert |t| == |u|;
    forall k | 0 <= k < |t|
      ensures t[k] == u[k]
    {
      if k < hi - lo {
        assert !m[lo + k];
      }
    }
  }

  /** A whole pass at a fixed clock, from mount to completion: the ads before
      the first admissible one are never logged; from it on every ad is
      logged once, `play` if admissible and `skipped` if not. With no
      admissible ad there is no log at all. */
  lemma FullPassTrace(s: seq<Ad>, now: Now)
    ensures InitialIndex(s, now) == -1 ==> PassTrace(s, Marks(s, now), -1) == []
    ensures InitialIndex(s, now) != -1 ==>
              PassTrace(s, Marks(s, now), InitialIndex(s, now))
              == Tags(s, Marks(s, now), InitialIndex(s, now))
  {
    var m := Marks(s, now);
    var i := InitialIndex(s, now);
    if i != -1 {
      PassTraceTags(s, m, i);
      assert Tags(s, m, i) == [LogFor(s[i], Play)] + Tags(s, m, i + 1);
    }
  }

  /** The logs the rest of a pass sends from index `i` if every later event
      sees the same marks; `armed` says the play log of `s[i]` has been sent
      and its timer is running. */
  function RemainingFrom(s: seq<Ad>, m: seq<bool>, i: int, armed: bool): seq<LogEvent>
    requires |m| == |s| && -1 <= i < |s| && (armed ==> 0 <= i)
  {
    if armed then
      var n := FirstMarked(m, i + 1);
      SkipLogs(s, i + 1, ScanEnd(s, n)) + PassTrace(s, m, n)
    else PassTrace(s, m, i)
  }

  /** Playing a marked ad sends its play log and leaves the rest. */
  lemma PlayStep(s: seq<Ad>, m: seq<bool>, i: int)
    requires |m| == |s| && 0 <= i < |s| && m[i]
    ensures RemainingFrom(s, m, i, false) == [LogFor(s[i], Play)] + RemainingFrom(s, m, i, true)
  {
    PassTraceUnfold(s, m, i);
  }

  /** Moving on from `i` once its play log was sent sends the skips up to
      the next marked index and leaves the rest of the pass from there. */
  lemma MoveStep(s: seq<Ad>, m: seq<bool>, i: int)
    requires |m| == |s| && 0 <= i < |s|
    ensures var n := FirstMarked(m, i + 1);
            RemainingFrom(s, m, i, true)
            == SkipLogs(s, i + 1, ScanEnd(s, n)) + RemainingFrom(s, m, n, false)
  {
  }

  /** At an index that is not marked, nothing is on screen to play, so the
      rest of the pass is the same whether or not its play log was sent. */
  lemma UnmarkedArmedSame(s: seq<Ad>, m: seq<bool>, i: int)
    requires |m| == |s| && 0 <= i < |s| && !m[i]
    ensures RemainingFrom(s, m, i, false) == RemainingFrom(s, m, i, true)
  {
    PassTraceUnfold(s, m, i);
  }

  /** Sending a play log at a marked index leaves the rest of the pass
      still to be sent. */
  lemma AfterPlay(s: seq<Ad>, m: seq<bool>, logs: seq<LogEvent>, i: int)
    requires |m| == |s| && 0 <= i < |s| && m[i]
    ensures (logs + [LogFor(s[i], Play)]) + RemainingFrom(s, m, i, true)
            == logs + RemainingFrom(s, m, i, false)
  {
    PlayStep(s, m, i);
    assert (logs + [LogFor(s[i], Play)]) + RemainingFrom(s, m, i, true)
           == logs + ([LogFor(s[i], Play)] + RemainingFrom(s, m, i, true));
  }

  /** Moving on from `i`, after its play or from an unmarked index, sends
      the skips to the next marked index and leaves the rest of the pass
      from there still to be sent. */
  lemma AfterMove(s: seq<Ad>, m: seq<bool>, logs: seq<LogEvent>, i: int, armed: bool)
    requires |m| == |s| && 0 <= i < |s| && (armed || !m[i])
    ensures var n := FirstMarked(m, i + 1);
            (logs + SkipLogs(s, i + 1, ScanEnd(s, n))) + RemainingFrom(s, m, n, false)
            == logs + RemainingFrom(s, m, i, armed)
  {
    var n := FirstMarked(m, i + 1);
    MoveStep(s, m, i);
    if !armed {
      UnmarkedArmedSame(s, m, i);
    }
    assert (logs + SkipLogs(s, i + 1, ScanEnd(s, n))) + RemainingFrom(s, m, n, false)
           == logs + (SkipLogs(s, i + 1, ScanEnd(s, n)) + RemainingFrom(s, m, n, false));
  }

  /** One PlayerView: the ads of its group, the index on screen
      (`currentAdIndex`), the logs sent through `sendLog`, and the delay of
      the armed timer, if any. `onComplete` is reported by Effect's result.
      The group can change under a mounted view, which keeps its index. */
  class PlayerView {
    var sequence: seq<Ad>
    var currentAdIndex: int
    var logs: seq<LogEvent>
    var timer: Option<int>

    ghost predicate Valid()
      reads this
    {
      -1 <= currentAdIndex && (timer.Some? ==> 0 <= currentAdIndex < |sequence|)
    }

    /** Mounting: the initial index is the first admissible ad at `now`. */
    constructor (sequence: seq<Ad>, now: Now)
      ensures Valid()
      ensures this.sequence == sequence && logs == [] && timer == None
      ensures currentAdIndex == InitialIndex(sequence, now)
    {
      this.sequence := sequence;
      currentAdIndex := InitialIndex(sequence, now);
      logs := [];
      timer := None;
    }

    /** moveToNextAd: the index becomes the next admissible one after it, or
        -1; every ad passed over is logged `skipped`. */
    method MoveToNextAd(now: Now)
      requires Valid() && 0 <= currentAdIndex < |sequence| && timer == None
      modifies this
      ensures Valid() && timer == None && sequence == old(sequence)
      ensures currentAdIndex == FirstMarked(Marks(sequence, now), old(currentAdIndex) + 1)
      ensures logs == old(logs) + SkipLogs(sequence, old(currentAdIndex) + 1, ScanEnd(sequence, currentAdIndex))
    {
      var next, skipped := ScanForward(sequence, currentAdIndex, now);
      currentAdIndex := next;
      logs := logs + skipped;
    }

    /** The effect that runs after every change of the index or of the
        group (and after any other change of its dependencies). The previous
        run's timer is cleared first. An admissible ad on screen is logged
        `play` and its timer armed for `duration * 1000` ms; an inadmissible
        one is moved past without a log of its own; an index that is -1 or
        past the end of the group calls `onComplete` and stays as it is. */
    method Effect(now: Now) returns (completed: bool)
      requires Valid()
      modifies this
      ensures Valid() && sequence == old(sequence)
      ensures completed <==> old(currentAdIndex) == -1 || old(currentAdIndex) >= |sequence|
      ensures completed ==> currentAdIndex == old(currentAdIndex) && logs == old(logs) && timer == None
      ensures 0 <= old(currentAdIndex) < |sequence| && Admissible(sequence[old(currentAdIndex)], now) ==>
                && currentAdIndex == old(currentAdIndex)
                && logs == old(logs) + [LogFor(sequence[currentAdIndex], Play)]
                && timer == Some(sequence[currentAdIndex].adConfiguration.duration * 1000)
      ensures 0 <= old(currentAdIndex) < |sequence| && !Admissible(sequence[old(currentAdIndex)], now) ==>
                && timer == None
                && currentAdIndex == FirstMarked(Marks(sequence, now), old(currentAdIndex) + 1)
                && logs == old(logs) + SkipLogs(sequence, old(currentAdIndex) + 1, ScanEnd(sequence, currentAdIndex))
    {
      timer := None;
      completed := false;
      if 0 <= currentAdIndex < |sequence| {
        var adToPlay := sequence[currentAdIndex];
        if !Truthy(NotActive(Some(adToPlay), now))
           && CanPlayToday(Some(adToPlay), now) && CanPlayNow(Some(adToPlay), now) {
          logs := logs + [LogFor(adToPlay, Play)];
          timer := Some(adToPlay.adConfiguration.duration * 1000);
        } else {
          MoveToNextAd(now);
        }
      } else {
        completed := true;
      }
    }

    /** The armed timer fires: it calls moveToNextAd. */
    method TimerFires(now: Now)
      requires Valid() && timer.Some?
      modifies this
      ensures Valid() && timer == None && sequence == old(sequence)
      ensures currentAdIndex == FirstMarked(Marks(sequence, now), old(currentAdIndex) + 1)
      ensures logs == old(logs) + SkipLogs(sequence, old(currentAdIndex) + 1, ScanEnd(sequence, currentAdIndex))
    {
      timer := None;
      MoveToNextAd(now);
    }

    /** One event of a pass at a fixed clock with a timer armed: it fires.
        What has been sent plus what the pass still has to send does not
        change, and there is one event fewer left. */
    method FireStep(now: Now)
      requires Valid() && currentAdIndex < |sequence| && timer.Some?
      modifies this
      ensures Valid() && sequence == old(sequence) && currentAdIndex < |sequence| && timer == None
      ensures logs + RemainingFrom(sequence, Marks(sequence, now), currentAdIndex, false)
              == old(logs) + RemainingFrom(sequence, Marks(sequence, now), old(currentAdIndex), true)
      ensures EventsLeft(|sequence|, currentAdIndex, false) < EventsLeft(|sequence|, old(currentAdIndex), true)
    {
      ghost var i := currentAdIndex;
      ghost var before := logs;
      TimerFires(now);
      AfterMove(sequence, Marks(sequence, now), before, i, true);
    }

    /** One event of a pass at a fixed clock with no timer armed: the
        effect runs. What has been sent plus what the pass still has to send
        does not change, and unless the view reports completion there is one
        event fewer left. */
    method EffectStep(now: Now) returns (done: bool)
      requires Valid() && currentAdIndex < |sequence| && timer == None
      modifies this
      ensures Valid() && sequence == old(sequence) && currentAdIndex < |sequence|
      ensures done ==> currentAdIndex == -1 && timer == None
      ensures logs + RemainingFrom(sequence, Marks(sequence, now), currentAdIndex, timer.Some?)
              == old(logs) + RemainingFrom(sequence, Marks(sequence, now), old(currentAdIndex), false)
      ensures !done ==> EventsLeft(|sequence|, currentAdIndex, timer.Some?)
                        < EventsLeft(|sequence|, old(currentAdIndex), false)
    {
      ghost var m := Marks(sequence, now);
      ghost var i := currentAdIndex;
      ghost var before := logs;
      done := Effect(now);
      if i >= 0 {
        MarkAt(sequence, now, i);
        if m[i] {
          AfterPlay(sequence, m, before, i);
        } else {
          AfterMove(sequence, m, before, i, false);
        }
      }
    }

    /** The group behind a mounted view changes (PlayerList keys its views
        by position): the index is kept, the old timer is cleared and the
        effect runs again on the new group. An index now past its end
        reports completion with no log; one that now points at an
        admissible ad plays it without a scan. */
    method SetSequence(group: seq<Ad>, now: Now) returns (completed: bool)
      requires Valid()
      modifies this
      ensures Valid() && sequence == group
      ensures completed <==> old(currentAdIndex) == -1 || old(currentAdIndex) >= |group|
      ensures completed ==> currentAdIndex == old(currentAdIndex) && logs == old(logs) && timer == None
      ensures 0 <= old(currentAdIndex) < |group| && Admissible(group[old(currentAdIndex)], now) ==>
                && currentAdIndex == old(currentAdIndex)
                && logs == old(logs) + [LogFor(group[currentAdIndex], Play)]
                && timer == Some(group[currentAdIndex].adConfiguration.duration * 1000)
      ensures 0 <= old(currentAdIndex) < |group| && !Admissible(group[old(currentAdIndex)], now) ==>
                && timer == None
                && currentAdIndex == FirstMarked(Marks(group, now), old(currentAdIndex) + 1)
                && logs == old(logs) + SkipLogs(group, old(currentAdIndex) + 1, ScanEnd(group, currentAdIndex))
    {
      sequence := group;
      timer := None;
      completed := Effect(now);
    }
  }

  /** The number of events left in a pass: two per index still ahead, one
      fewer once the ad on screen has been played. */
  function EventsLeft(size: int, i: int, armed: bool): nat {
    if i < 0 || size <= i then 0 else 2 * (size - i) - (if armed then 1 else 0)
  }

  /** A whole pass of one mounted view at a fixed clock: the effect and the
      timer take turns until the view reports completion. The logs sent
      are the pass trace from the initial index, so, by FullPassTrace, every
      ad from the first admissible one on is logged once, `play` if
      admissible and `skipped` if not, and nothing when none is. */
  method PlayPass(s: seq<Ad>, now: Now) returns (logs: seq<LogEvent>)
    ensures logs == PassTrace(s, Marks(s, now), InitialIndex(s, now))
    ensures InitialIndex(s, now) == -1 ==> logs == []
    ensures InitialIndex(s, now) != -1 ==> logs == Tags(s, Marks(s, now), InitialIndex(s, now))
  {
    ghost var m := Marks(s, now);
    ghost var i0 := InitialIndex(s, now);
    var v := new PlayerView(s, now);
    assert v.logs + RemainingFrom(s, m, i0, false) == PassTrace(s, m, i0);
    var done := false;
    while !done
      invariant v.Valid() && v.sequence == s && v.currentAdIndex < |s|
      invariant done ==> v.currentAdIndex == -1 && v.timer == None
      invariant v.logs + RemainingFrom(s, m, v.currentAdIndex, v.timer.Some?) == PassTrace(s, m, i0)
      decreases !done, EventsLeft(|s|, v.currentAdIndex, v.timer.Some?)
    {
      if v.timer.Some? {
        v.FireStep(now);
      } else {
        done := v.EffectStep(now);
      }
    }
    logs := v.logs;
    assert logs + [] == logs;
    FullPassTrace(s, now);
  }
}
