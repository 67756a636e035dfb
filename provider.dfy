/** The ad provider: it pulls the campaign list over HTTP (fetchAds) or
    receives it on the push channel (setReceivedAds), makes every ad's
    media local through the cache, persists the `{ads, screen}` snapshot,
    falls back to the persisted snapshot when the pull fails, and retries
    the pull every ten seconds. */
module AdContext {
  import opened Types
  import opened Cache
  import opened Classify

  /** The delay of the retry scheduled after every failed pull, in ms. */
  const RetryDelay := 10000

  /** What the HTTP pull gives: a parsed payload, or a failure (the request
      failed, the response was not ok, or its body did not parse). */
  datatype FetchOutcome = Fetched(payload: Payload) | FetchFailed

  /** The `adUrl` of every ad, in order. */
  function MediaUrls(ads: seq<Ad>): (r: seq<Option<string>>)
    ensures |r| == |ads| && forall i :: 0 <= i < |ads| ==> r[i] == ads[i].adUrl
  {
    seq(|ads|, i requires 0 <= i < |ads| => ads[i].adUrl)
  }

  /** `cachedUrls[index]`, which is `undefined` past the end. */
  function CachedAt(cached: seq<string>, i: int): Option<string> {
    if 0 <= i < |cached| then Some(cached[i]) else None
  }

  /** The push path's rewrite: `{...ad, adUrl: cachedUrls[index]}`. */
  function WithCachedUris(ads: seq<Ad>, cached: seq<string>): (r: seq<Ad>)
    ensures |r| == |ads|
  {
    seq(|ads|, i requires 0 <= i < |ads| => ads[i].(adUrl := CachedAt(cached, i)))
  }

  /** The pull path's rewrite: `{...ad, remoteUrl: ad.adUrl, adUrl: cachedUrls[index]}`. */
  function WithRemoteAndCachedUris(ads: seq<Ad>, cached: seq<string>): (r: seq<Ad>)
    ensures |r| == |ads|
  {
    seq(|ads|, i requires 0 <= i < |ads| => ads[i].(remoteUrl := ads[i].adUrl, adUrl := CachedAt(cached, i)))
  }

  /** After a successful pass the push path points every ad at its local
      file and keeps its `remoteUrl` (it does not set one); after a failed
      pass, which yields `[]`, every `adUrl` is undefined. */
  lemma PushRewrite(dir: string, ads: seq<Ad>, d: Disk)
    ensures var p := Pass(dir, MediaUrls(ads), d);
            var cached := if p.ok then p.paths else [];
            var r := WithCachedUris(ads, cached);
            && (forall i :: 0 <= i < |ads| ==> r[i].remoteUrl == ads[i].remoteUrl)
            && (forall i :: 0 <= i < |ads| ==> r[i].(adUrl := ads[i].adUrl) == ads[i])
            && (p.ok ==> forall i :: 0 <= i < |ads| ==>
                           ads[i].adUrl.Some? && r[i].adUrl == Some(LocalPath(dir, ads[i].adUrl.value)))
            && (!p.ok ==> forall i :: 0 <= i < |ads| ==> r[i].adUrl.None?)
  {
    PassSucceeds(dir, MediaUrls(ads), d);
  }

  /** After caching, the pull path keeps each ad's original URL as its
      `remoteUrl` and points `adUrl` at the local file. */
  lemma PullRewrite(dir: string, ads: seq<Ad>, cached: seq<string>)
    requires AllDefined(MediaUrls(ads)) && cached == LocalPaths(dir, MediaUrls(ads))
    ensures var r := WithRemoteAndCachedUris(ads, cached);
            forall i :: 0 <= i < |ads| ==>
              && r[i].remoteUrl == ads[i].adUrl
              && r[i].adUrl == Some(LocalPath(dir, ads[i].adUrl.value))
              && r[i].adId == ads[i].adId && r[i].adConfiguration == ads[i].adConfiguration
    ensures var r := WithRemoteAndCachedUris(ads, cached);
            forall i :: 0 <= i < |ads| ==> r[i].(remoteUrl := ads[i].remoteUrl, adUrl := ads[i].adUrl) == ads[i]
  {
  }

  /** Whether a failed pull substitutes the persisted snapshot: storage has
      loaded, it holds an item, and the snapshot is not already in use. */
  predicate Substitutes(loaded: bool, hasItem: bool, usingLocal: bool) {
    loaded && hasItem && !usingLocal
  }

  /** How many of a run of failed pulls substitute the snapshot, starting
      with the `alreadyUsingLocal` flag `usingLocal`; `loaded` and
      `hasItem` give storage's state at each failure. */
  function Substitutions(loaded: seq<bool>, hasItem: seq<bool>, usingLocal: bool): nat
    requires |loaded| == |hasItem|
    decreases |loaded|
  {
    if |loaded| == 0 then 0
    else
      var s := Substitutes(loaded[0], hasItem[0], usingLocal);
      (if s then 1 else 0) + Substitutions(loaded[1..], hasItem[1..], usingLocal || s)
  }

  /** Between two successful pulls the snapshot is substituted at most
      once, and not at all once it is in use. */
  lemma {:induction false} AtMostOneSubstitution(loaded: seq<bool>, hasItem: seq<bool>, usingLocal: bool)
    requires |loaded| == |hasItem|
    ensures Substitutions(loaded, hasItem, usingLocal) <= 1
    ensures usingLocal ==> Substitutions(loaded, hasItem, usingLocal) == 0
    decreases |loaded|
  {
    if |loaded| > 0 {
      AtMostOneSubstitution(loaded[1..], hasItem[1..], true);
      AtMostOneSubstitution(loaded[1..], hasItem[1..], usingLocal);
    }
  }

  /** Once storage has loaded with an item, the first failure in a run
      without a snapshot in use does substitute it. */
  lemma FirstFailureSubstitutes(n: nat)
    requires n >= 1
    ensures Substitutions(seq(n, _ => true), seq(n, _ => true), false) == 1
  {
    var t := seq(n, _ => true);
    assert t[1..] == seq(n - 1, _ => true);
    AtMostOneSubstitution(t[1..], t[1..], true);
  }

  /** The provider's state. `item` is the snapshot storage holds (the hook
      keeps the same value in memory), `loaded` whether the hook has read
      it, and `retry` the delay of the pending retry timer, if any. */
  class AdProvider {
    const device: Device
    const documentDirectory: string
    var ads: seq<Ad>
    var screenConfig: ScreenConfig
    var adsLoading: bool
    var adsBackgroundLoading: bool
    var request: bool
    var safeToPlay: bool
    var adsFetchFromApi: bool
    var item: Option<Snapshot>
    var loaded: bool
    var alreadyUsingLocal: bool
    var retry: Option<int>

    constructor (device: Device, documentDirectory: string)
      ensures this.device == device && this.documentDirectory == documentDirectory
      ensures ads == [] && screenConfig == EmptyScreenConfig
      ensures !adsLoading && !adsBackgroundLoading && !request && !safeToPlay && !adsFetchFromApi
      ensures item == None && !loaded && !alreadyUsingLocal && retry == None
    {
      this.device := device;
      this.documentDirectory := documentDirectory;
      ads := [];
      screenConfig := EmptyScreenConfig;
      adsLoading := false;
      adsBackgroundLoading := false;
      request := false;
      safeToPlay := false;
      adsFetchFromApi := false;
      item := None;
      loaded := false;
      alreadyUsingLocal := false;
      retry := None;
    }

    /** The groups and widgets filteredAds derives from `ads`. */
    function AdGroups(): seq<seq<Ad>>
      reads this
    {
      FilteredAds(ads).adGroups
    }

    function Widgets(): seq<Ad>
      reads this
    {
      FilteredAds(ads).widgets
    }

    /** The storage hook finished reading: `item` is what it held (None for
        nothing stored), and `loaded` is set. */
    method StorageLoaded(value: Option<Snapshot>)
      modifies this
      ensures item == value && loaded
      ensures ads == old(ads) && screenConfig == old(screenConfig) && alreadyUsingLocal == old(alreadyUsingLocal)
      ensures safeToPlay == old(safeToPlay) && request == old(request) && retry == old(retry)
      ensures adsLoading == old(adsLoading) && adsBackgroundLoading == old(adsBackgroundLoading)
      ensures adsFetchFromApi == old(adsFetchFromApi)
    {
      item := value;
      loaded := true;
    }

    /** cacheAdsInBackground: one pass with `adsBackgroundLoading` set for
        its duration; the local paths on success and `[]` when the pass
        raised. */
    method CacheAdsInBackground(urls: seq<Option<string>>) returns (paths: seq<string>)
      modifies this, device
      ensures var p := Pass(documentDirectory, urls, old(device.State()));
              && device.State() == p.disk
              && paths == (if p.ok then p.paths else [])
      ensures !adsBackgroundLoading
      ensures ads == old(ads) && screenConfig == old(screenConfig) && item == old(item)
      ensures loaded == old(loaded) && alreadyUsingLocal == old(alreadyUsingLocal)
      ensures safeToPlay == old(safeToPlay) && request == old(request) && retry == old(retry)
      ensures adsLoading == old(adsLoading) && adsFetchFromApi == old(adsFetchFromApi)
    {
      adsBackgroundLoading := true;
      var ok, localPaths := RunPass(documentDirectory, urls, device);
      adsBackgroundLoading := false;
      if ok {
        paths := localPaths;
      } else {
        paths := [];
      }
    }

    /** cacheAds: passes over the whole list with `adsLoading` set until one
        gets through; it returns the local path of every URL, in order, and
        all of them exist afterwards. */
    method CacheAds(urls: seq<Option<string>>) returns (paths: seq<string>)
      requires AllDefined(urls)
      modifies this, device
      ensures var r := RetryUntilCached(documentDirectory, urls, old(device.State()));
              device.State() == r.disk && paths == r.paths
      ensures paths == LocalPaths(documentDirectory, urls)
      ensures forall k :: 0 <= k < |urls| ==> LocalPath(documentDirectory, urls[k].value) in device.files
      ensures !adsLoading
      ensures ads == old(ads) && screenConfig == old(screenConfig) && item == old(item)
      ensures loaded == old(loaded) && alreadyUsingLocal == old(alreadyUsingLocal)
      ensures safeToPlay == old(safeToPlay) && request == old(request) && retry == old(retry)
      ensures adsBackgroundLoading == old(adsBackgroundLoading) && adsFetchFromApi == old(adsFetchFromApi)
      decreases |device.outcomes|
    {
      ghost var d0 := device.State();
      FailureUsesAnOutcome(documentDirectory, urls, d0);
      adsLoading := true;
      var ok, localPaths := RunPass(documentDirectory, urls, device);
      adsLoading := false;
      if ok {
        paths := localPaths;
      } else {
        paths := CacheAds(urls);
      }
    }

    /** setReceivedAds: a pushed payload. With no `data[0]` it raises before
        its `try` and nothing changes. Otherwise the media are cached in the
        background and the ads, rewritten with the cached paths, replace the
        current ones, are persisted with the pushed configuration, and are
        safe to play. */
    method SetReceivedAds(payload: Payload)
      modifies this, device
      ensures |payload.data| == 0 ==>
                && ads == old(ads) && screenConfig == old(screenConfig) && item == old(item)
                && safeToPlay == old(safeToPlay) && device.State() == old(device.State())
                && adsBackgroundLoading == old(adsBackgroundLoading)
      ensures |payload.data| > 0 ==>
                var campaigns := payload.data[0].campaigns;
                var p := Pass(documentDirectory, MediaUrls(campaigns), old(device.State()));
                && device.State() == p.disk
                && ads == WithCachedUris(campaigns, if p.ok then p.paths else [])
                && item == Some(Snapshot(ads, payload.config))
                && screenConfig == payload.config
                && safeToPlay && !adsBackgroundLoading
      ensures loaded == old(loaded) && alreadyUsingLocal == old(alreadyUsingLocal)
      ensures request == old(request) && retry == old(retry)
      ensures adsLoading == old(adsLoading) && adsFetchFromApi == old(adsFetchFromApi)
    {
      if |payload.data| == 0 {
        return;
      }
      var config := payload.config;
      var campaigns := payload.data[0].campaigns;
      var cachedUrls := CacheAdsInBackground(MediaUrls(campaigns));
      var adsWithCachedUris := WithCachedUris(campaigns, cachedUrls);
      ads := adsWithCachedUris;
      item := Some(Snapshot(adsWithCachedUris, config));
      screenConfig := config;
      safeToPlay := true;
    }

    /** The catch branch of fetchAds: the persisted snapshot is used if
        Substitutes says so, and a retry is always scheduled. */
    method FetchFailedBranch() returns (substituted: bool)
      modifies this
      ensures substituted <==> Substitutes(old(loaded), old(item).Some?, old(alreadyUsingLocal))
      ensures substituted ==>
                && ads == old(item).value.ads && screenConfig == old(item).value.screen
                && alreadyUsingLocal && request && safeToPlay
      ensures !substituted ==>
                && ads == old(ads) && screenConfig == old(screenConfig)
                && alreadyUsingLocal == old(alreadyUsingLocal)
                && request == old(request) && safeToPlay == old(safeToPlay)
      ensures retry == Some(RetryDelay)
      ensures item == old(item) && loaded == old(loaded)
      ensures adsLoading == old(adsLoading) && adsBackgroundLoading == old(adsBackgroundLoading)
      ensures adsFetchFromApi == old(adsFetchFromApi)
    {
      substituted := false;
      if loaded && item.Some? && !alreadyUsingLocal {
        alreadyUsingLocal := true;
        ads := item.value.ads;
        screenConfig := item.value.screen;
        request := true;
        safeToPlay := true;
        substituted := true;
      }
      retry := Some(RetryDelay);
    }

    /** The success branch of fetchAds: the media are cached, retrying until
        they are, and the rewritten ads are shown and persisted. */
    method AdoptPulled(campaigns: seq<Ad>, config: ScreenConfig)
      requires AllDefined(MediaUrls(campaigns))
      modifies this, device
      ensures ads == WithRemoteAndCachedUris(campaigns, LocalPaths(documentDirectory, MediaUrls(campaigns)))
      ensures item == Some(Snapshot(ads, config)) && screenConfig == config
      ensures device.State() == RetryUntilCached(documentDirectory, MediaUrls(campaigns), old(device.State())).disk
      ensures safeToPlay && !adsFetchFromApi && !alreadyUsingLocal && !adsLoading
      ensures request == old(request) && retry == old(retry) && loaded == old(loaded)
      ensures adsBackgroundLoading == old(adsBackgroundLoading)
    {
      var cachedUrls := CacheAds(MediaUrls(campaigns));
      var adsWithCachedUris := WithRemoteAndCachedUris(campaigns, cachedUrls);
      ads := adsWithCachedUris;
      item := Some(Snapshot(adsWithCachedUris, config));
      screenConfig := config;
      safeToPlay := true;
      adsFetchFromApi := false;
      alreadyUsingLocal := false;
    }

    /** fetchAds. `inFlight` is the `adsFetchFromApi` value the calling
        closure captured: when it is set nothing happens. Otherwise `retry`
        is cleared and the pull's outcome is handled. `fetchTimeout` is a
        fresh `let` on every render, captured by the closure, so the
        `clearTimeout` can only reach the closure's own timer, which has
        already fired when a retry runs: clearing `retry` records that fired
        timer and never cancels a retry pending from another render. On a payload with
        `data[0]` whose every ad has a URL, the media are cached (retrying
        until they are), each ad keeps its original URL as `remoteUrl` and
        points `adUrl` at the local file, the ads and configuration are
        persisted and shown, and the snapshot-in-use flag is cleared. A
        payload without `data[0]` (after `request` is set) and a failed pull
        take the catch branch. A payload with an ad without URL makes cacheAds
        retry for ever; the call then stops with `request` set. */
    method FetchAds(inFlight: bool, outcome: FetchOutcome) returns (substituted: bool)
      modifies this, device
      ensures inFlight ==> !substituted && unchanged(this) && device.State() == old(device.State())
      ensures !inFlight && outcome.Fetched? && |outcome.payload.data| > 0
              && AllDefined(MediaUrls(outcome.payload.data[0].campaigns)) ==>
                var campaigns := outcome.payload.data[0].campaigns;
                var cached := LocalPaths(documentDirectory, MediaUrls(campaigns));
                && !substituted
                && ads == WithRemoteAndCachedUris(campaigns, cached)
                && item == Some(Snapshot(ads, outcome.payload.config))
                && screenConfig == outcome.payload.config
                && device.State() == RetryUntilCached(documentDirectory, MediaUrls(campaigns), old(device.State())).disk
                && request && safeToPlay && !adsFetchFromApi && !alreadyUsingLocal
                && retry == None && !adsLoading
      ensures !inFlight && outcome.Fetched? && |outcome.payload.data| > 0
              && !AllDefined(MediaUrls(outcome.payload.data[0].campaigns)) ==>
                && !substituted && request && retry == None
                && ads == old(ads) && screenConfig == old(screenConfig) && item == old(item)
                && safeToPlay == old(safeToPlay) && alreadyUsingLocal == old(alreadyUsingLocal)
                && adsFetchFromApi == old(adsFetchFromApi) && adsLoading == old(adsLoading)
                && device.State() == old(device.State())
      ensures !inFlight && (outcome.FetchFailed? || |outcome.payload.data| == 0) ==>
                && (substituted <==> Substitutes(old(loaded), old(item).Some?, old(alreadyUsingLocal)))
                && (substituted ==> ads == old(item).value.ads && screenConfig == old(item).value.screen
                                    && alreadyUsingLocal && safeToPlay)
                && (!substituted ==> ads == old(ads) && screenConfig == old(screenConfig)
                                     && alreadyUsingLocal == old(alreadyUsingLocal)
                                     && safeToPlay == old(safeToPlay))
                && (outcome.Fetched? || substituted ==> request)
                && (!outcome.Fetched? && !substituted ==> request == old(request))
                && retry == Some(RetryDelay)
                && item == old(item) && adsFetchFromApi == old(adsFetchFromApi)
                && adsLoading == old(adsLoading)
                && device.State() == old(device.State())
      ensures loaded == old(loaded) && adsBackgroundLoading == old(adsBackgroundLoading)
    {
      substituted := false;
      if inFlight {
        return;
      }
      retry := None;
      match outcome {
        case FetchFailed =>
          substituted := FetchFailedBranch();
        case Fetched(payload) =>
          request := true;
          if |payload.data| == 0 {
            substituted := FetchFailedBranch();
            return;
          }
          var campaigns := payload.data[0].campaigns;
          if !AllDefined(MediaUrls(campaigns)) {
            return;
          }
          AdoptPulled(campaigns, payload.config);
      }
    }

    /** The mount effect once the device code is known: the pull starts with
        the closure's captured `adsFetchFromApi`, and the flag is set while
        the pull is under way, so a successful pull clears it again. Apart
        from that flag, each outcome leaves the provider as `FetchAds` does. */
    method Start(deviceCode: string, inFlight: bool, outcome: FetchOutcome) returns (substituted: bool)
      modifies this, device
      ensures deviceCode == "" ==> !substituted && unchanged(this) && device.State() == old(device.State())
      ensures deviceCode != "" && inFlight ==>
                && !substituted && adsFetchFromApi
                && ads == old(ads) && screenConfig == old(screenConfig) && item == old(item)
                && request == old(request) && retry == old(retry) && safeToPlay == old(safeToPlay)
                && alreadyUsingLocal == old(alreadyUsingLocal) && adsLoading == old(adsLoading)
                && device.State() == old(device.State())
      ensures deviceCode != "" && !inFlight && outcome.Fetched? && |outcome.payload.data| > 0
              && AllDefined(MediaUrls(outcome.payload.data[0].campaigns)) ==>
                var campaigns := outcome.payload.data[0].campaigns;
                var cached := LocalPaths(documentDirectory, MediaUrls(campaigns));
                && !substituted
                && ads == WithRemoteAndCachedUris(campaigns, cached)
                && item == Some(Snapshot(ads, outcome.payload.config))
                && screenConfig == outcome.payload.config
                && device.State() == RetryUntilCached(documentDirectory, MediaUrls(campaigns), old(device.State())).disk
                && request && safeToPlay && !adsFetchFromApi && !alreadyUsingLocal
                && retry == None && !adsLoading
      ensures deviceCode != "" && !inFlight && outcome.Fetched? && |outcome.payload.data| > 0
              && !AllDefined(MediaUrls(outcome.payload.data[0].campaigns)) ==>
                && !substituted && request && retry == None && adsFetchFromApi
                && ads == old(ads) && screenConfig == old(screenConfig) && item == old(item)
                && safeToPlay == old(safeToPlay) && alreadyUsingLocal == old(alreadyUsingLocal)
                && adsLoading == old(adsLoading) && device.State() == old(device.State())
      ensures deviceCode != "" && !inFlight && (outcome.FetchFailed? || |outcome.payload.data| == 0) ==>
                && adsFetchFromApi && retry == Some(RetryDelay)
                && (substituted <==> Substitutes(old(loaded), old(item).Some?, old(alreadyUsingLocal)))
                && (substituted ==> ads == old(item).value.ads && screenConfig == old(item).value.screen
                                    && alreadyUsingLocal && safeToPlay)
                && (!substituted ==> ads == old(ads) && screenConfig == old(screenConfig)
                                     && alreadyUsingLocal == old(alreadyUsingLocal)
                                     && safeToPlay == old(safeToPlay))
                && (outcome.Fetched? || substituted ==> request)
                && (!outcome.Fetched? && !substituted ==> request == old(request))
                && item == old(item) && adsLoading == old(adsLoading)
                && device.State() == old(device.State())
      ensures loaded == old(loaded) && adsBackgroundLoading == old(adsBackgroundLoading)
    {
      substituted := false;
      if deviceCode != "" {
        adsFetchFromApi := true;
        substituted := FetchAds(inFlight, outcome);
      }
    }

    /** The retry timer fires and runs the closure it was scheduled with. That
        closure already passed the in-flight guard when it was created, and
        it captured `adsFetchFromApi == false`, so the retried pull is never
        skipped; it clears the pending timer and then leaves the provider as
        `FetchAds` does for the same outcome. */
    method RetryFires(outcome: FetchOutcome) returns (substituted: bool)
      requires retry.Some?
      modifies this, device
      ensures outcome.Fetched? && |outcome.payload.data| > 0
              && AllDefined(MediaUrls(outcome.payload.data[0].campaigns)) ==>
                var campaigns := outcome.payload.data[0].campaigns;
                var cached := LocalPaths(documentDirectory, MediaUrls(campaigns));
                && !substituted
                && ads == WithRemoteAndCachedUris(campaigns, cached)
                && item == Some(Snapshot(ads, outcome.payload.config))
                && screenConfig == outcome.payload.config
                && device.State() == RetryUntilCached(documentDirectory, MediaUrls(campaigns), old(device.State())).disk
                && request && safeToPlay && !adsFetchFromApi && !alreadyUsingLocal
                && retry == None && !adsLoading
      ensures outcome.Fetched? && |outcome.payload.data| > 0
              && !AllDefined(MediaUrls(outcome.payload.data[0].campaigns)) ==>
                && !substituted && request && retry == None
                && ads == old(ads) && screenConfig == old(screenConfig) && item == old(item)
                && safeToPlay == old(safeToPlay) && alreadyUsingLocal == old(alreadyUsingLocal)
                && adsFetchFromApi == old(adsFetchFromApi) && adsLoading == old(adsLoading)
                && device.State() == old(device.State())
      ensures outcome.FetchFailed? || |outcome.payload.data| == 0 ==>
                && retry == Some(RetryDelay)
                && (substituted <==> Substitutes(old(loaded), old(item).Some?, old(alreadyUsingLocal)))
                && (substituted ==> ads == old(item).value.ads && screenConfig == old(item).value.screen
                                    && alreadyUsingLocal && safeToPlay)
                && (!substituted ==> ads == old(ads) && screenConfig == old(screenConfig)
                                     && alreadyUsingLocal == old(alreadyUsingLocal)
                                     && safeToPlay == old(safeToPlay))
                && (outcome.Fetched? || substituted ==> request)
                && (!outcome.Fetched? && !substituted ==> request == old(request))
                && item == old(item) && adsFetchFromApi == old(adsFetchFromApi)
                && adsLoading == old(adsLoading)
                && device.State() == old(device.State())
      ensures loaded == old(loaded) && adsBackgroundLoading == old(adsBackgroundLoading)
    {
      retry := None;
      substituted := FetchAds(false, outcome);
    }
  }
}
