/** The media cache: the local file name of an ad's URL, the device's file
    system and downloader, and the sequential pass that makes every ad's
    media local, shared by cacheAds and cacheAdsInBackground. */
module Cache {
  import opened Types

  /** `url.split("/").pop()`: the text after the last '/', or the whole URL
      when it has none. */
  function FileName(url: string): string
  {
    if |url| == 0 then ""
    else if url[|url| - 1] == '/' then ""
    else FileName(url[..|url| - 1]) + [url[|url| - 1]]
  }

  /** The file name has no '/', is a suffix of the URL, and is either the
      whole URL or preceded in it by a '/'. */
  lemma {:induction false} FileNameShape(url: string)
    ensures var r := FileName(url);
            && '/' !in r
            && |r| <= |url| && r == url[|url| - |r|..]
            && (|r| < |url| ==> url[|url| - |r| - 1] == '/')
    decreases |url|
  {
    if |url| > 0 && url[|url| - 1] != '/' {
      var front := url[..|url| - 1];
      FileNameShape(front);
      var r0 := FileName(front);
      assert url[|url| - |r0| - 1..] == front[|front| - |r0|..] + [url[|url| - 1]];
    }
  }

  /** The file name of a URL whose last segment is `name` is `name`,
      whatever comes before the last '/'. */
  lemma {:induction false} FileNameOfLastSegment(prefix: string, name: string)
    requires '/' !in name
    ensures FileName(prefix + "/" + name) == name
    decreases |name|
  {
    var u := prefix + "/" + name;
    if |name| == 0 {
      assert u[|u| - 1] == '/';
    } else {
      var front := name[..|name| - 1];
      assert u[..|u| - 1] == prefix + "/" + front;
      assert u[|u| - 1] == name[|name| - 1];
      FileNameOfLastSegment(prefix, front);
      assert front + [name[|name| - 1]] == name;
    }
  }

  /** `${FileSystem.documentDirectory}${file name}`. */
  function LocalPath(dir: string, url: string): string {
    dir + FileName(url)
  }

  /** The local path of every URL of a list in which every URL is defined. */
  function LocalPaths(dir: string, urls: seq<Option<string>>): (r: seq<string>)
    requires forall k :: 0 <= k < |urls| ==> urls[k].Some?
    ensures |r| == |urls|
    ensures forall k :: 0 <= k < |urls| ==> r[k] == LocalPath(dir, urls[k].value)
  {
    if |urls| == 0 then [] else [LocalPath(dir, urls[0].value)] + LocalPaths(dir, urls[1..])
  }

  predicate AllDefined(urls: seq<Option<string>>) {
    forall k :: 0 <= k < |urls| ==> urls[k].Some?
  }

  /** The rest of a list of defined URLs is defined. */
  lemma DefinedTail(urls: seq<Option<string>>)
    requires |urls| > 0 && AllDefined(urls)
    ensures AllDefined(urls[1..])
  {
    assert forall k :: 1 <= k < |urls| ==> urls[k] == urls[1..][k - 1];
  }

  datatype Download = Download(url: string, fileUri: string)

  /** The device's storage as the cache sees it: the paths that exist, the
      downloads made so far, and the outcomes the next downloads will have
      (`true` succeeds; once the list is used up every download succeeds). */
  datatype Disk = Disk(files: set<string>, downloads: seq<Download>, outcomes: seq<bool>)

  /** `FileSystem.downloadAsync(url, fileUri)`: on success the file exists
      and its uri is `fileUri`; a failure raises and stores nothing. A
      failure uses one scripted outcome, a success at most one. */
  function DownloadStep(d: Disk, url: string, fileUri: string): (r: (bool, Disk))
    ensures r.0 ==> r.1.files == d.files + {fileUri}
                    && r.1.downloads == d.downloads + [Download(url, fileUri)]
    ensures !r.0 ==> r.1.files == d.files && r.1.downloads == d.downloads
                     && |r.1.outcomes| == |d.outcomes| - 1
    ensures |r.1.outcomes| <= |d.outcomes|
  {
    if |d.outcomes| == 0 then (true, Disk(d.files + {fileUri}, d.downloads + [Download(url, fileUri)], []))
    else if d.outcomes[0] then (true, Disk(d.files + {fileUri}, d.downloads + [Download(url, fileUri)], d.outcomes[1..]))
    else (false, Disk(d.files, d.downloads, d.outcomes[1..]))
  }

  /** What one pass returns: whether it got through without raising, the
      local paths, and the storage afterwards. */
  datatype PassResult = PassResult(ok: bool, paths: seq<string>, disk: Disk)

  /** The loop over the URLs, front first: an existing file is used as it
      is, a missing one is downloaded. An undefined URL raises (its `split`
      is a TypeError) and so does a failed download; the paths collected
      so far are then lost. */
  function Pass(dir: string, urls: seq<Option<string>>, d: Disk): PassResult
    decreases |urls|
  {
    if |urls| == 0 then PassResult(true, [], d)
    else if urls[0].None? then PassResult(false, [], d)
    else
      var fileUri := LocalPath(dir, urls[0].value);
      if fileUri in d.files then
        Prepend(fileUri, Pass(dir, urls[1..], d))
      else
        var (ok, d') := DownloadStep(d, urls[0].value, fileUri);
        if !ok then PassResult(false, [], d')
        else Prepend(fileUri, Pass(dir, urls[1..], d'))
  }

  /** A path in front of the rest of a pass, which is lost if the rest
      raises. */
  function Prepend(p: string, rest: PassResult): PassResult {
    if rest.ok then PassResult(true, [p] + rest.paths, rest.disk) else rest
  }

  /** The paths collected so far followed by the rest of a pass. */
  function Combine(paths: seq<string>, rest: PassResult): PassResult {
    if rest.ok then PassResult(true, paths + rest.paths, rest.disk) else rest
  }

  /** A successful pass had every URL defined and returns exactly the local
      path of each URL, in order; afterwards every path it returns exists. */
  lemma {:induction false} PassSucceeds(dir: string, urls: seq<Option<string>>, d: Disk)
    ensures var r := Pass(dir, urls, d);
            r.ok ==>
              && AllDefined(urls)
              && r.paths == LocalPaths(dir, urls)
              && forall j :: 0 <= j < |r.paths| ==> r.paths[j] in r.disk.files
    decreases |urls|
  {
    if |urls| > 0 && urls[0].Some? {
      var fileUri := LocalPath(dir, urls[0].value);
      var step := DownloadStep(d, urls[0].value, fileUri);
      var d' := if fileUri in d.files then d else step.1;
      if fileUri in d.files || step.0 {
        assert fileUri in d'.files;
        PassSucceeds(dir, urls[1..], d');
        PassFilesGrow(dir, urls[1..], d');
        var rest := Pass(dir, urls[1..], d');
        assert Pass(dir, urls, d) == Prepend(fileUri, rest);
        if rest.ok {
          assert AllDefined(urls) by {
            assert forall k :: 1 <= k < |urls| ==> urls[1..][k - 1] == urls[k];
          }
        }
      }
    }
  }

  /** The local path of every URL exists after a successful pass. */
  lemma PassCovers(dir: string, urls: seq<Option<string>>, d: Disk)
    requires Pass(dir, urls, d).ok
    ensures AllDefined(urls)
    ensures forall k :: 0 <= k < |urls| ==> LocalPath(dir, urls[k].value) in Pass(dir, urls, d).disk.files
  {
    PassSucceeds(dir, urls, d);
  }

  /** A pass never removes a file. */
  lemma {:induction false} PassFilesGrow(dir: string, urls: seq<Option<string>>, d: Disk)
    ensures d.files <= Pass(dir, urls, d).disk.files
    decreases |urls|
  {
    if |urls| > 0 && urls[0].Some? {
      var fileUri := LocalPath(dir, urls[0].value);
      if fileUri in d.files {
        PassFilesGrow(dir, urls[1..], d);
      } else {
        PassFilesGrow(dir, urls[1..], DownloadStep(d, urls[0].value, fileUri).1);
      }
    }
  }

  /** Downloads happen only for paths that do not exist when they are
      looked up: every download of a pass is of a path that did not exist
      before the pass, and no path is downloaded twice. The downloads made
      are the log before plus the new ones. */
  lemma {:induction false} PassDownloadsOnlyMissing(dir: string, urls: seq<Option<string>>, d: Disk)
    ensures var d' := Pass(dir, urls, d).disk;
            && |d.downloads| <= |d'.downloads|
            && d'.downloads[..|d.downloads|] == d.downloads
            && (forall k :: |d.downloads| <= k < |d'.downloads| ==>
                  d'.downloads[k].fileUri !in d.files && d'.downloads[k].fileUri in d'.files)
            && (forall k, l :: |d.downloads| <= k < l < |d'.downloads| ==>
                  d'.downloads[k].fileUri != d'.downloads[l].fileUri)
    decreases |urls|
  {
    if |urls| > 0 && urls[0].Some? {
      var fileUri := LocalPath(dir, urls[0].value);
      if fileUri !in d.files {
        var step := DownloadStep(d, urls[0].value, fileUri);
        if step.0 {
          var d1 := step.1;
          PassDownloadsOnlyMissing(dir, urls[1..], d1);
          PassFilesGrow(dir, urls[1..], d1);
          var d' := Pass(dir, urls, d).disk;
          assert d' == Pass(dir, urls[1..], d1).disk;
          assert d'.downloads[..|d1.downloads|] == d1.downloads;
          assert d'.downloads[|d.downloads|] == d1.downloads[|d.downloads|];
          assert d'.downloads[..|d.downloads|] == d1.downloads[..|d.downloads|];
        }
      } else {
        PassDownloadsOnlyMissing(dir, urls[1..], d);
        PassFilesGrow(dir, urls[1..], d);
      }
    }
  }

  /** Caching is idempotent: once a pass has succeeded, a second pass over
      the same URLs downloads nothing and returns the same paths. */
  lemma {:induction false} SecondPassDownloadsNothing(dir: string, urls: seq<Option<string>>, d: Disk)
    requires Pass(dir, urls, d).ok
    ensures var d' := Pass(dir, urls, d).disk;
            Pass(dir, urls, d') == PassResult(true, Pass(dir, urls, d).paths, d')
  {
    PassSucceeds(dir, urls, d);
    PassCovers(dir, urls, d);
    var d' := Pass(dir, urls, d).disk;
    AllPresentPass(dir, urls, d');
  }

  /** A pass over defined URLs whose paths all exist touches nothing. */
  lemma {:induction false} AllPresentPass(dir: string, urls: seq<Option<string>>, d: Disk)
    requires AllDefined(urls)
    requires forall k :: 0 <= k < |urls| ==> LocalPath(dir, urls[k].value) in d.files
    ensures Pass(dir, urls, d) == PassResult(true, LocalPaths(dir, urls), d)
    decreases |urls|
  {
    if |urls| > 0 {
      assert forall k :: 1 <= k < |urls| ==> urls[k] == urls[1..][k - 1];
      AllPresentPass(dir, urls[1..], d);
    }
  }

  /** A pass over defined URLs fails only through a failed download, which
      uses up one scripted outcome; so retrying cannot fail for ever. */
  lemma {:induction false} FailureUsesAnOutcome(dir: string, urls: seq<Option<string>>, d: Disk)
    requires AllDefined(urls)
    ensures |Pass(dir, urls, d).disk.outcomes| <= |d.outcomes|
    ensures !Pass(dir, urls, d).ok ==> |Pass(dir, urls, d).disk.outcomes| < |d.outcomes|
    decreases |urls|
  {
    if |urls| > 0 {
      var fileUri := LocalPath(dir, urls[0].value);
      DefinedTail(urls);
      if fileUri in d.files {
        FailureUsesAnOutcome(dir, urls[1..], d);
      } else {
        var step := DownloadStep(d, urls[0].value, fileUri);
        if step.0 {
          FailureUsesAnOutcome(dir, urls[1..], step.1);
        }
      }
    }
  }

  /** cacheAds' retry: the whole list is passed over again until a pass
      succeeds. */
  function RetryUntilCached(dir: string, urls: seq<Option<string>>, d: Disk): (r: PassResult)
    requires AllDefined(urls)
    ensures r.ok && r.paths == LocalPaths(dir, urls)
    ensures forall k :: 0 <= k < |urls| ==> LocalPath(dir, urls[k].value) in r.disk.files
    ensures d.files <= r.disk.files
    decreases |d.outcomes|
  {
    var first := Pass(dir, urls, d);
    PassSucceeds(dir, urls, d);
    PassFilesGrow(dir, urls, d);
    FailureUsesAnOutcome(dir, urls, d);
    if first.ok then PassCovers(dir, urls, d); first
    else RetryUntilCached(dir, urls, first.disk)
  }

  /** Storage where one ad's file is already cached and another's
      is not: the pass downloads exactly the missing one. */
  lemma OneCachedOneMissing()
    ensures var urls := [Some("h/a.mp4"), Some("h/x/b.png")];
            var d := Disk({"/d/a.mp4"}, [], []);
            var r := Pass("/d/", urls, d);
            r.ok && r.paths == ["/d/a.mp4", "/d/b.png"]
            && r.disk.downloads == [Download("h/x/b.png", "/d/b.png")]
  {
    var urls := [Some("h/a.mp4"), Some("h/x/b.png")];
    var d := Disk({"/d/a.mp4"}, [], []);
    ExamplePaths();
    var step := DownloadStep(d, "h/x/b.png", "/d/b.png");
    assert step.0 && step.1.downloads == [Download("h/x/b.png", "/d/b.png")];
    assert urls[1..][1..] == [];
    assert Pass("/d/", urls[1..], d) == PassResult(true, ["/d/b.png"], step.1);
  }

  /** The local paths of the example's two URLs, which differ. */
  lemma ExamplePaths()
    ensures LocalPath("/d/", "h/a.mp4") == "/d/a.mp4"
    ensures LocalPath("/d/", "h/x/b.png") == "/d/b.png"
    ensures "/d/b.png" != "/d/a.mp4"
  {
    ExamplePath("h", "a.mp4", "h/a.mp4", "/d/a.mp4");
    ExamplePath("h/x", "b.png", "h/x/b.png", "/d/b.png");
    assert "/d/b.png"[3] != "/d/a.mp4"[3];
  }

  lemma ExamplePath(prefix: string, name: string, url: string, path: string)
    requires '/' !in name && url == prefix + "/" + name && path == "/d/" + name
    ensures LocalPath("/d/", url) == path
  {
    FileNameOfLastSegment(prefix, name);
  }

  /** The device's file system and downloader. */
  class Device {
    var files: set<string>
    var downloads: seq<Download>
    var outcomes: seq<bool>

    constructor (files: set<string>, outcomes: seq<bool>)
      ensures this.files == files && downloads == [] && this.outcomes == outcomes
    {
      this.files := files;
      downloads := [];
      this.outcomes := outcomes;
    }

    function State(): Disk
      reads this
    {
      Disk(files, downloads, outcomes)
    }

    /** `FileSystem.getInfoAsync(fileUri).exists`. */
    method GetInfo(fileUri: string) returns (present: bool)
      ensures present <==> fileUri in files
    {
      present := fileUri in files;
    }

    /** `FileSystem.downloadAsync(url, fileUri)`; on success the returned
        uri is `fileUri`. */
    method DownloadAsync(url: string, fileUri: string) returns (ok: bool, uri: string)
      modifies this
      ensures (ok, State()) == DownloadStep(old(State()), url, fileUri)
      ensures ok ==> uri == fileUri
    {
      if |outcomes| == 0 || outcomes[0] {
        files := files + {fileUri};
        downloads := downloads + [Download(url, fileUri)];
        ok, uri := true, fileUri;
      } else {
        ok, uri := false, "";
      }
      if |outcomes| > 0 {
        outcomes := outcomes[1..];
      }
    }
  }

  /** One step of a pass from position `i`, at a defined URL. */
  lemma PassStep(dir: string, urls: seq<Option<string>>, i: int, d: Disk)
    requires 0 <= i < |urls| && urls[i].Some?
    ensures var fileUri := LocalPath(dir, urls[i].value);
            var step := DownloadStep(d, urls[i].value, fileUri);
            Pass(dir, urls[i..], d)
            == if fileUri in d.files then Prepend(fileUri, Pass(dir, urls[i + 1..], d))
               else if !step.0 then PassResult(false, [], step.1)
               else Prepend(fileUri, Pass(dir, urls[i + 1..], step.1))
  {
    assert urls[i..][1..] == urls[i + 1..];
  }

  /** Collecting one more path before the rest of a pass. */
  lemma CombinePrepend(paths: seq<string>, p: string, rest: PassResult)
    ensures Combine(paths, Prepend(p, rest)) == Combine(paths + [p], rest)
  {
    assert (paths + [p]) + rest.paths == paths + ([p] + rest.paths);
  }

  /** The `for` loop of cacheAds and cacheAdsInBackground: for each URL in
      order, look the local path up and download only when it is missing.
      It does what Pass says. */
  method RunPass(dir: string, urls: seq<Option<string>>, device: Device) returns (ok: bool, paths: seq<string>)
    modifies device
    ensures PassResult(ok, paths, device.State()) == Pass(dir, urls, old(device.State()))
  {
    ghost var d0 := device.State();
    paths := [];
    var i := 0;
    assert urls[i..] == urls;
    assert [] + Pass(dir, urls, d0).paths == Pass(dir, urls, d0).paths;
    while i < |urls|
      invariant 0 <= i <= |urls|
      invariant Pass(dir, urls, d0) == Combine(paths, Pass(dir, urls[i..], device.State()))
      decreases |urls| - i
    {
      if urls[i].None? {
        assert urls[i..][0] == urls[i];
        return false, [];
      }
      var url := urls[i].value;
      var fileUri := LocalPath(dir, url);
      ghost var d := device.State();
      PassStep(dir, urls, i, d);
      var present := device.GetInfo(fileUri);
      if present {
        CombinePrepend(paths, fileUri, Pass(dir, urls[i + 1..], d));
        paths := paths + [fileUri];
      } else {
        var downloaded, uri := device.DownloadAsync(url, fileUri);
        if !downloaded {
          return false, [];
        }
        CombinePrepend(paths, fileUri, Pass(dir, urls[i + 1..], device.State()));
        paths := paths + [uri];
      }
      i := i + 1;
    }
    assert urls[i..] == [];
    return true, paths;
  }
}
