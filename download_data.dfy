/**
  * The download page's release hook: every GitHub release is reduced to a
  * version, a name, the first `.apk` asset and its prerelease flag; releases
  * without an APK are dropped; the rest are split into stable and nightly
  * lists, and the first one is offered as the latest download. When the list
  * is empty or the request fails, a bundled APK stands in.
  *
  * The request is the `Fetch` parameter of `DownloadState.FetchAllReleases`.
  */
module DownloadData {
  import opened Wrappers
  import opened Text
  import opened Seqs

  /** `EXT`. */
  const Ext: string := ".apk"

  /** `BACKUP_APK_URL`, the APK shipped with the site. */
  const BackupApkUrl: string := "/ARMSX2_12_202510271921-release.apk"

  // ---------------------------------------------------------------------------
  // The version inside a tag: the first match of /(\d+\.\d+\.\d+)/
  // ---------------------------------------------------------------------------

  predicate IsDigit(c: char) {
    '0' <= c <= '9'
  }

  /** Every character of `s[lo..hi]` is a digit. */
  predicate DigitsBetween(s: string, lo: nat, hi: nat) {
    forall k :: lo <= k < hi && k < |s| ==> IsDigit(s[k])
  }

  /** The length of the longest run of digits starting at `i`, which `\d+` takes greedily. */
  function DigitsFrom(s: string, i: nat): (n: nat)
    requires i <= |s|
    ensures i + n <= |s|
    ensures DigitsBetween(s, i, i + n)
    ensures i + n == |s| || !IsDigit(s[i + n])
    decreases |s| - i
  {
    if i < |s| && IsDigit(s[i]) then
      1 + DigitsFrom(s, i + 1)
    else 0
  }

  /** The end of a match of `\d+\.\d+\.\d+` starting at `i`, if there is one. A shorter digit run
      can never be followed by the dot, so only the greedy runs can match. */
  function MatchEnd(s: string, i: nat): (r: Option<nat>)
    requires i <= |s|
    ensures r.Some? ==> i < r.value <= |s|
  {
    var a := DigitsFrom(s, i);
    var j := i + a;
    if a == 0 || j == |s| || s[j] != '.' then None
    else
      var b := DigitsFrom(s, j + 1);
      var k := j + 1 + b;
      if b == 0 || k == |s| || s[k] != '.' then None
      else
        var c := DigitsFrom(s, k + 1);
        if c == 0 then None else Some(k + 1 + c)
  }

  /** The leftmost match at or after `i`. */
  function FindVersionFrom(s: string, i: nat): (r: Option<string>)
    requires i <= |s|
    ensures r.Some? ==> exists p :: i <= p <= |s| && MatchEnd(s, p).Some? && r.value == s[p..MatchEnd(s, p).value]
    ensures r.None? <==> forall p :: i <= p <= |s| ==> MatchEnd(s, p).None?
    decreases |s| - i
  {
    if MatchEnd(s, i).Some? then Some(s[i..MatchEnd(s, i).value])
    else if i == |s| then None
    else FindVersionFrom(s, i + 1)
  }

  /** A version string: three non-empty digit groups joined by dots, the dots at `j` and `k`. */
  ghost predicate VersionShape(v: string) {
    exists j: nat, k: nat :: VersionDotsAt(v, j, k)
  }

  predicate VersionDotsAt(v: string, j: nat, k: nat) {
    && 0 < j && j + 1 < k && k + 1 < |v| && v[j] == '.' && v[k] == '.'
    && DigitsBetween(v, 0, j) && DigitsBetween(v, j + 1, k) && DigitsBetween(v, k + 1, |v|)
  }

  /** The cleaned version of a release: the first version-shaped part of `tag_name || "0"`, else
      the tag without a leading "v", else the tag itself. */
  function CleanVersion(tagName: Option<string>): (r: string)
    ensures FindVersionFrom(Or(tagName, "0"), 0).Some? ==> r == FindVersionFrom(Or(tagName, "0"), 0).value
  {
    var tag := Or(tagName, "0");
    match FindVersionFrom(tag, 0)
    case Some(v) => v
    case None => if StartsWith(tag, "v") then tag[1..] else tag
  }

  lemma {:induction false} DigitsFromExact(s: string, i: nat, n: nat)
    requires i + n <= |s| && DigitsBetween(s, i, i + n)
    requires i + n == |s| || !IsDigit(s[i + n])
    ensures DigitsFrom(s, i) == n
    decreases n
  {
    if n > 0 {
      DigitsFromExact(s, i + 1, n - 1);
    }
  }

  /** A version-shaped text matches from its first character to its end. */
  lemma ShapedMatchesWhole(v: string)
    requires VersionShape(v)
    ensures MatchEnd(v, 0) == Some(|v|)
  {
    var j: nat, k: nat :| VersionDotsAt(v, j, k);
    assert !IsDigit(v[j]) && !IsDigit(v[k]);
    DigitsFromExact(v, 0, j);
    DigitsFromExact(v, j + 1, k - j - 1);
    DigitsFromExact(v, k + 1, |v| - k - 1);
    assert DigitsFrom(v, 0) == j && DigitsFrom(v, j + 1) == k - j - 1;
  }

  /** A tag that is itself a version is kept as it is. */
  lemma VersionTagKept(v: string)
    requires VersionShape(v)
    ensures CleanVersion(Some(v)) == v
  {
    ShapedMatchesWhole(v);
  }

  /** A match of the pattern is a version-shaped part of the tag. */
  lemma MatchIsVersion(s: string, i: nat)
    requires i <= |s| && MatchEnd(s, i).Some?
    ensures VersionShape(s[i..MatchEnd(s, i).value])
  {
    var a := DigitsFrom(s, i);
    var j := i + a;
    var b := DigitsFrom(s, j + 1);
    var k := j + 1 + b;
    var c := DigitsFrom(s, k + 1);
    var v := s[i..k + 1 + c];
    assert forall m :: 0 <= m < |v| ==> v[m] == s[i + m];
    assert VersionDotsAt(v, a, a + 1 + b);
  }

  /** When the tag holds a version, the cleaned version is version-shaped and occurs in the tag. */
  lemma CleanVersionFound(tagName: Option<string>)
    requires FindVersionFrom(Or(tagName, "0"), 0).Some?
    ensures VersionShape(CleanVersion(tagName))
    ensures exists p: nat :: OccursAt(Or(tagName, "0"), CleanVersion(tagName), p)
  {
    var tag := Or(tagName, "0");
    var found := FindVersionFrom(tag, 0);
    var p :| 0 <= p <= |tag| && MatchEnd(tag, p).Some? && found.value == tag[p..MatchEnd(tag, p).value];
    MatchIsVersion(tag, p);
    SliceOccurs(tag, p, MatchEnd(tag, p).value);
  }

  /** When the tag holds no version, the cleaned version is the tag with at most its leading "v"
      removed. */
  lemma CleanVersionNotFound(tagName: Option<string>)
    requires forall p :: 0 <= p <= |Or(tagName, "0")| ==> MatchEnd(Or(tagName, "0"), p).None?
    ensures var tag := Or(tagName, "0");
      && (StartsWith(tag, "v") ==> "v" + CleanVersion(tagName) == tag)
      && (!StartsWith(tag, "v") ==> CleanVersion(tagName) == tag)
  {
    var tag := Or(tagName, "0");
    assert FindVersionFrom(tag, 0).None?;
    if StartsWith(tag, "v") {
      assert tag == [tag[0]] + tag[1..];
    }
  }

  /** A missing tag gives "0". */
  lemma MissingTagIsZero()
    ensures CleanVersion(None) == "0"
  {
    assert MatchEnd("0", 0).None?;
    assert MatchEnd("0", 1).None?;
  }

  // ---------------------------------------------------------------------------
  // Releases
  // ---------------------------------------------------------------------------

  /** A release as the GitHub API lists it; `assets` holds each asset's `browser_download_url`. */
  datatype GitHubRelease = GitHubRelease(id: int, tagName: Option<string>, name: Option<string>,
                                         assets: Option<seq<string>>, publishedAt: Option<string>,
                                         prerelease: bool)

  /** A release as the site keeps it. */
  datatype Release = Release(id: int, version: string, name: string, url: Option<string>,
                             date: Option<string>, isPrerelease: bool)

  /** `assets?.find(a => a.browser_download_url.toLowerCase().endsWith(EXT))`. */
  function FirstApk(assets: seq<string>): (r: Option<string>)
    ensures r.Some? ==> r.value in assets && EndsWith(Lower(r.value), Ext)
    ensures r.None? <==> forall a :: a in assets ==> !EndsWith(Lower(a), Ext)
  {
    if assets == [] then None
    else if EndsWith(Lower(assets[0]), Ext) then Some(assets[0])
    else
      assert forall a :: a in assets ==> a == assets[0] || a in assets[1..];
      FirstApk(assets[1..])
  }

  /** The asset chosen is the first one ending in ".apk". */
  lemma {:induction false} FirstApkIsFirst(assets: seq<string>, i: nat)
    requires i < |assets| && EndsWith(Lower(assets[i]), Ext)
    requires forall m :: 0 <= m < i ==> !EndsWith(Lower(assets[m]), Ext)
    ensures FirstApk(assets) == Some(assets[i])
  {
    if i > 0 {
      assert !EndsWith(Lower(assets[0]), Ext);
      FirstApkIsFirst(assets[1..], i - 1);
    }
  }

  function ApkUrl(assets: Option<seq<string>>): Option<string> {
    if assets.Some? then FirstApk(assets.value) else None
  }

  /** The `map` step for one release. */
  function ToRelease(r: GitHubRelease): (out: Release)
    ensures out.id == r.id && out.date == r.publishedAt && out.isPrerelease == r.prerelease
    ensures out.version == CleanVersion(r.tagName)
    ensures out.name == (if Truthy(r.name) then r.name.value else Or(r.tagName, "0"))
    ensures out.url.Some? <==> r.assets.Some? && exists a :: a in r.assets.value && EndsWith(Lower(a), Ext)
  {
    Release(r.id, CleanVersion(r.tagName), Or(r.name, Or(r.tagName, "0")), ApkUrl(r.assets), r.publishedAt,
            r.prerelease)
  }

  function HasApk(r: Release): bool {
    r.url.Some?
  }

  function IsNightly(r: Release): bool {
    r.isPrerelease
  }

  function IsStable(r: Release): bool {
    !r.isPrerelease
  }

  /** `releasesWithApk`: map every release, then keep those with an APK, in the API's order. */
  function WithApk(data: seq<GitHubRelease>): (r: seq<Release>)
    ensures |r| <= |data|
    ensures forall x :: x in r ==> x.url.Some?
    ensures forall x :: x in r ==> exists i :: 0 <= i < |data| && x == ToRelease(data[i])
    ensures forall i :: 0 <= i < |data| && ToRelease(data[i]).url.Some? ==> ToRelease(data[i]) in r
  {
    var mapped := seq(|data|, i requires 0 <= i < |data| => ToRelease(data[i]));
    assert forall i :: 0 <= i < |data| ==> mapped[i] == ToRelease(data[i]);
    Filter(mapped, HasApk)
  }

  /** The first APK release is the first release of the API's list that ships an APK. */
  lemma WithApkHead(data: seq<GitHubRelease>, j: nat)
    requires j < |data| && ApkUrl(data[j].assets).Some?
    requires forall m :: 0 <= m < j ==> ApkUrl(data[m].assets).None?
    ensures WithApk(data) != [] && WithApk(data)[0] == ToRelease(data[j])
  {
    var mapped := seq(|data|, i requires 0 <= i < |data| => ToRelease(data[i]));
    FilterHead(mapped, HasApk, j);
  }

  /** The APK releases keep the API's order: of two of them, the earlier comes from the earlier
      release of the API's list. */
  lemma WithApkKeepsOrder(data: seq<GitHubRelease>, i: nat, j: nat)
    requires i < j < |WithApk(data)|
    ensures exists a, b :: 0 <= a < b < |data| && ToRelease(data[a]) == WithApk(data)[i] && ToRelease(data[b]) == WithApk(data)[j]
  {
    var mapped := seq(|data|, k requires 0 <= k < |data| => ToRelease(data[k]));
    FilterKeepsOrder(mapped, HasApk, i, j);
    var a, b :| 0 <= a < b < |mapped| && mapped[a] == WithApk(data)[i] && mapped[b] == WithApk(data)[j];
  }

  /** The latest download is that of the first release of the API's list that ships an APK,
      whether or not it is a prerelease. */
  lemma LatestIsFirstListedApk(before: Cells, data: seq<GitHubRelease>, j: nat)
    requires j < |data| && ApkUrl(data[j].assets).Some?
    requires forall m :: 0 <= m < j ==> ApkUrl(data[m].assets).None?
    ensures var after := AfterFetch(before, Listed(data));
      && after.latestDownloadUrl == ApkUrl(data[j].assets)
      && after.latestVersion == CleanVersion(data[j].tagName)
      && after.latestVersionData == VersionData(CleanVersion(data[j].tagName), data[j].prerelease)
  {
    WithApkHead(data, j);
  }

  /** Stable and nightly lists split the APK releases: disjoint, together all of them, each in the
      API's order. */
  lemma StableNightlyPartition(data: seq<GitHubRelease>)
    ensures var all := WithApk(data);
      && (forall x :: x in Filter(all, IsStable) ==> x !in Filter(all, IsNightly))
      && multiset(Filter(all, IsStable)) + multiset(Filter(all, IsNightly)) == multiset(all)
    ensures var all, stable := WithApk(data), Filter(WithApk(data), IsStable);
      forall i, j :: 0 <= i < j < |stable| ==> InOrder(all, stable[i], stable[j])
    ensures var all, nightly := WithApk(data), Filter(WithApk(data), IsNightly);
      forall i, j :: 0 <= i < j < |nightly| ==> InOrder(all, nightly[i], nightly[j])
  {
    var all := WithApk(data);
    FilterSplit(all, IsStable, IsNightly);
    FilterOrdered(all, IsStable);
    FilterOrdered(all, IsNightly);
  }

  // ---------------------------------------------------------------------------
  // The effect and its state
  // ---------------------------------------------------------------------------

  /** What the request to the releases endpoint produced. `Failed` covers what makes the `try`
      block throw: a network error, a non-ok status, a body that is not JSON or not a list of
      releases, and an asset without a download URL that `find` reaches before the first APK. */
  datatype Fetch = Failed | Listed(data: seq<GitHubRelease>)

  /** `latestVersionData`. */
  datatype VersionData = VersionData(version: string, isPrerelease: bool)

  /** The values of the hook's state cells. */
  datatype Cells = Cells(latestDownloadUrl: Option<string>, latestVersion: string,
                         latestVersionData: VersionData, isLoading: bool,
                         allReleases: seq<Release>, allNightlyReleases: seq<Release>)

  /** The cells before the request has finished. */
  const Initial: Cells := Cells(None, "0", VersionData("0", false), true, [], [])

  /** The cells once `fetchAllReleases` has run its `try`, `catch` and `finally`. */
  function AfterFetch(before: Cells, fetch: Fetch): Cells {
    if fetch.Failed? then
      before.(latestDownloadUrl := Some(BackupApkUrl), latestVersion := "v0 (Fallback)",
              latestVersionData := VersionData("0 (Fallback)", false), isLoading := false)
    else AfterListing(before, WithApk(fetch.data))
  }

  /** The cells after a successful response whose APK releases are `all`. */
  function AfterListing(before: Cells, all: seq<Release>): Cells {
    var listed := before.(allReleases := Filter(all, IsStable), allNightlyReleases := Filter(all, IsNightly));
    if |all| > 0 then
      listed.(latestDownloadUrl := all[0].url, latestVersion := all[0].version,
              latestVersionData := VersionData(all[0].version, all[0].isPrerelease), isLoading := false)
    else
      listed.(latestDownloadUrl := Some(BackupApkUrl), latestVersion := "v0",
              latestVersionData := VersionData("0", false), isLoading := false)
  }

  /** Loading ends on every outcome, and there is always a download URL to offer. */
  lemma LoadingEnds(before: Cells, fetch: Fetch)
    ensures !AfterFetch(before, fetch).isLoading
    ensures AfterFetch(before, fetch).latestDownloadUrl.Some?
  {
    if fetch.Listed? && WithApk(fetch.data) != [] {
      assert WithApk(fetch.data)[0] in WithApk(fetch.data);
    }
  }

  /** A failed request keeps the lists and falls back to the bundled APK. */
  lemma FailureFallsBack(before: Cells)
    ensures var after := AfterFetch(before, Failed);
      && after.latestDownloadUrl == Some(BackupApkUrl) && after.latestVersion == "v0 (Fallback)"
      && after.latestVersionData == VersionData("0 (Fallback)", false)
      && after.allReleases == before.allReleases && after.allNightlyReleases == before.allNightlyReleases
  {
  }

  /** A list without any APK falls back to the bundled APK with version "v0". */
  lemma NoApkFallsBack(before: Cells, data: seq<GitHubRelease>)
    requires forall r :: r in data ==> ApkUrl(r.assets).None?
    ensures var after := AfterFetch(before, Listed(data));
      && after.latestDownloadUrl == Some(BackupApkUrl) && after.latestVersion == "v0"
      && after.latestVersionData == VersionData("0", false)
      && after.allReleases == [] && after.allNightlyReleases == []
  {
    var mapped := seq(|data|, i requires 0 <= i < |data| => ToRelease(data[i]));
    forall x | x in mapped ensures !HasApk(x) {
      var i :| 0 <= i < |data| && mapped[i] == x;
      assert data[i] in data;
    }
    FilterNone(mapped, HasApk);
  }

  /** With APK releases, the latest download is the first of them, stable or nightly, and the two
      lists split the APK releases between them. */
  lemma LatestIsFirstApk(before: Cells, data: seq<GitHubRelease>)
    requires WithApk(data) != []
    ensures var after := AfterFetch(before, Listed(data));
      var first := WithApk(data)[0];
      && after.latestDownloadUrl == first.url && after.latestVersion == first.version
      && after.latestVersionData == VersionData(first.version, first.isPrerelease)
      && (first in after.allReleases || first in after.allNightlyReleases)
      && multiset(after.allReleases) + multiset(after.allNightlyReleases) == multiset(WithApk(data))
  {
    var first := WithApk(data)[0];
    assert first in WithApk(data);
    assert IsStable(first) || IsNightly(first);
    FilterSplit(WithApk(data), IsStable, IsNightly);
  }

  /** The state cells of `useDownloadData`. */
  class DownloadState {
    var latestDownloadUrl: Option<string>
    var latestVersion: string
    var latestVersionData: VersionData
    var isLoading: bool
    var allReleases: seq<Release>
    var allNightlyReleases: seq<Release>

    function Snapshot(): Cells
      reads this
    {
      Cells(latestDownloadUrl, latestVersion, latestVersionData, isLoading, allReleases, allNightlyReleases)
    }

    constructor ()
      ensures Snapshot() == Initial
    {
      latestDownloadUrl := None;
      latestVersion := "0";
      latestVersionData := VersionData("0", false);
      isLoading := true;
      allReleases := [];
      allNightlyReleases := [];
    }

    /** `fetchAllReleases`: the `try`, `catch` and `finally` of the mount effect. */
    method FetchAllReleases(fetch: Fetch)
      modifies this
      ensures Snapshot() == AfterFetch(old(Snapshot()), fetch)
    {
      if fetch.Failed? {
        latestDownloadUrl := Some(BackupApkUrl);
        latestVersion := "v0 (Fallback)";
        latestVersionData := VersionData("0 (Fallback)", false);
        isLoading := false;
      } else {
        ShowReleases(fetch.data);
      }
    }

    /** The `try` block on a successful response, then the `finally`. */
    method ShowReleases(data: seq<GitHubRelease>)
      modifies this
      ensures Snapshot() == AfterListing(old(Snapshot()), WithApk(data))
    {
      ShowListing(WithApk(data));
    }

    /** The part of `ShowReleases` after `releasesWithApk` is computed. */
    method ShowListing(releasesWithApk: seq<Release>)
      modifies this
      ensures Snapshot() == AfterListing(old(Snapshot()), releasesWithApk)
    {
      allReleases, allNightlyReleases := Filter(releasesWithApk, IsStable), Filter(releasesWithApk, IsNightly);
      if |releasesWithApk| > 0 {
        var latest := releasesWithApk[0];
        latestDownloadUrl, latestVersion := latest.url, latest.version;
        latestVersionData := VersionData(latest.version, latest.isPrerelease);
      } else {
        latestDownloadUrl, latestVersion := Some(BackupApkUrl), "v0";
        latestVersionData := VersionData("0", false);
      }
      isLoading := false;
    }
  }
}
