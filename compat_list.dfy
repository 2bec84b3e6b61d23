/**
  * The compatibility list page: the SoC names offered to the submit dialog,
  * the status tally shown above the list, the colour and flag lookups, and
  * what each game card derives from its game.
  */
module CompatList {
  import opened Wrappers
  import opened Text
  import opened Seqs
  import opened Normalize
  import opened Listing

  // ---------------------------------------------------------------------------
  // availableSocs
  // ---------------------------------------------------------------------------

  /** The name a tested-SoC entry contributes: a game's list takes bare strings and truthy
      `soc_name`s; a report's list (`soc?.soc_name`) takes only truthy `soc_name`s. */
  function SocNameOf(soc: RawSoc, fromReport: bool): (r: Option<string>)
    ensures r.Some? <==> (soc.TextSoc? && !fromReport) || (soc.RecordSoc? && Truthy(soc.socName))
  {
    match soc
    case TextSoc(text) => if fromReport then None else Some(text)
    case RecordSoc(socName, _, _, _, _, _) => if Truthy(socName) then Some(socName.value) else None
    case NullSoc => None
  }

  /** The names one list of entries adds to the set. */
  function NamesIn(socs: seq<RawSoc>, fromReport: bool): set<string> {
    set s | s in socs && SocNameOf(s, fromReport).Some? :: SocNameOf(s, fromReport).value
  }

  /** The names a game's reports add. */
  function ReportNames(reports: seq<Report>): set<string> {
    if reports == [] then {}
    else ReportNames(reports[..|reports| - 1]) + NamesIn(reports[|reports| - 1].testedSocs, true)
  }

  /** The names a game adds: its own entries, then its reports'. */
  function GameNames(g: Card): set<string> {
    NamesIn(g.testedSocs, false) + ReportNames(g.submissions)
  }

  /** Every name the set collects over a list of games. */
  function AllNames(games: seq<Card>): set<string> {
    if games == [] then {}
    else AllNames(games[..|games| - 1]) + GameNames(games[|games| - 1])
  }

  /** The elements of a list, as a set. */
  function Elems(xs: seq<string>): set<string> {
    set x | x in xs
  }

  predicate Distinct(xs: seq<string>) {
    forall i, j :: 0 <= i < j < |xs| ==> xs[i] != xs[j]
  }

  /** `forEach(soc => socNames.add(...))` over one list of entries; the set is kept as its
      insertion-ordered contents. */
  method AddNames(names: seq<string>, socs: seq<RawSoc>, fromReport: bool) returns (r: seq<string>)
    requires Distinct(names)
    ensures Distinct(r) && names <= r
    ensures Elems(r) == Elems(names) + NamesIn(socs, fromReport)
  {
    r := names;
    for k := 0 to |socs|
      invariant Distinct(r) && names <= r
      invariant Elems(r) == Elems(names) + NamesIn(socs[..k], fromReport)
    {
      var name := SocNameOf(socs[k], fromReport);
      NamesInSnoc(socs, k, fromReport);
      if name.Some? && name.value !in r {
        assert Elems(r + [name.value]) == Elems(r) + {name.value};
        r := r + [name.value];
      }
    }
    assert socs[..|socs|] == socs;
  }

  lemma NamesInSnoc(socs: seq<RawSoc>, k: nat, fromReport: bool)
    requires k < |socs|
    ensures NamesIn(socs[..k + 1], fromReport)
            == NamesIn(socs[..k], fromReport)
               + (if SocNameOf(socs[k], fromReport).Some? then {SocNameOf(socs[k], fromReport).value} else {})
  {
    assert forall s :: s in socs[..k + 1] <==> s in socs[..k] || s == socs[k] by {
      assert socs[..k + 1] == socs[..k] + [socs[k]];
    }
  }

  /** The comparator of the default `sort()`: code-unit order. */
  function ByCodeUnits(): (string, string) -> bool {
    (a: string, b: string) => LexLe(a, b)
  }

  function Identity(): string -> string {
    (s: string) => s
  }

  function NonEmpty(): string -> bool {
    (s: string) => s != ""
  }

  /** `availableSocs`: every name from every game's and every report's tested SoCs, without the
      empty one, once each, in code-unit order. */
  method AvailableSocs(games: seq<Card>) returns (r: seq<string>)
    ensures forall x :: x in r <==> x in AllNames(games) && x != ""
    ensures forall i, j :: 0 <= i < j < |r| ==> LexLe(r[i], r[j]) && r[i] != r[j]
  {
    var socNames: seq<string> := [];
    for i := 0 to |games|
      invariant Distinct(socNames)
      invariant Elems(socNames) == AllNames(games[..i])
    {
      var game := games[i];
      assert games[..i + 1][..i] == games[..i];
      socNames := AddNames(socNames, game.testedSocs, false);
      for k := 0 to |game.submissions|
        invariant Distinct(socNames)
        invariant Elems(socNames) == AllNames(games[..i]) + NamesIn(game.testedSocs, false)
                                     + ReportNames(game.submissions[..k])
      {
        assert game.submissions[..k + 1][..k] == game.submissions[..k];
        socNames := AddNames(socNames, game.submissions[k].testedSocs, true);
      }
      assert game.submissions[..|game.submissions|] == game.submissions;
    }
    assert games[..|games|] == games;
    r := SortBy(Filter(socNames, NonEmpty()), ByCodeUnits());
    SortedNonEmpty(socNames);
  }

  /** `filter(Boolean)` then `sort()` on a duplicate-free list: its non-empty names, once each, in
      code-unit order. */
  lemma SortedNonEmpty(names: seq<string>)
    requires Distinct(names)
    ensures var r := SortBy(Filter(names, NonEmpty()), ByCodeUnits());
      && (forall x :: x in r <==> x in names && x != "")
      && (forall i, j :: 0 <= i < j < |r| ==> LexLe(r[i], r[j]) && r[i] != r[j])
  {
    var nonEmpty := Filter(names, NonEmpty());
    assert DistinctBy(nonEmpty, Identity()) by {
      FilterDistinct(names, NonEmpty());
    }
    var r := SortBy(nonEmpty, ByCodeUnits());
    SortBySorted(nonEmpty, ByCodeUnits()) by {
      LexLePreorder();
    }
    SortByDistinct(nonEmpty, ByCodeUnits(), Identity());
    forall x ensures x in r <==> x in nonEmpty {
      assert x in r <==> x in multiset(r);
    }
  }

  lemma LexLePreorder()
    ensures TotalPreorder(ByCodeUnits())
  {
    forall a: string, b: string ensures ByCodeUnits()(a, b) || ByCodeUnits()(b, a) {
      LexLeTotal(a, b);
    }
    forall a: string, b: string, c: string | ByCodeUnits()(a, b) && ByCodeUnits()(b, c)
      ensures ByCodeUnits()(a, c)
    {
      LexLeTransitive(a, b, c);
    }
  }

  /** Filtering a duplicate-free list keeps it duplicate-free. */
  lemma {:induction false} FilterDistinct(xs: seq<string>, p: string -> bool)
    requires Distinct(xs)
    ensures DistinctBy(Filter(xs, p), Identity())
  {
    if xs != [] {
      FilterDistinct(xs[1..], p);
      var rest := Filter(xs[1..], p);
      if p(xs[0]) {
        assert xs[0] !in xs[1..];
        var r := [xs[0]] + rest;
        forall i, j | 0 <= i < j < |r| ensures r[i] != r[j] {
          if i == 0 {
            assert r[j] in rest;
          } else {
            assert r[i] == rest[i - 1] && r[j] == rest[j - 1];
          }
        }
      }
    }
  }

  // ---------------------------------------------------------------------------
  // stats
  // ---------------------------------------------------------------------------

  /** The six counters of the tally. */
  datatype Bucket = Perfect | Playable | InGame | Menu | Crash | NotTested

  /** The bucket of a game: its lower-cased status, "not-tested" when it has none, and
      "not-tested" for any status outside the five named ones. */
  function BucketOf(status: string): (b: Bucket)
    ensures status == "" ==> b == NotTested
  {
    var s := if status != "" then Lower(status) else "not-tested";
    if s == "perfect" then Perfect
    else if s == "playable" then Playable
    else if s == "in-game" then InGame
    else if s == "menu" then Menu
    else if s == "crash" then Crash
    else NotTested
  }

  /** A game lands in a named bucket exactly when its lower-cased status is that bucket's name;
      every other game, with or without a status, is "not tested". */
  lemma BucketNames(status: string)
    ensures BucketOf(status) == Perfect <==> Lower(status) == "perfect"
    ensures BucketOf(status) == Playable <==> Lower(status) == "playable"
    ensures BucketOf(status) == InGame <==> Lower(status) == "in-game"
    ensures BucketOf(status) == Menu <==> Lower(status) == "menu"
    ensures BucketOf(status) == Crash <==> Lower(status) == "crash"
    ensures BucketOf(status) == NotTested <==> !Known(Lower(status))
  {
  }

  /** The counters. */
  datatype Counts = Counts(perfect: nat, playable: nat, inGame: nat, menu: nat, crash: nat, notTested: nat)

  const NoCounts: Counts := Counts(0, 0, 0, 0, 0, 0)

  function CountOf(c: Counts, b: Bucket): nat {
    match b
    case Perfect => c.perfect
    case Playable => c.playable
    case InGame => c.inGame
    case Menu => c.menu
    case Crash => c.crash
    case NotTested => c.notTested
  }

  /** One more game in bucket `b`. */
  function Bump(c: Counts, b: Bucket): (r: Counts)
    ensures Sum(r) == Sum(c) + 1
  {
    match b
    case Perfect => c.(perfect := c.perfect + 1)
    case Playable => c.(playable := c.playable + 1)
    case InGame => c.(inGame := c.inGame + 1)
    case Menu => c.(menu := c.menu + 1)
    case Crash => c.(crash := c.crash + 1)
    case NotTested => c.(notTested := c.notTested + 1)
  }

  /** Bumping one counter leaves the other five alone. */
  lemma BumpCounts(c: Counts, x: Bucket, b: Bucket)
    ensures CountOf(Bump(c, x), b) == CountOf(c, b) + (if x == b then 1 else 0)
  {
  }

  function Sum(c: Counts): nat {
    c.perfect + c.playable + c.inGame + c.menu + c.crash + c.notTested
  }

  /** The `reduce`, game by game. */
  function Tally(games: seq<Card>): Counts {
    if games == [] then NoCounts
    else Bump(Tally(games[..|games| - 1]), BucketOf(games[|games| - 1].status))
  }

  function InBucket(b: Bucket): Card -> bool {
    (g: Card) => BucketOf(g.status) == b
  }

  /** Each counter is the number of games in its bucket. */
  lemma {:induction false} TallyCounts(games: seq<Card>, b: Bucket)
    ensures CountOf(Tally(games), b) == |Filter(games, InBucket(b))|
  {
    if games != [] {
      var init, last := games[..|games| - 1], games[|games| - 1];
      TallyCounts(init, b);
      var bl := BucketOf(last.status);
      BumpCounts(Tally(init), bl, b);
      FilterLast(games, InBucket(b));
    }
  }

  /** Every game is counted exactly once: the counters add up to the number of games. */
  lemma {:induction false} TallySum(games: seq<Card>)
    ensures Sum(Tally(games)) == |games|
  {
    if games != [] {
      TallySum(games[..|games| - 1]);
    }
  }

  /** `stats`: the number of games and the counters; all zero for an empty list. */
  method Stats(games: seq<Card>) returns (total: nat, counts: Counts)
    ensures total == |games| && counts == Tally(games)
    ensures total == 0 ==> counts == NoCounts
  {
    total := |games|;
    counts := NoCounts;
    if total == 0 {
      return;
    }
    for i := 0 to |games|
      invariant counts == Tally(games[..i])
    {
      assert games[..i + 1][..i] == games[..i];
      counts := Bump(counts, BucketOf(games[i].status));
    }
    assert games[..|games|] == games;
  }

  // ---------------------------------------------------------------------------
  // Colour and flag lookups
  // ---------------------------------------------------------------------------

  /** The two tables `getFilterClasses` reads, and any other `type`. */
  datatype ClassKind = Background | Tag | OtherKind

  const TagDefault: string := "bg-red-400/20 text-red-400"

  /** `colors.background[statusLower] || colors.background["all"]`. */
  function BackgroundClass(statusLower: string): (r: string)
    ensures r != ""
  {
    if statusLower == "perfect" then "bg-green-400/10 hover:bg-green-400/15"
    else if statusLower == "playable" then "bg-yellow-400/10 hover:bg-yellow-400/15"
    else if statusLower == "in-game" then "bg-orange-400/10 hover:bg-orange-400/15"
    else if statusLower == "menu" then "bg-blue-400/10 hover:bg-blue-400/15"
    else if statusLower == "crash" then "bg-red-400/10 hover:bg-red-400/15"
    else "bg-[#2a2a2f] hover:bg-[#323237]"
  }

  /** `colors.tag[statusLower] || colors.tag["default"]`. */
  function TagClass(statusLower: string): (r: string)
    ensures r != ""
  {
    if statusLower == "perfect" then "bg-green-400/20 text-green-400"
    else if statusLower == "playable" then "bg-yellow-400/20 text-yellow-400"
    else if statusLower == "in-game" then "bg-orange-400/20 text-orange-400"
    else if statusLower == "menu" then "bg-blue-400/20 text-blue-400"
    else if statusLower == "crash" then "bg-red-500/25 text-red-400"
    else TagDefault
  }

  /** The statuses the tables name. */
  predicate Known(statusLower: string) {
    statusLower in {"perfect", "playable", "in-game", "menu", "crash"}
  }

  /** `getFilterClasses(status, type)`. */
  function FilterClasses(status: string, kind: ClassKind): (r: string)
    ensures kind == OtherKind <==> r == ""
    ensures kind == Background && !Known(Lower(status)) ==> r == BackgroundClass("all")
    ensures kind == Tag && !Known(Lower(status)) ==> r == TagDefault
  {
    var statusLower := Lower(status);
    match kind
    case Background => BackgroundClass(statusLower)
    case Tag => TagClass(statusLower)
    case OtherKind => ""
  }

  /** The lookup ignores case: a status and its lower-cased form get the same classes. */
  lemma FilterClassesIgnoreCase(status: string, kind: ClassKind)
    ensures FilterClasses(Lower(status), kind) == FilterClasses(status, kind)
  {
    LowerIdempotent(status);
  }

  /** The five statuses have five different tag colours, none of them the fallback except
      none: every known status is told apart. */
  lemma TagClassesDistinct(a: string, b: string)
    requires Known(a) && Known(b) && a != b
    ensures TagClass(a) != TagClass(b) && TagClass(a) != TagDefault
  {
  }

  /** `getFlagIcon(region)`: the first of NTSC-U, PAL-E, PAL-A, NTSC-J and PAL that the upper-cased
      region contains; the globe for a missing or unmatched region. */
  function FlagIcon(region: string): (r: string)
    ensures region == "" ==> r == "/flags/glb.svg"
    ensures Contains(Upper(region), "NTSC-U") ==> r == "/flags/us.svg"
    ensures !Contains(Upper(region), "NTSC-U") && Contains(Upper(region), "PAL-E") ==> r == "/flags/eu.svg"
    ensures !Contains(Upper(region), "NTSC-U") && !Contains(Upper(region), "PAL-E") && Contains(Upper(region), "PAL-A")
            ==> r == "/flags/au.svg"
    ensures (!Contains(Upper(region), "NTSC-U") && !Contains(Upper(region), "PAL-E") && !Contains(Upper(region), "PAL-A")
             && Contains(Upper(region), "NTSC-J")) ==> r == "/flags/jp.svg"
    ensures (!Contains(Upper(region), "NTSC-U") && !Contains(Upper(region), "PAL-E") && !Contains(Upper(region), "PAL-A")
             && !Contains(Upper(region), "NTSC-J") && Contains(Upper(region), "PAL")) ==> r == "/flags/eu.svg"
    ensures r == "/flags/glb.svg" <==> region == "" || !(Contains(Upper(region), "NTSC-U") || Contains(Upper(region), "PAL")
                                                      || Contains(Upper(region), "NTSC-J"))
  {
    if region == "" then "/flags/glb.svg"
    else
      var upper := Upper(region);
      if Contains(upper, "NTSC-U") then "/flags/us.svg"
      else if Contains(upper, "PAL-E") then
        PalOfPalE(upper);
        "/flags/eu.svg"
      else if Contains(upper, "PAL-A") then
        PalOfPalA(upper);
        "/flags/au.svg"
      else if Contains(upper, "NTSC-J") then "/flags/jp.svg"
      else if Contains(upper, "PAL") then "/flags/eu.svg"
      else "/flags/glb.svg"
  }

  /** A region naming PAL-E or PAL-A also names PAL. */
  lemma PalOfPalE(s: string)
    requires Contains(s, "PAL-E")
    ensures Contains(s, "PAL")
  {
    var i: nat :| OccursAt(s, "PAL-E", i);
    assert s[i..i + 3] == s[i..i + 5][..3];
    assert OccursAt(s, "PAL", i);
  }

  lemma PalOfPalA(s: string)
    requires Contains(s, "PAL-A")
    ensures Contains(s, "PAL")
  {
    var i: nat :| OccursAt(s, "PAL-A", i);
    assert s[i..i + 3] == s[i..i + 5][..3];
    assert OccursAt(s, "PAL", i);
  }

  // ---------------------------------------------------------------------------
  // Game cards
  // ---------------------------------------------------------------------------

  /** "Latest note by @…": the last report's author, or "community". */
  function Reporter(g: Card): (r: string)
    ensures r != ""
    ensures |g.submissions| > 0 && g.submissions[|g.submissions| - 1].submittedBy != "" ==>
              r == g.submissions[|g.submissions| - 1].submittedBy
    ensures (|g.submissions| == 0 || g.submissions[|g.submissions| - 1].submittedBy == "") ==> r == "community"
  {
    if |g.submissions| > 0 && g.submissions[|g.submissions| - 1].submittedBy != "" then
      g.submissions[|g.submissions| - 1].submittedBy
    else "community"
  }

  /** `game.submissionCount || submissions.length || 1`: a card never shows zero reports. */
  function ReportCount(g: Card): (r: int)
    ensures r != 0
    ensures g.submissionCount != 0 ==> r == g.submissionCount
    ensures g.submissionCount == 0 && |g.submissions| > 0 ==> r == |g.submissions|
    ensures g.submissionCount >= 0 ==> r > 0
  {
    if g.submissionCount != 0 then g.submissionCount
    else if |g.submissions| != 0 then |g.submissions|
    else 1
  }

  /** `\w`. */
  predicate IsWordChar(c: char) {
    ('a' <= c <= 'z') || ('A' <= c <= 'Z') || ('0' <= c <= '9') || c == '_'
  }

  /** Position `k` starts a word that the regex `/(^|-)(\w)/g` capitalises: a word character at
      the start of the string or right after a '-'. */
  predicate StartsWord(s: string, k: nat)
    requires k < |s|
  {
    IsWordChar(s[k]) && (k == 0 || s[k - 1] == '-')
  }

  /** The character a card shows at position `k`. */
  function DisplayChar(s: string, k: nat): char
    requires k < |s|
  {
    if StartsWord(s, k) then UpperChar(s[k]) else s[k]
  }

  /** The global replacement of `/(^|-)(\w)/g` from position `i`: at the start of the string a word
      character is a match, elsewhere a '-' followed by one; each match has its word character
      upper-cased, and the scan resumes after it. */
  function CaseFrom(s: string, i: nat): (r: string)
    requires i <= |s|
    requires 0 < i < |s| ==> !StartsWord(s, i)
    ensures |r| == |s| - i
    ensures forall j :: 0 <= j < |r| ==> r[j] == DisplayChar(s, i + j)
    decreases |s| - i
  {
    if i == |s| then []
    else if i == 0 && IsWordChar(s[0]) then
      [UpperChar(s[0])] + CaseFrom(s, 1)
    else if s[i] == '-' && i + 1 < |s| && IsWordChar(s[i + 1]) then
      ['-', UpperChar(s[i + 1])] + CaseFrom(s, i + 2)
    else [s[i]] + CaseFrom(s, i + 1)
  }

  /** `status.replace(/(^|-)(\w)/g, ...)`: the status as a card shows it, with the first letter of
      every hyphen-separated word upper-cased and everything else kept. */
  function StatusDisplay(status: string): (r: string)
    ensures |r| == |status|
    ensures forall k :: 0 <= k < |r| ==> r[k] == DisplayChar(status, k)
  {
    CaseFrom(status, 0)
  }

  /** Displaying a displayed status changes nothing more. */
  lemma StatusDisplayIdempotent(status: string)
    ensures StatusDisplay(StatusDisplay(status)) == StatusDisplay(status)
  {
    var r := StatusDisplay(status);
    var rr := StatusDisplay(r);
    forall k | 0 <= k < |status| ensures rr[k] == r[k] {
      UpperKeepsClass(status[k]);
      if k > 0 {
        UpperKeepsClass(status[k - 1]);
        assert r[k - 1] == DisplayChar(status, k - 1);
      }
      assert StartsWord(r, k) <==> StartsWord(status, k);
    }
  }

  /** Upper-casing keeps a character a word character, a hyphen a hyphen, and upper case upper. */
  lemma UpperKeepsClass(c: char)
    ensures IsWordChar(UpperChar(c)) <==> IsWordChar(c)
    ensures UpperChar(c) == '-' <==> c == '-'
    ensures UpperChar(UpperChar(c)) == UpperChar(c)
  {
  }
}
