/**
  * The aggregation side of the compatibility backend: the de-duplicating
  * union of tested SoCs (`aggregateTestedSocs`), the status histogram
  * (`buildStatusBreakdown`), and the grouping of seed games and community
  * submissions into one summarised entry per game (`groupGamesWithAverages`).
  */
module Aggregate {
  import opened Wrappers
  import opened Text
  import opened Seqs
  import opened Scores
  import opened Normalize

  // ---------------------------------------------------------------------------
  // Tested-SoC union
  // ---------------------------------------------------------------------------

  /** The key the union de-duplicates on: the three fields joined with '|'. */
  function SocKey(c: Soc): string {
    c.socName + "|" + c.vulkanStatus + "|" + c.openglStatus
  }

  function KeysOf(xs: seq<Soc>): set<string> {
    set c | c in xs :: SocKey(c)
  }

  /** The tested SoCs of a list of submissions, in order (`submission.tested_socs || []` for each). */
  function Flatten(subs: seq<Submission>): seq<Soc> {
    if subs == [] then [] else Flatten(subs[..|subs| - 1]) + subs[|subs| - 1].testedSocs
  }

  /** Reference definition of the union: walk the list and keep an entry whose key has not been kept yet. */
  function SocUnion(xs: seq<Soc>): (r: seq<Soc>)
    ensures forall c :: c in r ==> c in xs
  {
    if xs == [] then []
    else
      var prev := SocUnion(xs[..|xs| - 1]);
      var c := xs[|xs| - 1];
      if SocKey(c) in KeysOf(prev) then prev else prev + [c]
  }

  lemma SocUnionSnoc(xs: seq<Soc>, c: Soc)
    ensures SocUnion(xs + [c]) ==
              if SocKey(c) in KeysOf(SocUnion(xs)) then SocUnion(xs) else SocUnion(xs) + [c]
  {
    assert (xs + [c])[..|xs|] == xs;
  }

  lemma KeysOfSnoc(xs: seq<Soc>, c: Soc)
    ensures KeysOf(xs + [c]) == KeysOf(xs) + {SocKey(c)}
  {
  }

  lemma FlattenSnoc(subs: seq<Submission>, i: nat)
    requires i < |subs|
    ensures Flatten(subs[..i + 1]) == Flatten(subs[..i]) + subs[i].testedSocs
  {
    assert subs[..i + 1][..i] == subs[..i];
  }

  /** `aggregateTestedSocs`: nested loops over the submissions and their SoCs, with a set of seen keys. */
  method AggregateTestedSocs(submissions: seq<Submission>) returns (aggregated: seq<Soc>)
    ensures aggregated == SocUnion(Flatten(submissions))
  {
    var seen: set<string> := {};
    aggregated := [];
    for i := 0 to |submissions|
      invariant aggregated == SocUnion(Flatten(submissions[..i]))
      invariant seen == KeysOf(aggregated)
    {
      var socs := submissions[i].testedSocs;
      ghost var before := Flatten(submissions[..i]);
      assert before + socs[..0] == before;
      for j := 0 to |socs|
        invariant aggregated == SocUnion(before + socs[..j])
        invariant seen == KeysOf(aggregated)
      {
        assert before + socs[..j + 1] == (before + socs[..j]) + [socs[j]];
        SocUnionSnoc(before + socs[..j], socs[j]);
        var key := SocKey(socs[j]);
        if key !in seen {
          KeysOfSnoc(aggregated, socs[j]);
          seen := seen + {key};
          aggregated := aggregated + [socs[j]];
        }
      }
      assert socs[..|socs|] == socs;
      FlattenSnoc(submissions, i);
    }
    assert submissions[..|submissions|] == submissions;
  }

  /** No two entries of the union share a key. */
  lemma {:induction false} SocUnionDistinct(xs: seq<Soc>)
    ensures DistinctBy(SocUnion(xs), SocKey)
  {
    if xs != [] {
      SocUnionDistinct(xs[..|xs| - 1]);
    }
  }

  /** The union carries exactly the keys of its input. */
  lemma {:induction false} SocUnionKeys(xs: seq<Soc>)
    ensures KeysOf(SocUnion(xs)) == KeysOf(xs)
  {
    if xs != [] {
      var p := xs[..|xs| - 1];
      SocUnionKeys(p);
      assert xs == p + [xs[|xs| - 1]];
      assert KeysOf(xs) == KeysOf(p) + {SocKey(xs[|xs| - 1])};
    }
  }

  /** Index of the first entry of `xs` with key `key`, or `|xs|` when there is none. */
  function FirstIndex(xs: seq<Soc>, key: string): (r: nat)
    ensures r <= |xs|
    ensures r < |xs| <==> key in KeysOf(xs)
    ensures r < |xs| ==> SocKey(xs[r]) == key
    ensures forall j :: 0 <= j < r ==> SocKey(xs[j]) != key
  {
    if xs == [] then 0
    else if SocKey(xs[0]) == key then 0
    else
      var r := 1 + FirstIndex(xs[1..], key);
      assert key in KeysOf(xs[1..]) ==> key in KeysOf(xs);
      assert key in KeysOf(xs) ==> key in KeysOf(xs[1..]) by {
        if key in KeysOf(xs) {
          var c :| c in xs && SocKey(c) == key;
          assert c != xs[0];
        }
      }
      r
  }

  lemma FirstIndexOfPrefix(xs: seq<Soc>, c: Soc, key: string)
    requires key in KeysOf(xs)
    ensures FirstIndex(xs + [c], key) == FirstIndex(xs, key)
  {
    var f := FirstIndex(xs, key);
    var g := FirstIndex(xs + [c], key);
    assert (xs + [c])[f] == xs[f];
    assert key in KeysOf(xs + [c]);
  }

  lemma FirstIndexOfLast(xs: seq<Soc>, c: Soc)
    requires SocKey(c) !in KeysOf(xs)
    ensures FirstIndex(xs + [c], SocKey(c)) == |xs|
  {
    var g := FirstIndex(xs + [c], SocKey(c));
    assert (xs + [c])[|xs|] == c;
  }

  /** Every entry of the union is the first entry of the input with its key. */
  lemma {:induction false} SocUnionFirstOccurrence(xs: seq<Soc>)
    ensures var u := SocUnion(xs);
      forall k :: 0 <= k < |u| ==> FirstIndex(xs, SocKey(u[k])) < |xs| && xs[FirstIndex(xs, SocKey(u[k]))] == u[k]
  {
    if xs != [] {
      var p := xs[..|xs| - 1];
      var c := xs[|xs| - 1];
      assert xs == p + [c];
      SocUnionFirstOccurrence(p);
      SocUnionKeys(p);
      var prev := SocUnion(p);
      var u := SocUnion(xs);
      forall k | 0 <= k < |u|
        ensures FirstIndex(xs, SocKey(u[k])) < |xs| && xs[FirstIndex(xs, SocKey(u[k]))] == u[k]
      {
        if k < |prev| {
          assert u[k] == prev[k];
          assert prev[k] in prev;
          FirstIndexOfPrefix(p, c, SocKey(prev[k]));
          assert xs[FirstIndex(p, SocKey(prev[k]))] == p[FirstIndex(p, SocKey(prev[k]))];
        } else {
          assert u == prev + [c] && u[k] == c;
          FirstIndexOfLast(p, c);
        }
      }
    }
  }

  /** The union lists its entries in the order their keys were first seen. */
  lemma {:induction false} SocUnionOrder(xs: seq<Soc>)
    ensures var u := SocUnion(xs);
      forall k, l :: 0 <= k < l < |u| ==> FirstIndex(xs, SocKey(u[k])) < FirstIndex(xs, SocKey(u[l]))
  {
    if xs != [] {
      var p := xs[..|xs| - 1];
      var c := xs[|xs| - 1];
      assert xs == p + [c];
      SocUnionOrder(p);
      SocUnionKeys(p);
      var prev := SocUnion(p);
      var u := SocUnion(xs);
      forall k | 0 <= k < |prev|
        ensures FirstIndex(xs, SocKey(prev[k])) == FirstIndex(p, SocKey(prev[k])) < |p|
      {
        assert prev[k] in prev;
        FirstIndexOfPrefix(p, c, SocKey(prev[k]));
      }
      if SocKey(c) !in KeysOf(prev) {
        FirstIndexOfLast(p, c);
        assert u == prev + [c];
        forall k, l | 0 <= k < l < |u|
          ensures FirstIndex(xs, SocKey(u[k])) < FirstIndex(xs, SocKey(u[l]))
        {
          if l == |prev| {
            assert u[k] == prev[k];
          } else {
            assert u[k] == prev[k] && u[l] == prev[l];
          }
        }
      }
    }
  }

  /** Two different triples can share a joined key when a field holds '|', so the union
      keeps only the first of them. */
  lemma SocKeyCollision()
    ensures Soc("a|b", "c", "d") != Soc("a", "b|c", "d")
    ensures SocKey(Soc("a|b", "c", "d")) == SocKey(Soc("a", "b|c", "d"))
    ensures SocUnion([Soc("a|b", "c", "d"), Soc("a", "b|c", "d")]) == [Soc("a|b", "c", "d")]
  {
    var x, y := Soc("a|b", "c", "d"), Soc("a", "b|c", "d");
    assert x.socName != y.socName;
    assert SocKey(x) == "a|b|c|d";
    assert SocKey(y) == "a|b|c|d";
    var xs := [x, y];
    assert xs[..1] == [x];
    assert [x][..0] == [];
    assert SocUnion([x]) == [x];
    assert SocKey(y) in KeysOf([x]);
  }

  // ---------------------------------------------------------------------------
  // Status breakdown
  // ---------------------------------------------------------------------------

  /** The histogram key of a submission: `(status || "Unknown").toLowerCase()`. */
  function BreakdownKey(s: Submission): string {
    Lower(if s.status != "" then s.status else "Unknown")
  }

  function HasBreakdownKey(k: string): Submission -> bool {
    s => BreakdownKey(s) == k
  }

  /** `buildStatusBreakdown`: a fold that adds one to the count of each submission's key. */
  function Breakdown(subs: seq<Submission>): map<string, nat> {
    if subs == [] then map[]
    else
      var acc := Breakdown(subs[..|subs| - 1]);
      var k := BreakdownKey(subs[|subs| - 1]);
      acc[k := (if k in acc then acc[k] else 0) + 1]
  }

  /** Each count is the number of submissions with that key, and only keys that occur are present. */
  lemma {:induction false} BreakdownCounts(subs: seq<Submission>, k: string)
    ensures k in Breakdown(subs) <==> |Filter(subs, HasBreakdownKey(k))| > 0
    ensures k in Breakdown(subs) ==> Breakdown(subs)[k] == |Filter(subs, HasBreakdownKey(k))|
  {
    if subs != [] {
      var p := subs[..|subs| - 1];
      var s := subs[|subs| - 1];
      assert subs == p + [s];
      BreakdownCounts(p, k);
      FilterAppend(p, s, HasBreakdownKey(k));
    }
  }

  /** Sum of the values of a map. */
  ghost function MapSum(m: map<string, nat>): nat
    decreases |m.Keys|
  {
    if m == map[] then 0
    else
      var k :| k in m.Keys;
      m[k] + MapSum(m - {k})
  }

  /** The sum does not depend on which key is taken out first. */
  lemma {:induction false} MapSumRemove(m: map<string, nat>, k: string)
    requires k in m
    ensures MapSum(m) == m[k] + MapSum(m - {k})
    decreases |m.Keys|
  {
    var j :| j in m.Keys && MapSum(m) == m[j] + MapSum(m - {j});
    if j != k {
      var mj, mk := m - {j}, m - {k};
      assert |mj.Keys| < |m.Keys| by { assert mj.Keys < m.Keys; }
      assert |mk.Keys| < |m.Keys| by { assert mk.Keys < m.Keys; }
      MapSumRemove(mj, k);
      MapSumRemove(mk, j);
      assert mj - {k} == mk - {j};
    }
  }

  lemma MapSumUpdate(m: map<string, nat>, k: string, v: nat)
    ensures MapSum(m[k := v]) == MapSum(m) - (if k in m then m[k] else 0) + v
  {
    var m' := m[k := v];
    MapSumRemove(m', k);
    if k in m {
      MapSumRemove(m, k);
      assert m' - {k} == m - {k};
    } else {
      assert m' - {k} == m;
    }
  }

  /** The histogram counts add up to the number of submissions. */
  lemma {:induction false} BreakdownTotal(subs: seq<Submission>)
    ensures MapSum(Breakdown(subs)) == |subs|
  {
    if subs != [] {
      var p := subs[..|subs| - 1];
      BreakdownTotal(p);
      var acc := Breakdown(p);
      var k := BreakdownKey(subs[|subs| - 1]);
      MapSumUpdate(acc, k, (if k in acc then acc[k] else 0) + 1);
    }
  }

  // ---------------------------------------------------------------------------
  // Grouping
  // ---------------------------------------------------------------------------

  /** `[titleId || title, region || "GLOBAL"]`, upper-cased and joined with "::". */
  function KeyFrom(title: string, titleId: string, region: string): string {
    Upper(if titleId != "" then titleId else title) + "::" + Upper(if region != "" then region else "GLOBAL")
  }

  function GroupKey(s: Submission): string {
    KeyFrom(s.title, s.titleId, s.region)
  }

  function InGroup(k: string): Submission -> bool {
    s => GroupKey(s) == k
  }

  /** The submissions of `all` whose key is `k`, in appending order. */
  function Members(all: seq<Submission>, k: string): seq<Submission> {
    Filter(all, InGroup(k))
  }

  lemma MembersSnoc(all: seq<Submission>, s: Submission, k: string)
    ensures Members(all + [s], k) == Members(all, k) + (if GroupKey(s) == k then [s] else [])
  {
    FilterAppend(all, s, InGroup(k));
  }

  /** The keys in the order their groups were created (the insertion order of the `Map`). */
  function GroupOrder(all: seq<Submission>): seq<string> {
    if all == [] then []
    else
      var ks := GroupOrder(all[..|all| - 1]);
      var k := GroupKey(all[|all| - 1]);
      if k in ks then ks else ks + [k]
  }

  ghost predicate NoDuplicates(ks: seq<string>) {
    forall i, j :: 0 <= i < j < |ks| ==> ks[i] != ks[j]
  }

  /** A key is listed exactly when some submission carries it, and no key is listed twice. */
  lemma {:induction false} GroupOrderSpec(all: seq<Submission>)
    ensures forall k :: k in GroupOrder(all) <==> Members(all, k) != []
    ensures NoDuplicates(GroupOrder(all))
  {
    if all != [] {
      var p := all[..|all| - 1];
      var s := all[|all| - 1];
      assert all == p + [s];
      GroupOrderSpec(p);
      forall k ensures Members(all, k) == Members(p, k) + (if GroupKey(s) == k then [s] else []) {
        MembersSnoc(p, s, k);
      }
    }
  }

  /** The record a group holds: the header fields of its first member and its members. */
  datatype Group = Group(title: string, titleId: string, region: string, submissions: seq<Submission>)

  function GroupFor(all: seq<Submission>, k: string): Group
    requires Members(all, k) != []
  {
    var first := Members(all, k)[0];
    Group(first.title, first.titleId, first.region, Members(all, k))
  }

  /** `order` and `groups` are the state of the group `Map` after appending every submission of `all`. */
  ghost predicate GroupsOf(all: seq<Submission>, order: seq<string>, groups: map<string, Group>) {
    && order == GroupOrder(all)
    && (forall k :: k in groups <==> k in order)
    && (forall k :: k in groups ==> Members(all, k) != [] && groups[k] == GroupFor(all, k))
  }

  /** `append`: create the group on first sight of its key, then push the submission.
      Appending `s` to the groups of `all` gives the groups of `all + [s]`. */
  method Append(ghost all: seq<Submission>, ghost all': seq<Submission>,
                order: seq<string>, groups: map<string, Group>, s: Submission)
    returns (order': seq<string>, groups': map<string, Group>)
    requires GroupsOf(all, order, groups)
    requires all' == all + [s]
    ensures GroupsOf(all', order', groups')
  {
    var k := GroupKey(s);
    GroupOrderSpec(all);
    assert (all + [s])[..|all|] == all;
    MembersSnoc(all, s, k);
    order', groups' := order, groups;
    if k !in groups {
      order' := order + [k];
      groups' := groups[k := Group(s.title, s.titleId, s.region, [])];
      assert Members(all, k) == [];
    }
    groups' := groups'[k := groups'[k].(submissions := groups'[k].submissions + [s])];
    assert groups'[k] == GroupFor(all + [s], k);
    forall j | j in groups' && j != k
      ensures Members(all + [s], j) != [] && groups'[j] == GroupFor(all + [s], j)
    {
      MembersSnoc(all, s, j);
    }
  }

  /** The first half of `groupGamesWithAverages`: seed games, then community submissions, appended in order. */
  method BuildGroups(baseGames: seq<Submission>, userSubmissions: seq<Submission>)
    returns (order: seq<string>, groups: map<string, Group>)
    ensures GroupsOf(baseGames + userSubmissions, order, groups)
  {
    order, groups := [], map[];
    for i := 0 to |baseGames|
      invariant GroupsOf(baseGames[..i], order, groups)
    {
      PrefixSnoc([], baseGames, i);
      order, groups := Append(baseGames[..i], baseGames[..i + 1], order, groups, baseGames[i]);
    }
    assert baseGames[..|baseGames|] == baseGames + userSubmissions[..0];
    for i := 0 to |userSubmissions|
      invariant GroupsOf(baseGames + userSubmissions[..i], order, groups)
    {
      PrefixSnoc(baseGames, userSubmissions, i);
      order, groups := Append(baseGames + userSubmissions[..i], baseGames + userSubmissions[..i + 1],
                              order, groups, userSubmissions[i]);
    }
    assert userSubmissions[..|userSubmissions|] == userSubmissions;
  }

  /** A group's header comes from a seed game whenever a seed game has its key,
      because seed games are appended first. */
  lemma SeedHeaderFirst(baseGames: seq<Submission>, userSubmissions: seq<Submission>, k: string)
    requires Members(baseGames, k) != []
    ensures Members(baseGames + userSubmissions, k) != []
    ensures Members(baseGames + userSubmissions, k)[0] == Members(baseGames, k)[0]
    ensures Members(baseGames, k)[0] in baseGames
  {
    FilterConcat(baseGames, userSubmissions, InGroup(k));
  }

  // ---------------------------------------------------------------------------
  // Per-group summary
  // ---------------------------------------------------------------------------

  /** One entry of a game's `notesList`. */
  datatype NoteEntry = NoteEntry(note: string, status: string, submittedBy: string, createdAt: int, version: string)

  /** One entry of the aggregated list served by `GET /api/compatibility`. */
  datatype Game = Game(
    title: string,
    titleId: string,
    region: string,
    status: string,
    globalScore: real,
    version: string,
    notes: string,
    notesList: seq<NoteEntry>,
    testedSocs: seq<Soc>,
    submissions: seq<Submission>,
    submissionCount: nat,
    statusBreakdown: map<string, nat>)

  /** The member comparator `createdAt(a) - createdAt(b)`, read as "a may stay before b". */
  const ByCreatedAt: (Submission, Submission) -> bool := (a: Submission, b: Submission) => a.createdAt <= b.createdAt

  function CreatedAtIs(t: int): Submission -> bool {
    (s: Submission) => s.createdAt == t
  }

  /** The weight of one submission's status. */
  function Points(s: Submission): real {
    ScoreForStatus(s.status)
  }

  /** The mean weight, 0 for an empty list (`submissions.length ? totalScore / submissions.length : 0`). */
  function Mean(xs: seq<Submission>): (r: real)
    ensures 0.0 <= r <= 5.0
  {
    forall s | s in xs ensures 0.0 <= Points(s) <= 5.0 {
      ScoreIsWeightOfKind(s.status);
    }
    RealMeanByBounds(xs, Points, 5.0);
    RealMeanBy(xs, Points)
  }

  function NotesOf(xs: seq<Submission>): (r: seq<NoteEntry>)
    ensures |r| == |xs|
    ensures forall i :: 0 <= i < |xs| ==>
              r[i] == NoteEntry(xs[i].notes, xs[i].status, xs[i].submittedBy, xs[i].createdAt, xs[i].version)
  {
    seq(|xs|, i requires 0 <= i < |xs| =>
      NoteEntry(xs[i].notes, xs[i].status, xs[i].submittedBy, xs[i].createdAt, xs[i].version))
  }

  /** The per-group mapping of `groupGamesWithAverages`. */
  function Summarize(g: Group): (r: Game)
    ensures r.title == g.title && r.titleId == g.titleId && r.region == g.region
    ensures multiset(r.submissions) == multiset(g.submissions)
    ensures r.submissionCount == |g.submissions|
    ensures 0.0 <= r.globalScore <= 5.0
  {
    var sorted := SortBy(g.submissions, ByCreatedAt);
    var average := Mean(sorted);
    var notesList := NotesOf(sorted);
    Game(
      g.title, g.titleId, g.region,
      StatusFromAverage(average),
      average,
      if sorted != [] && sorted[|sorted| - 1].version != "" then sorted[|sorted| - 1].version else "Unknown",
      if notesList != [] && notesList[|notesList| - 1].note != "" then notesList[|notesList| - 1].note else "",
      notesList,
      SocUnion(Flatten(sorted)),
      sorted,
      |sorted|,
      Breakdown(sorted))
  }

  /** The members are ordered by `createdAt`, and members with equal timestamps keep their appending order. */
  lemma SummaryMembersOrdered(g: Group)
    ensures SortedBy(Summarize(g).submissions, ByCreatedAt)
    ensures forall t :: Filter(Summarize(g).submissions, CreatedAtIs(t)) == Filter(g.submissions, CreatedAtIs(t))
  {
    SortBySorted(g.submissions, ByCreatedAt);
    forall t ensures Filter(Summarize(g).submissions, CreatedAtIs(t)) == Filter(g.submissions, CreatedAtIs(t)) {
      SortByStable(g.submissions, ByCreatedAt, CreatedAtIs(t));
    }
  }

  /** In a list ordered by creation time the last element is the latest. */
  lemma SortedLast(xs: seq<Submission>)
    requires xs != [] && SortedBy(xs, ByCreatedAt)
    ensures forall s :: s in xs ==> s.createdAt <= xs[|xs| - 1].createdAt
  {
    forall s | s in xs ensures s.createdAt <= xs[|xs| - 1].createdAt {
      var i :| 0 <= i < |xs| && xs[i] == s;
      if i < |xs| - 1 {
        assert ByCreatedAt(xs[i], xs[|xs| - 1]);
      }
    }
  }

  /** `version` and `notes` come from the last member, which carries the latest timestamp of the group. */
  lemma SummaryLatest(g: Group)
    requires g.submissions != []
    ensures var r := Summarize(g);
      var last := r.submissions[|r.submissions| - 1];
      && (forall s :: s in g.submissions ==> s.createdAt <= last.createdAt)
      && r.version == (if last.version != "" then last.version else "Unknown")
      && r.notes == last.notes
  {
    var r := Summarize(g);
    SummaryMembersOrdered(g);
    SortedLast(r.submissions);
    forall s | s in g.submissions ensures s in r.submissions {
      assert s in multiset(g.submissions);
    }
  }

  /** A group whose members all weigh `w` scores exactly `w`, and its label is the label of `w`. */
  lemma SummaryUnanimous(g: Group, w: real)
    requires g.submissions != []
    requires forall s :: s in g.submissions ==> ScoreForStatus(s.status) == w
    ensures Summarize(g).globalScore == w
    ensures Summarize(g).status == StatusFromAverage(w)
  {
    var sorted := SortBy(g.submissions, ByCreatedAt);
    forall s | s in sorted ensures Points(s) == w {
      assert s in multiset(sorted);
    }
    RealMeanByConstant(sorted, Points, w);
  }

  /** The histogram counts add up to `submissionCount`, and the tested SoCs are the key-distinct union
      of the members' SoCs. */
  lemma SummaryCounts(g: Group)
    ensures var r := Summarize(g);
      && MapSum(r.statusBreakdown) == r.submissionCount
      && DistinctBy(r.testedSocs, SocKey)
      && KeysOf(r.testedSocs) == KeysOf(Flatten(r.submissions))
  {
    var r := Summarize(g);
    BreakdownTotal(r.submissions);
    SocUnionDistinct(Flatten(r.submissions));
    SocUnionKeys(Flatten(r.submissions));
  }

  // ---------------------------------------------------------------------------
  // The aggregated list
  // ---------------------------------------------------------------------------

  /** The summaries of the groups with the given keys, in the given order. */
  function GamesOf(all: seq<Submission>, keys: seq<string>): (r: seq<Game>)
    requires forall k :: k in keys ==> Members(all, k) != []
    ensures |r| == |keys|
    ensures forall i :: 0 <= i < |keys| ==> r[i] == Summarize(GroupFor(all, keys[i]))
  {
    seq(|keys|, i requires 0 <= i < |keys| => Summarize(GroupFor(all, keys[i])))
  }

  lemma GamesOfSnoc(all: seq<Submission>, keys: seq<string>, k: string)
    requires forall k' :: k' in keys + [k] ==> Members(all, k') != []
    ensures GamesOf(all, keys + [k]) == GamesOf(all, keys) + [Summarize(GroupFor(all, k))]
  {
    assert forall k' :: k' in keys ==> k' in keys + [k];
    var init := GamesOf(all, keys);
    var l := GamesOf(all, keys + [k]);
    forall i | 0 <= i < |keys| ensures l[i] == init[i] {
      assert (keys + [k])[i] == keys[i];
    }
    assert (keys + [k])[|keys|] == k;
    SnocEqual(l, init, Summarize(GroupFor(all, k)));
  }

  /** `a.title.localeCompare(b.title)`, lifted from an order on titles. */
  function ByTitle(titleLe: (string, string) -> bool): (Game, Game) -> bool {
    (a: Game, b: Game) => titleLe(a.title, b.title)
  }

  /** Reference definition of `groupGamesWithAverages(baseGames, userSubmissions)`. */
  function Aggregated(baseGames: seq<Submission>, userSubmissions: seq<Submission>,
                      titleLe: (string, string) -> bool): seq<Game>
  {
    SortBy(Games(baseGames + userSubmissions), ByTitle(titleLe))
  }

  /** One summary per group, in first-seen order. */
  function Games(all: seq<Submission>): (r: seq<Game>)
    ensures |r| == |GroupOrder(all)|
  {
    GroupOrderSpec(all);
    GamesOf(all, GroupOrder(all))
  }

  /** `groupGamesWithAverages`: build the groups, summarise each in creation order, sort by title. */
  method GroupGamesWithAverages(baseGames: seq<Submission>, userSubmissions: seq<Submission>,
                                titleLe: (string, string) -> bool)
    returns (games: seq<Game>)
    ensures games == Aggregated(baseGames, userSubmissions, titleLe)
  {
    var order, groups := BuildGroups(baseGames, userSubmissions);
    ghost var all := baseGames + userSubmissions;
    var summaries: seq<Game> := [];
    for i := 0 to |order|
      invariant summaries == GamesOf(all, order[..i])
    {
      SummariesStep(all, order, groups, i);
      summaries := summaries + [Summarize(groups[order[i]])];
    }
    assert order[..|order|] == order;
    assert summaries == Games(all);
    games := SortBy(summaries, ByTitle(titleLe));
  }

  /** One more turn of the summarising loop appends the summary of the next key's group. */
  lemma SummariesStep(all: seq<Submission>, order: seq<string>, groups: map<string, Group>, i: nat)
    requires GroupsOf(all, order, groups) && i < |order|
    ensures forall k :: k in order[..i + 1] ==> Members(all, k) != []
    ensures order[i] in groups
    ensures GamesOf(all, order[..i + 1]) == GamesOf(all, order[..i]) + [Summarize(groups[order[i]])]
  {
    assert order[..i + 1] == order[..i] + [order[i]];
    assert forall k :: k in order[..i + 1] ==> k in order;
    GamesOfSnoc(all, order[..i], order[i]);
  }

  /** The grouping key recomputed from a game's own header fields. */
  function GameKey(g: Game): string {
    KeyFrom(g.title, g.titleId, g.region)
  }

  function CountOf(g: Game): int {
    g.submissionCount
  }

  lemma SummaryOfGroup(all: seq<Submission>, k: string)
    requires Members(all, k) != []
    ensures GameKey(Summarize(GroupFor(all, k))) == k
    ensures multiset(Summarize(GroupFor(all, k)).submissions) == multiset(Members(all, k))
  {
    assert Members(all, k)[0] in Members(all, k);
  }

  /** The i-th summary is the group of the i-th first-seen key: it carries that key and
      exactly the submissions with that key, and it is not empty. */
  lemma GamesAreGroups(all: seq<Submission>)
    ensures forall i :: 0 <= i < |Games(all)| ==>
      && GameKey(Games(all)[i]) == GroupOrder(all)[i]
      && Games(all)[i].submissionCount > 0
      && multiset(Games(all)[i].submissions) == multiset(Members(all, GroupOrder(all)[i]))
  {
    var keys := GroupOrder(all);
    GroupOrderSpec(all);
    forall i | 0 <= i < |Games(all)|
      ensures GameKey(Games(all)[i]) == keys[i]
      ensures Games(all)[i].submissionCount > 0
      ensures multiset(Games(all)[i].submissions) == multiset(Members(all, keys[i]))
    {
      SummaryOfGroup(all, keys[i]);
    }
  }

  /** Every game of the list is a non-empty group holding exactly the submissions with its key. */
  lemma AggregatedGroups(baseGames: seq<Submission>, userSubmissions: seq<Submission>,
                         titleLe: (string, string) -> bool)
    ensures forall g :: g in Aggregated(baseGames, userSubmissions, titleLe) ==>
      && g.submissionCount > 0
      && multiset(g.submissions) == multiset(Members(baseGames + userSubmissions, GameKey(g)))
  {
    var all := baseGames + userSubmissions;
    var games := Aggregated(baseGames, userSubmissions, titleLe);
    GamesAreGroups(all);
    forall g | g in games
      ensures g.submissionCount > 0 && multiset(g.submissions) == multiset(Members(all, GameKey(g)))
    {
      assert g in multiset(Games(all));
    }
  }

  /** No two games of the list share a key. */
  lemma AggregatedDistinct(baseGames: seq<Submission>, userSubmissions: seq<Submission>,
                           titleLe: (string, string) -> bool)
    ensures DistinctBy(Aggregated(baseGames, userSubmissions, titleLe), GameKey)
  {
    var all := baseGames + userSubmissions;
    GamesAreGroups(all);
    GroupOrderSpec(all);
    SortByDistinct(Games(all), ByTitle(titleLe), GameKey);
  }

  lemma GamesCover(all: seq<Submission>, s: Submission)
    requires s in all
    ensures exists g :: g in Games(all) && s in g.submissions
  {
    var keys := GroupOrder(all);
    var k := GroupKey(s);
    GroupOrderSpec(all);
    assert s in Members(all, k);
    var i :| 0 <= i < |keys| && keys[i] == k;
    var g := Games(all)[i];
    assert g == Summarize(GroupFor(all, k));
    SummaryOfGroup(all, k);
    assert s in multiset(g.submissions);
    assert g in Games(all) && s in g.submissions;
  }

  /** Every seed game and every community submission lands in some game of the list. */
  lemma AggregatedCovers(baseGames: seq<Submission>, userSubmissions: seq<Submission>,
                         titleLe: (string, string) -> bool)
    ensures forall s :: s in baseGames + userSubmissions ==>
              exists g :: g in Aggregated(baseGames, userSubmissions, titleLe) && s in g.submissions
  {
    var all := baseGames + userSubmissions;
    var games := Aggregated(baseGames, userSubmissions, titleLe);
    forall s | s in all
      ensures exists g :: g in games && s in g.submissions
    {
      GamesCover(all, s);
      var g :| g in Games(all) && s in g.submissions;
      assert g in multiset(games);
    }
  }

  /** Total of the member counts of the groups with the given keys. */
  function CountSum(all: seq<Submission>, keys: seq<string>): nat {
    if keys == [] then 0 else CountSum(all, keys[..|keys| - 1]) + |Members(all, keys[|keys| - 1])|
  }

  lemma {:induction false} CountSumSnoc(all: seq<Submission>, s: Submission, keys: seq<string>)
    requires NoDuplicates(keys)
    ensures CountSum(all + [s], keys) == CountSum(all, keys) + (if GroupKey(s) in keys then 1 else 0)
  {
    if keys != [] {
      var ks := keys[..|keys| - 1];
      var j := keys[|keys| - 1];
      assert keys == ks + [j];
      CountSumSnoc(all, s, ks);
      MembersSnoc(all, s, j);
      assert GroupKey(s) in keys <==> GroupKey(s) in ks || GroupKey(s) == j;
      assert j !in ks;
    }
  }

  /** The groups together hold every submission once. */
  lemma {:induction false} CountSumOrder(all: seq<Submission>)
    ensures CountSum(all, GroupOrder(all)) == |all|
  {
    if all != [] {
      var p := all[..|all| - 1];
      var s := all[|all| - 1];
      assert all == p + [s];
      var ks := GroupOrder(p);
      var k := GroupKey(s);
      CountSumOrder(p);
      GroupOrderSpec(p);
      CountSumSnoc(p, s, ks);
      if k !in ks {
        assert (ks + [k])[..|ks|] == ks;
        MembersSnoc(p, s, k);
      }
    }
  }

  lemma {:induction false} CountOfGames(all: seq<Submission>, keys: seq<string>)
    requires forall k :: k in keys ==> Members(all, k) != []
    ensures SumBy(GamesOf(all, keys), CountOf) == CountSum(all, keys)
  {
    if keys != [] {
      var ks := keys[..|keys| - 1];
      assert keys == ks + [keys[|keys| - 1]];
      CountOfGames(all, ks);
      GamesOfSnoc(all, ks, keys[|keys| - 1]);
      SumByAppend(GamesOf(all, ks), Summarize(GroupFor(all, keys[|keys| - 1])), CountOf);
    }
  }

  /** `submissionCount` summed over all games is the number of seed games plus community submissions. */
  lemma AggregatedCount(baseGames: seq<Submission>, userSubmissions: seq<Submission>,
                        titleLe: (string, string) -> bool)
    ensures SumBy(Aggregated(baseGames, userSubmissions, titleLe), CountOf) == |baseGames| + |userSubmissions|
  {
    var all := baseGames + userSubmissions;
    GroupOrderSpec(all);
    SumBySort(Games(all), ByTitle(titleLe), CountOf);
    CountOfGames(all, GroupOrder(all));
    CountSumOrder(all);
  }

  /** The list is ordered by title when the title order is a total preorder. */
  lemma AggregatedByTitle(baseGames: seq<Submission>, userSubmissions: seq<Submission>,
                          titleLe: (string, string) -> bool)
    requires TotalPreorder(titleLe)
    ensures SortedBy(Aggregated(baseGames, userSubmissions, titleLe), ByTitle(titleLe))
  {
    ByTitlePreorder(titleLe);
    SortBySorted(Games(baseGames + userSubmissions), ByTitle(titleLe));
  }

  lemma ByTitlePreorder(titleLe: (string, string) -> bool)
    requires TotalPreorder(titleLe)
    ensures TotalPreorder(ByTitle(titleLe))
  {
    forall a: Game, b: Game ensures ByTitle(titleLe)(a, b) || ByTitle(titleLe)(b, a) {
      assert titleLe(a.title, b.title) || titleLe(b.title, a.title);
    }
    forall a: Game, b: Game, c: Game | ByTitle(titleLe)(a, b) && ByTitle(titleLe)(b, c)
      ensures ByTitle(titleLe)(a, c)
    {
      assert titleLe(a.title, b.title) && titleLe(b.title, c.title);
    }
  }

  // ---------------------------------------------------------------------------
  // Loading the two data files
  // ---------------------------------------------------------------------------

  /** What `readJson` finds at a path: no file, a file that does not parse, or a parsed
      document whose list field (`games` or `submissions`) may be absent. */
  datatype Document = Missing | Unreadable | Parsed(entries: Option<seq<RawSubmission>>)

  /** `(readJson(path, { list: [] }).list || [])`: both read failures fall back to the empty list. */
  function Entries(d: Document): (r: seq<RawSubmission>)
    ensures d.Parsed? && d.entries.Some? ==> r == d.entries.value
    ensures !(d.Parsed? && d.entries.Some?) ==> r == []
  {
    match d
    case Parsed(Some(xs)) => xs
    case _ => []
  }

  /** The seed games, normalised with "official-seed" as the default submitter. */
  function NormalizeSeeds(raws: seq<RawSubmission>, now: int): (r: seq<Submission>)
    ensures |r| == |raws|
    ensures forall i :: 0 <= i < |raws| ==> r[i] == NormalizeSubmission(raws[i], Some("official-seed"), now)
  {
    seq(|raws|, i requires 0 <= i < |raws| => NormalizeSubmission(raws[i], Some("official-seed"), now))
  }

  /** The community submissions, normalised with their own `githubUser` or "community" as the default. */
  function NormalizeCommunity(raws: seq<RawSubmission>, now: int): (r: seq<Submission>)
    ensures |r| == |raws|
    ensures forall i :: 0 <= i < |raws| ==> r[i] == NormalizeSubmission(raws[i], LoaderDefault(raws[i]), now)
  {
    seq(|raws|, i requires 0 <= i < |raws| => NormalizeSubmission(raws[i], LoaderDefault(raws[i]), now))
  }

  /** `loadData`: read both files, normalise, aggregate. */
  function LoadData(baseDoc: Document, submissionsDoc: Document, now: int,
                    titleLe: (string, string) -> bool): seq<Game>
  {
    Aggregated(NormalizeSeeds(Entries(baseDoc), now), NormalizeCommunity(Entries(submissionsDoc), now), titleLe)
  }

  /** The served games account for every entry of both files exactly once. */
  lemma LoadDataCount(baseDoc: Document, submissionsDoc: Document, now: int, titleLe: (string, string) -> bool)
    ensures SumBy(LoadData(baseDoc, submissionsDoc, now, titleLe), CountOf) ==
            |Entries(baseDoc)| + |Entries(submissionsDoc)|
  {
    AggregatedCount(NormalizeSeeds(Entries(baseDoc), now), NormalizeCommunity(Entries(submissionsDoc), now), titleLe);
  }

  /** Default submitters while loading: seed entries without an author read "official-seed",
      community entries read their `githubUser`, else "community". */
  lemma LoaderSubmitters(raw: RawSubmission, now: int)
    ensures !Truthy(raw.githubUser) && !Truthy(raw.submittedBy) ==>
              NormalizeSubmission(raw, Some("official-seed"), now).submittedBy == "official-seed"
    ensures Truthy(raw.githubUser) ==>
              NormalizeSubmission(raw, LoaderDefault(raw), now).submittedBy == raw.githubUser.value
    ensures !Truthy(raw.githubUser) && !Truthy(raw.submittedBy) ==>
              NormalizeSubmission(raw, LoaderDefault(raw), now).submittedBy == "community"
  {
    if !Truthy(raw.githubUser) && !Truthy(raw.submittedBy) {
      DefaultSubmitterUsed(raw, "official-seed", now);
      assert LoaderDefault(raw) == Some("community");
      DefaultSubmitterUsed(raw, "community", now);
    }
    SubmitterPriority(raw, LoaderDefault(raw), now);
  }

  /** A record without an author of its own is credited to the default the caller passes. */
  lemma DefaultSubmitterUsed(raw: RawSubmission, d: string, now: int)
    requires d != "" && !Truthy(raw.githubUser) && !Truthy(raw.submittedBy)
    ensures NormalizeSubmission(raw, Some(d), now).submittedBy == d
  {
    SubmitterPriority(raw, Some(d), now);
  }
}
