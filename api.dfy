/**
  * The HTTP surface of the compatibility backend: `GET /api/compatibility`,
  * which serves the aggregated list, and `POST /api/compatibility`, which
  * validates a community report and appends it to the submissions file.
  *
  * The two JSON files are fields of a `Server` object; reading one yields a
  * `Document` and writing the submissions file either succeeds or fails
  * (`writeOk`). The clock is the `now` parameter.
  */
module Api {
  import opened Wrappers
  import opened Text
  import opened Seqs
  import opened Normalize
  import opened Aggregate

  // ---------------------------------------------------------------------------
  // Required fields
  // ---------------------------------------------------------------------------

  /** The fields the POST handler may report as missing. */
  datatype Field = Title | Status | Notes | Region | Version | TitleId | GithubUser | TestedSocs

  /** The name under which a field is reported. */
  function Name(f: Field): string {
    match f
    case Title => "title"
    case Status => "status"
    case Notes => "notes"
    case Region => "region"
    case Version => "version"
    case TitleId => "title-id"
    case GithubUser => "githubUser"
    case TestedSocs => "tested_socs"
  }

  /** `requiredFields`, the fields checked by plain truthiness. */
  const PlainFields: seq<Field> := [Title, Status, Notes, Region, Version]

  /** Every reportable field, in the order the handler reports them. */
  const ReportOrder: seq<Field> := PlainFields + [TitleId, GithubUser, TestedSocs]

  /** `payload[field]` for the plain required fields. */
  function FieldValue(p: RawSubmission, f: Field): Option<string> {
    match f
    case Title => p.title
    case Status => p.status
    case Notes => p.notes
    case Region => p.region
    case Version => p.version
    case _ => None
  }

  /** Whether the body supplies a reportable field, judged field by field. */
  predicate Provided(p: RawSubmission, f: Field) {
    match f
    case TitleId => Truthy(OrElse(p.titleIdDashed, p.titleId))
    case GithubUser => Truthy(p.githubUser)
    case TestedSocs => p.testedSocs.Some? && |p.testedSocs.value| > 0
    case _ => Truthy(FieldValue(p, f))
  }

  /** The negation of `Provided`, as the filter predicate. */
  function NotProvided(p: RawSubmission): Field -> bool {
    (f: Field) => !Provided(p, f)
  }

  /** The handler's `missing` list: the falsy plain fields, then `title-id` (either spelling),
      `githubUser`, and `tested_socs` when it is not a non-empty array. */
  function MissingFields(p: RawSubmission): (r: seq<Field>)
    ensures |r| <= |ReportOrder|
  {
    Filter(PlainFields, NotProvided(p))
    + (if !Truthy(OrElse(p.titleIdDashed, p.titleId)) then [TitleId] else [])
    + (if !Truthy(p.githubUser) then [GithubUser] else [])
    + (if p.testedSocs.None? || |p.testedSocs.value| == 0 then [TestedSocs] else [])
  }

  /** The three fields pushed after the plain ones. */
  lemma PushedFields(p: RawSubmission)
    ensures Filter([TitleId, GithubUser, TestedSocs], NotProvided(p))
            == (if !Truthy(OrElse(p.titleIdDashed, p.titleId)) then [TitleId] else [])
               + (if !Truthy(p.githubUser) then [GithubUser] else [])
               + (if p.testedSocs.None? || |p.testedSocs.value| == 0 then [TestedSocs] else [])
  {
    FilterThree(TitleId, GithubUser, TestedSocs, NotProvided(p));
  }

  /** The missing list names exactly the fields the body does not supply, in report order. */
  lemma MissingFieldsInOrder(p: RawSubmission)
    ensures MissingFields(p) == Filter(ReportOrder, NotProvided(p))
  {
    var q := NotProvided(p);
    var a := Filter(PlainFields, q);
    var t := if !Truthy(OrElse(p.titleIdDashed, p.titleId)) then [TitleId] else [];
    var g := if !Truthy(p.githubUser) then [GithubUser] else [];
    var s := if p.testedSocs.None? || |p.testedSocs.value| == 0 then [TestedSocs] else [];
    calc {
      Filter(ReportOrder, q);
      Filter(PlainFields + [TitleId, GithubUser, TestedSocs], q);
      { FilterConcat(PlainFields, [TitleId, GithubUser, TestedSocs], q); }
      a + Filter([TitleId, GithubUser, TestedSocs], q);
      { PushedFields(p); }
      a + (t + g + s);
      { AppendAssoc3(a, t, g, s); }
      a + t + g + s;
    }
  }

  lemma AppendAssoc3<T>(a: seq<T>, b: seq<T>, c: seq<T>, d: seq<T>)
    ensures a + (b + c + d) == a + b + c + d
  {
  }

  /** A field is reported missing exactly when the body does not supply it. */
  lemma MissingFieldsExactly(p: RawSubmission, f: Field)
    ensures f in MissingFields(p) <==> !Provided(p, f)
  {
    MissingFieldsInOrder(p);
    assert f in ReportOrder by {
      assert f in [Title, Status, Notes, Region, Version, TitleId, GithubUser, TestedSocs];
    }
    assert NotProvided(p)(f) == !Provided(p, f);
  }

  // ---------------------------------------------------------------------------
  // The tested-SoC check
  // ---------------------------------------------------------------------------

  /** The outcome of `testedSocs.find(soc => !soc.soc_name || !soc.vulkan_status || !soc.opengl_status)`:
      reading a property of `null` throws, otherwise the first matching entry or nothing. */
  datatype Scan = Throws | Found(soc: RawSoc) | NotFound

  /** The `find` predicate on a non-null entry: a bare string has none of the three properties. */
  predicate Offending(soc: RawSoc)
    requires !soc.NullSoc?
  {
    soc.TextSoc? || !Truthy(soc.socName) || !Truthy(soc.vulkanStatus) || !Truthy(soc.openglStatus)
  }

  function FindInvalid(socs: seq<RawSoc>): (r: Scan)
    ensures r.Found? ==> r.soc in socs && !r.soc.NullSoc? && Offending(r.soc)
    ensures r.NotFound? <==> forall s :: s in socs ==> !s.NullSoc? && !Offending(s)
  {
    if socs == [] then NotFound
    else if socs[0].NullSoc? then Throws
    else if Offending(socs[0]) then Found(socs[0])
    else
      var r := FindInvalid(socs[1..]);
      assert forall s :: s in socs ==> s == socs[0] || s in socs[1..];
      r
  }

  /** What the SoC guard decides. */
  datatype SocVerdict = SocsAccepted | SocsRejected | HandlerThrows

  /** JavaScript truthiness of an entry `find` returned: objects always, strings when non-empty. */
  predicate TruthySoc(soc: RawSoc) {
    soc.RecordSoc? || (soc.TextSoc? && soc.text != "")
  }

  /** The guard as written: `if (invalidSoc)` rejects only a truthy entry, and a `null` entry
      reached by the scan throws. */
  function AsWrittenSocCheck(socs: seq<RawSoc>): (r: SocVerdict)
    ensures r == SocsRejected ==> exists s :: s in socs && !s.NullSoc? && Offending(s)
    ensures r == HandlerThrows ==> NullSoc in socs
  {
    match FindInvalid(socs)
    case Throws =>
      ThrowsHasNull(socs);
      HandlerThrows
    case Found(s) => if TruthySoc(s) then SocsRejected else SocsAccepted
    case NotFound => SocsAccepted
  }

  lemma ThrowsHasNull(socs: seq<RawSoc>)
    requires FindInvalid(socs).Throws?
    ensures NullSoc in socs
  {
    if socs[0] != NullSoc {
      ThrowsHasNull(socs[1..]);
    }
  }

  /** An empty-string entry ahead of an incomplete record defeats the guard: the scan stops at the
      empty string, which is falsy, and the submission is accepted. */
  lemma EmptyEntryDefeatsSocCheck()
    ensures AsWrittenSocCheck([TextSoc(""), RecordSoc(Some("Tensor G3"), None, None, None, None, None)])
            == SocsAccepted
  {
    assert FindInvalid([TextSoc(""), RecordSoc(Some("Tensor G3"), None, None, None, None, None)])
           == Found(TextSoc(""));
  }

  /** An entry the error message asks for: an object with non-empty `soc_name`, `vulkan_status`
      and `opengl_status`. */
  predicate CompleteSoc(soc: RawSoc) {
    soc.RecordSoc? && Truthy(soc.socName) && Truthy(soc.vulkanStatus) && Truthy(soc.openglStatus)
  }

  /** The guard as its error message states it: every entry is complete. */
  function SocCheck(socs: seq<RawSoc>): (r: bool)
    ensures r <==> forall s :: s in socs ==> CompleteSoc(s)
  {
    if socs == [] then true
    else
      assert forall s :: s in socs ==> s == socs[0] || s in socs[1..];
      CompleteSoc(socs[0]) && SocCheck(socs[1..])
  }

  /** The two guards differ only on lists holding `null` or an empty string. */
  lemma {:induction false} SocChecksAgree(socs: seq<RawSoc>)
    requires NullSoc !in socs && TextSoc("") !in socs
    ensures AsWrittenSocCheck(socs) == (if SocCheck(socs) then SocsAccepted else SocsRejected)
  {
    var scan := FindInvalid(socs);
    if scan.Found? {
      assert scan.soc != TextSoc("");
    } else if scan.Throws? {
      ThrowsHasNull(socs);
    } else {
      forall s | s in socs ensures CompleteSoc(s) {
        assert !s.NullSoc? && !Offending(s);
      }
    }
  }

  /** A complete entry is stored with exactly the names and statuses it was sent with. */
  lemma CompleteSocKeepsFields(soc: RawSoc, fallbackStatus: string)
    requires CompleteSoc(soc)
    ensures NormalizeSoc(soc, fallbackStatus) ==
              Soc(soc.socName.value, soc.vulkanStatus.value, soc.openglStatus.value)
  {
    NormalizeSocPriorities(soc, fallbackStatus);
  }

  // ---------------------------------------------------------------------------
  // The server
  // ---------------------------------------------------------------------------

  const SocError: string := "Each tested SoC entry must include soc_name, vulkan_status, and opengl_status."

  /** An answer of `POST /api/compatibility`. */
  datatype PostResponse =
    | Rejected(status: int, error: string, missing: seq<Field>)
    | Created(status: int, message: string, games: seq<Game>)
    | Crashed(status: int)  // an exception escaped the handler: Express's default 500 page

  /** The backend with its two data files. */
  class Server {
    var baseFile: Document
    var submissionsFile: Document

    constructor (base: Document, submissions: Document)
      ensures baseFile == base && submissionsFile == submissions
    {
      baseFile := base;
      submissionsFile := submissions;
    }

    /** `GET /api/compatibility`: the aggregated list with its size and generation time. */
    method List(now: int, titleLe: (string, string) -> bool)
      returns (games: seq<Game>, totalGames: nat, generatedAt: int)
      ensures games == LoadData(baseFile, submissionsFile, now, titleLe)
      ensures totalGames == |games| && generatedAt == now
      ensures SumBy(games, CountOf) == |Entries(baseFile)| + |Entries(submissionsFile)|
    {
      games := LoadData(baseFile, submissionsFile, now, titleLe);
      LoadDataCount(baseFile, submissionsFile, now, titleLe);
      totalGames := |games|;
      generatedAt := now;
    }

    /** `POST /api/compatibility`: validate, normalise with the submitter's GitHub login as the
        default, append to the submissions file, and answer with the refreshed list. The SoC
        guard is the one the handler runs, `AsWrittenSocCheck`: a `null` entry reached by the scan
        throws, and an empty-string entry found first is let through. */
    method Post(payload: RawSubmission, writeOk: bool, now: int, titleLe: (string, string) -> bool)
      returns (resp: PostResponse)
      modifies this`submissionsFile
      ensures MissingFields(payload) != [] ==>
                resp == Rejected(400, "Validation failed", MissingFields(payload))
      ensures MissingFields(payload) == [] && AsWrittenSocCheck(payload.testedSocs.value) == HandlerThrows ==>
                resp == Crashed(500)
      ensures MissingFields(payload) == [] && AsWrittenSocCheck(payload.testedSocs.value) == SocsRejected ==>
                resp == Rejected(400, SocError, [])
      ensures MissingFields(payload) == [] && AsWrittenSocCheck(payload.testedSocs.value) == SocsAccepted && !writeOk
              ==> resp == Rejected(500, "Could not save submission.", [])
      ensures !resp.Created? ==> submissionsFile == old(submissionsFile)
      ensures resp.Created? ==>
                && MissingFields(payload) == [] && AsWrittenSocCheck(payload.testedSocs.value) == SocsAccepted
                && writeOk
                && submissionsFile ==
                     Parsed(Some(Entries(old(submissionsFile)) + [Stored(NormalizeSubmission(payload, payload.githubUser, now))]))
                && resp == Created(201, "Submission stored successfully.", LoadData(baseFile, submissionsFile, now, titleLe))
      ensures MissingFields(payload) == [] && AsWrittenSocCheck(payload.testedSocs.value) == SocsAccepted && writeOk
              ==> resp.Created?
    {
      var missing := MissingFields(payload);
      if |missing| > 0 {
        return Rejected(400, "Validation failed", missing);
      }
      var testedSocs := payload.testedSocs.value;
      var verdict := AsWrittenSocCheck(testedSocs);
      if verdict == HandlerThrows {
        return Crashed(500);
      }
      if verdict == SocsRejected {
        return Rejected(400, SocError, []);
      }
      var normalized := NormalizeSubmission(payload, payload.githubUser, now);
      var existing := Entries(submissionsFile);
      existing := existing + [Stored(normalized)];
      if !writeOk {
        return Rejected(500, "Could not save submission.", []);
      }
      submissionsFile := Parsed(Some(existing));
      var games := LoadData(baseFile, submissionsFile, now, titleLe);
      resp := Created(201, "Submission stored successfully.", games);
    }
  }

  // ---------------------------------------------------------------------------
  // What a successful POST does to the served list
  // ---------------------------------------------------------------------------

  /** One more report in the submissions file is one more report in the served list. */
  lemma AppendAddsOneReport(baseDoc: Document, submissionsDoc: Document, entry: RawSubmission, now: int,
                            titleLe: (string, string) -> bool)
    ensures SumBy(LoadData(baseDoc, Parsed(Some(Entries(submissionsDoc) + [entry])), now, titleLe), CountOf)
            == SumBy(LoadData(baseDoc, submissionsDoc, now, titleLe), CountOf) + 1
  {
    LoadDataCount(baseDoc, submissionsDoc, now, titleLe);
    LoadDataCount(baseDoc, Parsed(Some(Entries(submissionsDoc) + [entry])), now, titleLe);
  }

  /** The entry list that defeats the guard as written: an empty string ahead of a record that has
      only a name. */
  const EmptyEntryList: seq<RawSoc> := [TextSoc(""), RecordSoc(Some("Tensor G3"), None, None, None, None, None)]

  /** The handler accepts such a report although the corrected guard rejects it, and stores the
      empty string as an "Unknown SoC" entry carrying the report's status. */
  lemma EmptyEntryStoredAsUnknownSoc(payload: RawSubmission, now: int)
    requires payload.testedSocs == Some(EmptyEntryList)
    ensures AsWrittenSocCheck(payload.testedSocs.value) == SocsAccepted
    ensures !SocCheck(payload.testedSocs.value)
    ensures var n := NormalizeSubmission(payload, payload.githubUser, now);
      |n.testedSocs| == 2 && n.testedSocs[0] == Soc("Unknown SoC", RawStatus(payload), RawStatus(payload))
  {
    EmptyEntryDefeatsSocCheck();
    assert !CompleteSoc(EmptyEntryList[0]);
    var status := RawStatus(payload);
    var n := NormalizeSubmission(payload, payload.githubUser, now);
    assert n.testedSocs == NormalizeSocs(EmptyEntryList, status);
    assert n.testedSocs[0] == NormalizeSoc(TextSoc(""), status);
    assert Or(Some(status), "Unknown") == status;
  }

  /** A report whose title, title id, region, status and version are not blank is read back, by
      the loader, as exactly the submission the POST handler stored. */
  lemma AcceptedReportReloads(payload: RawSubmission, now: int, later: int)
    requires NonBlank(payload.title) && NonBlank(OrElse(payload.titleIdDashed, payload.titleId))
    requires NonBlank(payload.region) && NonBlank(payload.status) && NonBlank(payload.version)
    ensures var n := NormalizeSubmission(payload, payload.githubUser, now);
      NormalizeSubmission(Stored(n), LoaderDefault(Stored(n)), later) == n
  {
    NonBlankReloadable(payload, payload.githubUser, now);
    StoredRoundTrip(NormalizeSubmission(payload, payload.githubUser, now), later);
  }

  /** A report whose title is a single blank and whose other fields are complete. */
  const BlankTitlePayload: RawSubmission :=
    RawSubmission(Some(" "), Some("SLUS-20312"), None, Some("NTSC-U"), Some("Playable"), None,
                  Some("ok"), Some("1.0"), Some("octocat"), None,
                  Some([RecordSoc(Some("Tensor G3"), None, Some("Playable"), None, Some("Playable"), None)]),
                  None)

  /** The guard accepts the blank title: `" "` is a truthy string. */
  lemma BlankTitlePassesGuards()
    ensures MissingFields(BlankTitlePayload) == []
    ensures SocCheck(BlankTitlePayload.testedSocs.value)
  {
    BlankTitleFieldsProvided();
    BlankTitleSocComplete();
  }

  lemma BlankTitleFieldsProvided()
    ensures MissingFields(BlankTitlePayload) == []
  {
    var p := BlankTitlePayload;
    forall f | f in PlainFields ensures !NotProvided(p)(f) {
    }
    FilterNone(PlainFields, NotProvided(p));
  }

  lemma BlankTitleSocComplete()
    ensures SocCheck(BlankTitlePayload.testedSocs.value)
  {
  }

  /** The guard lets a title of blanks through, yet the stored title is empty and the loader
      shows the report under "Unknown Title". */
  lemma BlankTitleReloadsAsUnknown(now: int, later: int)
    ensures MissingFields(BlankTitlePayload) == [] && SocCheck(BlankTitlePayload.testedSocs.value)
    ensures var n := NormalizeSubmission(BlankTitlePayload, BlankTitlePayload.githubUser, now);
      && n.title == ""
      && NormalizeSubmission(Stored(n), LoaderDefault(Stored(n)), later).title == "Unknown Title"
  {
    BlankTitlePassesGuards();
    var n := NormalizeSubmission(BlankTitlePayload, BlankTitlePayload.githubUser, now);
    BlankTitleStoredEmpty(now);
    EmptyTitleReloadsUnknown(n, later);
  }

  lemma BlankTitleStoredEmpty(now: int)
    ensures NormalizeSubmission(BlankTitlePayload, BlankTitlePayload.githubUser, now).title == ""
  {
    assert Trim(" ") == "" by {
      assert TrimStart(" ") == "";
    }
  }
}
