/**
  * The submission normaliser of the compatibility backend (`normalizeSoc`,
  * `normalizeSubmission`): records arrive in two spellings (the seed file's
  * and the submission form's) and leave in one canonical shape, with every
  * text field present and trimmed.
  */
module Normalize {
  import opened Wrappers
  import opened Text

  /** A tested-SoC entry as it appears in a JSON document. */
  datatype RawSoc =
    | NullSoc                    // null or undefined
    | TextSoc(text: string)      // a bare chip name
    | RecordSoc(socName: Option<string>, name: Option<string>,
                vulkanStatus: Option<string>, vulkan: Option<string>,
                openglStatus: Option<string>, opengl: Option<string>)

  /** The canonical SoC triple `{soc_name, vulkan_status, opengl_status}`. */
  datatype Soc = Soc(socName: string, vulkanStatus: string, openglStatus: string)

  /** A seed game or a community submission as it appears in a JSON document
      (`"title-id"` is `titleIdDashed`; `status` may also be spelt `compatibility`). */
  datatype RawSubmission = RawSubmission(
    title: Option<string>,
    titleIdDashed: Option<string>,
    titleId: Option<string>,
    region: Option<string>,
    status: Option<string>,
    compatibility: Option<string>,
    notes: Option<string>,
    version: Option<string>,
    githubUser: Option<string>,
    submittedBy: Option<string>,
    testedSocs: Option<seq<RawSoc>>,   // None when `tested_socs` is not an array
    createdAt: Option<int>)

  /** The canonical submission. */
  datatype Submission = Submission(
    title: string,
    titleId: string,
    region: string,
    status: string,
    notes: string,
    testedSocs: seq<Soc>,
    version: string,
    submittedBy: string,
    createdAt: int)

  /** Every field of a canonical SoC is a non-empty string. */
  predicate WellFormedSoc(s: Soc) {
    s.socName != "" && s.vulkanStatus != "" && s.openglStatus != ""
  }

  /** `normalizeSoc(soc, fallbackStatus)`. */
  function NormalizeSoc(soc: RawSoc, fallbackStatus: string): (r: Soc)
    ensures WellFormedSoc(r)
    ensures soc.NullSoc? || soc == TextSoc("") ==>
              r == Soc("Unknown SoC", Or(Some(fallbackStatus), "Unknown"), Or(Some(fallbackStatus), "Unknown"))
    ensures soc.TextSoc? && soc.text != "" ==>
              r == Soc(soc.text, Or(Some(fallbackStatus), "Unknown"), Or(Some(fallbackStatus), "Unknown"))
  {
    var fallback := Or(Some(fallbackStatus), "Unknown");
    match soc
    case NullSoc => Soc("Unknown SoC", fallback, fallback)
    case TextSoc(text) =>
      if text == "" then Soc("Unknown SoC", fallback, fallback) else Soc(text, fallback, fallback)
    case RecordSoc(socName, name, vulkanStatus, vulkan, openglStatus, opengl) =>
      Soc(Or(OrElse(socName, name), "Unknown SoC"),
          Or(OrElse(vulkanStatus, vulkan), fallback),
          Or(OrElse(openglStatus, opengl), fallback))
  }

  /** The record form a canonical SoC takes when it is written back to the submissions file. */
  function StoredSoc(s: Soc): RawSoc {
    RecordSoc(Some(s.socName), None, Some(s.vulkanStatus), None, Some(s.openglStatus), None)
  }

  /** Object entries prefer the snake_case spelling, then the short one, then the fallback;
      a stored entry therefore reads back as itself, whatever the fallback. */
  lemma NormalizeSocPriorities(soc: RawSoc, fallbackStatus: string)
    requires soc.RecordSoc?
    ensures NormalizeSoc(soc, fallbackStatus).socName ==
              if Truthy(soc.socName) then soc.socName.value
              else if Truthy(soc.name) then soc.name.value
              else "Unknown SoC"
    ensures NormalizeSoc(soc, fallbackStatus).vulkanStatus ==
              if Truthy(soc.vulkanStatus) then soc.vulkanStatus.value
              else if Truthy(soc.vulkan) then soc.vulkan.value
              else if fallbackStatus != "" then fallbackStatus
              else "Unknown"
    ensures NormalizeSoc(soc, fallbackStatus).openglStatus ==
              if Truthy(soc.openglStatus) then soc.openglStatus.value
              else if Truthy(soc.opengl) then soc.opengl.value
              else if fallbackStatus != "" then fallbackStatus
              else "Unknown"
  {
  }

  /** A well-formed SoC survives being written and read back. */
  lemma StoredSocRoundTrip(s: Soc, fallbackStatus: string)
    requires WellFormedSoc(s)
    ensures NormalizeSoc(StoredSoc(s), fallbackStatus) == s
  {
  }

  /** The status a record reports: `status || compatibility || "Unknown"` (untrimmed). */
  function RawStatus(payload: RawSubmission): (r: string)
    ensures r != ""
  {
    Or(OrElse(payload.status, payload.compatibility), "Unknown")
  }

  function NormalizeSocs(socs: seq<RawSoc>, fallbackStatus: string): (r: seq<Soc>)
    ensures |r| == |socs|
    ensures forall i :: 0 <= i < |socs| ==> r[i] == NormalizeSoc(socs[i], fallbackStatus)
  {
    if socs == [] then [] else [NormalizeSoc(socs[0], fallbackStatus)] + NormalizeSocs(socs[1..], fallbackStatus)
  }

  /** `(v || fallback).trim()` for a fallback that is already trimmed. */
  function TrimmedOr(v: Option<string>, fallback: string): (r: string)
    requires IsTrimmed(fallback)
    ensures Trim(r) == r
    ensures Truthy(v) ==> r == Trim(v.value)
    ensures !Truthy(v) ==> r == fallback
  {
    TrimOfTrimmed(fallback);
    TrimIdempotent(Or(v, fallback));
    Trim(Or(v, fallback))
  }

  /** `normalizeSubmission(payload, { submittedBy: defaultSubmitter })`; `now` stands for
      `new Date()` when the record carries no `createdAt`. */
  function NormalizeSubmission(payload: RawSubmission, defaultSubmitter: Option<string>, now: int): (r: Submission)
    ensures r.submittedBy != ""
    ensures Trim(r.title) == r.title && Trim(r.titleId) == r.titleId && Trim(r.region) == r.region
    ensures Trim(r.status) == r.status && Trim(r.notes) == r.notes && Trim(r.version) == r.version
    ensures payload.testedSocs.Some? ==> |r.testedSocs| == |payload.testedSocs.value|
    ensures payload.testedSocs.None? ==> r.testedSocs == []
    ensures forall s :: s in r.testedSocs ==> WellFormedSoc(s)
  {
    var status := RawStatus(payload);
    Submission(
      TrimmedOr(payload.title, "Unknown Title"),
      TrimmedOr(OrElse(payload.titleIdDashed, payload.titleId), "UNKNOWN"),
      TrimmedOr(payload.region, "NTSC-U"),
      TrimmedOr(OrElse(payload.status, payload.compatibility), "Unknown"),
      TrimmedOr(payload.notes, ""),
      if payload.testedSocs.Some? then NormalizeSocs(payload.testedSocs.value, status) else [],
      TrimmedOr(payload.version, "Unknown"),
      Or(OrElse(OrElse(payload.githubUser, payload.submittedBy), defaultSubmitter), "anonymous"),
      if payload.createdAt.Some? then payload.createdAt.value else now)
  }

  /** The submitter identity prefers `githubUser`, then `submittedBy`, then the caller's default. */
  lemma SubmitterPriority(payload: RawSubmission, defaultSubmitter: Option<string>, now: int)
    ensures var r := NormalizeSubmission(payload, defaultSubmitter, now);
      && (Truthy(payload.githubUser) ==> r.submittedBy == payload.githubUser.value)
      && (!Truthy(payload.githubUser) && Truthy(payload.submittedBy) ==> r.submittedBy == payload.submittedBy.value)
      && (!Truthy(payload.githubUser) && !Truthy(payload.submittedBy) && Truthy(defaultSubmitter) ==>
            r.submittedBy == defaultSubmitter.value)
      && (!Truthy(payload.githubUser) && !Truthy(payload.submittedBy) && !Truthy(defaultSubmitter) ==>
            r.submittedBy == "anonymous")
  {
  }

  /** The dashed `"title-id"` spelling wins over `titleId`, and "UNKNOWN" stands in for both. */
  lemma TitleIdPriority(payload: RawSubmission, defaultSubmitter: Option<string>, now: int)
    ensures Truthy(payload.titleIdDashed) ==>
              NormalizeSubmission(payload, defaultSubmitter, now).titleId == Trim(payload.titleIdDashed.value)
    ensures !Truthy(payload.titleIdDashed) && Truthy(payload.titleId) ==>
              NormalizeSubmission(payload, defaultSubmitter, now).titleId == Trim(payload.titleId.value)
    ensures !Truthy(payload.titleIdDashed) && !Truthy(payload.titleId) ==>
              NormalizeSubmission(payload, defaultSubmitter, now).titleId == "UNKNOWN"
  {
  }

  /** Missing or empty text fields take their defaults, and a missing timestamp is the current time. */
  lemma NormalizeSubmissionDefaults(payload: RawSubmission, defaultSubmitter: Option<string>, now: int)
    ensures !Truthy(payload.title) ==> NormalizeSubmission(payload, defaultSubmitter, now).title == "Unknown Title"
    ensures !Truthy(payload.region) ==> NormalizeSubmission(payload, defaultSubmitter, now).region == "NTSC-U"
    ensures !Truthy(payload.status) && !Truthy(payload.compatibility) ==>
              NormalizeSubmission(payload, defaultSubmitter, now).status == "Unknown"
    ensures !Truthy(payload.notes) ==> NormalizeSubmission(payload, defaultSubmitter, now).notes == ""
    ensures !Truthy(payload.version) ==> NormalizeSubmission(payload, defaultSubmitter, now).version == "Unknown"
    ensures payload.createdAt.None? ==> NormalizeSubmission(payload, defaultSubmitter, now).createdAt == now
  {
  }

  /** The record list written back for a list of canonical SoCs. */
  function StoredSocs(socs: seq<Soc>): (r: seq<RawSoc>)
    ensures |r| == |socs|
    ensures forall i :: 0 <= i < |socs| ==> r[i] == StoredSoc(socs[i])
  {
    if socs == [] then [] else [StoredSoc(socs[0])] + StoredSocs(socs[1..])
  }

  lemma StoredSocsRoundTrip(socs: seq<Soc>, fallbackStatus: string)
    requires forall c :: c in socs ==> WellFormedSoc(c)
    ensures NormalizeSocs(StoredSocs(socs), fallbackStatus) == socs
  {
    var r := NormalizeSocs(StoredSocs(socs), fallbackStatus);
    forall i | 0 <= i < |socs|
      ensures r[i] == socs[i]
    {
      assert socs[i] in socs;
      StoredSocRoundTrip(socs[i], fallbackStatus);
    }
  }

  /** The record written to the submissions file for a canonical submission. */
  function Stored(s: Submission): RawSubmission {
    RawSubmission(
      Some(s.title), Some(s.titleId), None, Some(s.region), Some(s.status), None,
      Some(s.notes), Some(s.version), None, Some(s.submittedBy),
      Some(StoredSocs(s.testedSocs)), Some(s.createdAt))
  }

  /** A canonical submission whose text fields are non-empty, as the submission form sends them. */
  predicate Reloadable(s: Submission) {
    && s.title != "" && s.titleId != "" && s.region != "" && s.status != "" && s.version != ""
    && s.submittedBy != ""
    && Trim(s.title) == s.title && Trim(s.titleId) == s.titleId && Trim(s.region) == s.region
    && Trim(s.status) == s.status && Trim(s.notes) == s.notes && Trim(s.version) == s.version
    && forall c :: c in s.testedSocs ==> WellFormedSoc(c)
  }

  /** A present field that is not blank once trimmed. */
  predicate NonBlank(v: Option<string>) {
    v.Some? && Trim(v.value) != ""
  }

  /** A report whose title, title id, region, status and version are not blank normalises to a
      submission that survives the round trip through the submissions file. */
  lemma NonBlankReloadable(payload: RawSubmission, defaultSubmitter: Option<string>, now: int)
    requires NonBlank(payload.title) && NonBlank(OrElse(payload.titleIdDashed, payload.titleId))
    requires NonBlank(payload.region) && NonBlank(payload.status) && NonBlank(payload.version)
    ensures Reloadable(NormalizeSubmission(payload, defaultSubmitter, now))
  {
    var r := NormalizeSubmission(payload, defaultSubmitter, now);
    NonBlankKept(payload.title);
    NonBlankKept(OrElse(payload.titleIdDashed, payload.titleId));
    NonBlankKept(payload.region);
    NonBlankKept(payload.status);
    NonBlankKept(payload.version);
    assert OrElse(payload.status, payload.compatibility) == payload.status;
    assert r.title != "" && r.titleId != "" && r.region != "" && r.status != "" && r.version != "";
  }

  /** A submission stored with an empty title is read back under "Unknown Title". */
  lemma EmptyTitleReloadsUnknown(s: Submission, now: int)
    requires s.title == ""
    ensures NormalizeSubmission(Stored(s), LoaderDefault(Stored(s)), now).title == "Unknown Title"
  {
    assert !Truthy(Stored(s).title);
  }

  lemma NonBlankKept(v: Option<string>)
    requires NonBlank(v)
    ensures Truthy(v) && Trim(v.value) != ""
  {
  }

  /** The default submitter the loader passes for a stored record: `githubUser || "community"`. */
  function LoaderDefault(raw: RawSubmission): Option<string> {
    Some(Or(raw.githubUser, "community"))
  }

  lemma StoredIdentityRoundTrip(s: Submission, now: int)
    requires Reloadable(s)
    ensures var r := NormalizeSubmission(Stored(s), LoaderDefault(Stored(s)), now);
      r.title == s.title && r.titleId == s.titleId && r.region == s.region
  {
    var raw := Stored(s);
    assert OrElse(raw.titleIdDashed, raw.titleId) == Some(s.titleId);
  }

  lemma StoredReportRoundTrip(s: Submission, now: int)
    requires Reloadable(s)
    ensures var r := NormalizeSubmission(Stored(s), LoaderDefault(Stored(s)), now);
      r.status == s.status && r.version == s.version
  {
    var raw := Stored(s);
    assert OrElse(raw.status, raw.compatibility) == Some(s.status);
  }

  lemma StoredNotesRoundTrip(s: Submission, now: int)
    requires Reloadable(s)
    ensures NormalizeSubmission(Stored(s), LoaderDefault(Stored(s)), now).notes == s.notes
  {
  }

  lemma StoredSocListRoundTrip(s: Submission, now: int)
    requires Reloadable(s)
    ensures NormalizeSubmission(Stored(s), LoaderDefault(Stored(s)), now).testedSocs == s.testedSocs
  {
    StoredSocsRoundTrip(s.testedSocs, RawStatus(Stored(s)));
  }

  /** Writing a submission and reading it back (with the loader's default submitter,
      `githubUser || "community"`) yields the same submission: normalisation is stable
      across the round trip through the submissions file. */
  lemma StoredRoundTrip(s: Submission, now: int)
    requires Reloadable(s)
    ensures NormalizeSubmission(Stored(s), LoaderDefault(Stored(s)), now) == s
  {
    StoredIdentityRoundTrip(s, now);
    StoredReportRoundTrip(s, now);
    StoredNotesRoundTrip(s, now);
    StoredSocListRoundTrip(s, now);
  }
}
