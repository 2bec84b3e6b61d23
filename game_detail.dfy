/**
  * The game detail dialog: the header with its fallbacks, the status colour and
  * region flag, and the list of tested SoCs normalised from either entry form.
  */
module GameDetail {
  import opened Wrappers
  import opened Text
  import opened Normalize
  import opened Listing
  import CompatList

  /** The statuses this dialog's colour table names; "crash" is not one of them. */
  predicate Coloured(statusLower: string) {
    statusLower in {"perfect", "playable", "in-game", "menu"}
  }

  /** `getcorrespondingColor`: the tag colour of the lower-cased status, red for anything else. */
  function DetailColor(status: string): (r: string)
    ensures !Coloured(Lower(status)) ==> r == CompatList.TagDefault
  {
    var s := Lower(status);
    if s == "perfect" then "bg-green-400/20 text-green-400"
    else if s == "playable" then "bg-yellow-400/20 text-yellow-400"
    else if s == "in-game" then "bg-orange-400/20 text-orange-400"
    else if s == "menu" then "bg-blue-400/20 text-blue-400"
    else CompatList.TagDefault
  }

  /** The dialog and the list agree on every status but "crash": the list gives a crashing game its
      own darker red, the dialog falls back to the default red. */
  lemma ColoursAgreeExceptCrash(status: string)
    ensures Lower(status) != "crash" ==> DetailColor(status) == CompatList.FilterClasses(status, CompatList.Tag)
    ensures Lower(status) == "crash" ==>
              && DetailColor(status) == CompatList.TagDefault
              && CompatList.FilterClasses(status, CompatList.Tag) != DetailColor(status)
  {
  }

  /** The colour ignores case. */
  lemma DetailColorIgnoresCase(status: string)
    ensures DetailColor(Lower(status)) == DetailColor(status)
  {
    LowerIdempotent(status);
  }

  /** The dialog's own `getFlagIcon`. */
  function DetailFlagIcon(region: string): (r: string)
    ensures region == "" ==> r == "/flags/glb.svg"
  {
    if region == "" then "/flags/glb.svg"
    else
      var upper := Upper(region);
      if Contains(upper, "NTSC-U") then "/flags/us.svg"
      else if Contains(upper, "PAL-E") then "/flags/eu.svg"
      else if Contains(upper, "PAL-A") then "/flags/au.svg"
      else if Contains(upper, "NTSC-J") then "/flags/jp.svg"
      else if Contains(upper, "PAL") then "/flags/eu.svg"
      else "/flags/glb.svg"
  }

  /** The dialog shows the same flag as the list card for every region. */
  lemma FlagIconsAgree(region: string)
    ensures DetailFlagIcon(region) == CompatList.FlagIcon(region)
  {
  }

  /** The values the dialog computes at the top of its body; none of them is rendered (the markup
      uses the raw `title`, `status` and `notes`, see `Render`). */
  datatype Header = Header(serial: string, gameName: string, status: string, notes: string)

  const NoNotes: string := "No specific emulation notes available for this title."

  /** The computed values with their fallbacks: each is the game's own value when it has one. */
  function HeaderOf(g: Card): (h: Header)
    ensures h.serial != "" && h.gameName != "" && h.status != "" && h.notes != ""
    ensures g.titleId != "" ==> h.serial == g.titleId
    ensures g.titleId == "" ==> h.serial == "missing_serial"
    ensures g.title != "" ==> h.gameName == g.title
    ensures g.title == "" ==> h.gameName == "Game Details"
    ensures g.status != "" ==> h.status == g.status
    ensures g.status == "" ==> h.status == "Unknown"
    ensures g.notes != "" ==> h.notes == g.notes
    ensures g.notes == "" ==> h.notes == NoNotes
  {
    Header(if g.titleId != "" then g.titleId else "missing_serial",
           if g.title != "" then g.title else "Game Details",
           if g.status != "" then g.status else "Unknown",
           if g.notes != "" then g.notes else NoNotes)
  }

  /** The computed `color`, that of `status || 'Unknown'`: red for a game without a status. It is
      not rendered; the badge uses the colour of the raw status, which `Render` shows to agree. */
  function HeaderColor(g: Card): (r: string)
    ensures g.status == "" ==> r == CompatList.TagDefault
  {
    if g.status == "" then UnknownUncoloured(); DetailColor(HeaderOf(g).status)
    else DetailColor(HeaderOf(g).status)
  }

  lemma UnknownUncoloured()
    ensures !Coloured(Lower("Unknown"))
  {
    var s := Lower("Unknown");
    assert |s| == 7 && s[0] == 'u';
  }

  /** One row of the SoC list. */
  datatype SocView = SocView(name: string, result: string, vulkan: Option<string>, opengl: Option<string>)

  /** The game's status as a possibly missing value. */
  function StatusOpt(status: string): Option<string> {
    if status == "" then None else Some(status)
  }

  /** An entry with a `soc_name` key. */
  predicate IsRecordEntry(item: RawSoc) {
    item.RecordSoc? && item.socName.Some?
  }

  /** The row of one entry: an entry with a `soc_name` key shows its own results, the first of
      Vulkan, OpenGL, the game status and "Unknown" as the verdict; a bare name, or "Unknown SoC" for
      anything else, shows the game status for both back-ends. */
  function ViewOf(item: RawSoc, status: string): (v: SocView)
    ensures v.result != ""
    ensures IsRecordEntry(item) ==>
              && v.name == item.socName.value
              && v.vulkan == item.vulkanStatus && v.opengl == item.openglStatus
              && (Truthy(item.vulkanStatus) ==> v.result == item.vulkanStatus.value)
              && (!Truthy(item.vulkanStatus) && Truthy(item.openglStatus) ==> v.result == item.openglStatus.value)
              && (!Truthy(item.vulkanStatus) && !Truthy(item.openglStatus) && status != "" ==> v.result == status)
    ensures !IsRecordEntry(item) ==>
              && v.name == (if item.TextSoc? then item.text else "Unknown SoC")
              && v.vulkan == StatusOpt(status) && v.opengl == StatusOpt(status)
              && v.result == (if status != "" then status else "Unknown")
  {
    if IsRecordEntry(item) then
      SocView(item.socName.value,
              Or(OrElse(OrElse(item.vulkanStatus, item.openglStatus), StatusOpt(status)), "Unknown"),
              item.vulkanStatus, item.openglStatus)
    else
      SocView(if item.TextSoc? then item.text else "Unknown SoC",
              Or(StatusOpt(status), "Unknown"), StatusOpt(status), StatusOpt(status))
  }

  /** `soCsToDisplay`: one row per entry, in order. */
  function SocsToDisplay(g: Card): (r: seq<SocView>)
    ensures |r| == |g.testedSocs|
    ensures forall k :: 0 <= k < |r| ==> r[k] == ViewOf(g.testedSocs[k], g.status)
  {
    seq(|g.testedSocs|, k requires 0 <= k < |g.testedSocs| => ViewOf(g.testedSocs[k], g.status))
  }

  /** Every name the list page collects from a game's own entries has a row in its dialog. */
  lemma ListedNamesShown(g: Card, x: string)
    requires x in CompatList.NamesIn(g.testedSocs, false)
    ensures exists k :: 0 <= k < |SocsToDisplay(g)| && SocsToDisplay(g)[k].name == x
  {
    var s :| s in g.testedSocs && CompatList.SocNameOf(s, false).Some? && CompatList.SocNameOf(s, false).value == x;
    var k :| 0 <= k < |g.testedSocs| && g.testedSocs[k] == s;
    assert SocsToDisplay(g)[k] == ViewOf(s, g.status);
  }

  /** A row without results of its own gets, as its (unrendered) verdict, the computed status. */
  lemma BareRowsFollowHeader(g: Card, k: nat)
    requires k < |g.testedSocs| && !IsRecordEntry(g.testedSocs[k])
    ensures SocsToDisplay(g)[k].result == HeaderOf(g).status
  {
  }

  // ---------------------------------------------------------------------------
  // What the dialog renders
  // ---------------------------------------------------------------------------

  /** A back-end badge of a SoC row: its status text and colour class. */
  datatype Badge = Badge(text: string, color: string)

  /** A rendered SoC row: the name and the badges shown; the row's `result` is not rendered. */
  datatype RowView = RowView(name: string, vulkan: Option<Badge>, opengl: Option<Badge>)

  /** The rendered dialog: heading, flag, status badge, notes, SoC rows and whether the
      "Results may vary" footnote appears. */
  datatype DialogView = DialogView(heading: string, flag: string, statusText: string, statusColor: string,
                                   notes: string, rows: seq<RowView>, footnote: bool)

  /** `{soc.vulkan && (...)}`: a badge only for a truthy status. */
  function BadgeOf(status: Option<string>): Option<Badge> {
    if Truthy(status) then Some(Badge(status.value, DetailColor(status.value))) else None
  }

  function RowOf(v: SocView): RowView {
    RowView(v.name, BadgeOf(v.vulkan), BadgeOf(v.opengl))
  }

  /** The markup: the heading is the computed game name, the flag is the list page's, the status
      badge and the notes are the raw values (the badge colour still agrees with the computed
      `color`), and there is one row per entry, named as in `SocsToDisplay`. */
  function Render(g: Card): (d: DialogView)
    ensures d.heading == HeaderOf(g).gameName
    ensures d.flag == CompatList.FlagIcon(g.region)
    ensures d.statusText == g.status && d.statusColor == HeaderColor(g)
    ensures d.notes == g.notes
    ensures |d.rows| == |g.testedSocs|
    ensures forall k :: 0 <= k < |d.rows| ==> d.rows[k].name == SocsToDisplay(g)[k].name
    ensures d.footnote <==> |g.testedSocs| > 0
  {
    FlagIconsAgree(g.region);
    UnknownUncoloured();
    var views := SocsToDisplay(g);
    DialogView(if g.title != "" then g.title else "Game Details", DetailFlagIcon(g.region), g.status,
               DetailColor(g.status), g.notes, seq(|views|, k requires 0 <= k < |views| => RowOf(views[k])),
               |views| > 0)
  }

  /** The badges of a row: an entry with a `soc_name` key shows a badge for each of its own truthy
      statuses; any other entry shows both badges with the game's status, or none without one. */
  lemma RowBadges(g: Card, k: nat)
    requires k < |g.testedSocs|
    ensures var row := Render(g).rows[k];
      && (IsRecordEntry(g.testedSocs[k]) ==>
            && (row.vulkan.Some? <==> Truthy(g.testedSocs[k].vulkanStatus))
            && (row.opengl.Some? <==> Truthy(g.testedSocs[k].openglStatus)))
      && (!IsRecordEntry(g.testedSocs[k]) ==>
            && (row.vulkan.Some? <==> g.status != "")
            && row.vulkan == row.opengl
            && (g.status != "" ==> row.vulkan == Some(Badge(g.status, DetailColor(g.status)))))
  {
    assert Render(g).rows[k] == RowOf(ViewOf(g.testedSocs[k], g.status));
  }
}
