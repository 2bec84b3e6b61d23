/**
  * A game of the compatibility list as the browser receives it from
  * `GET /api/compatibility`: the fields the list page, its filters and the
  * detail dialog read. Tested-SoC entries keep their JSON shapes (an object,
  * a bare string or `null`), because the page handles all of them.
  */
module Listing {
  import opened Normalize

  /** One report of a game, as far as the list page reads it. */
  datatype Report = Report(submittedBy: string, testedSocs: seq<RawSoc>)

  /** A served game: `title`, `"title-id"`, `region`, `status`, `notes`, `tested_socs`,
      `submissions` and `submissionCount`. An empty string stands for a missing text field. */
  datatype Card = Card(title: string, titleId: string, region: string, status: string, notes: string,
                       testedSocs: seq<RawSoc>, submissions: seq<Report>, submissionCount: int)
}
