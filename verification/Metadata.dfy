/** The four consistency queries that gate opening a store. */
module Metadata {
  import opened Tables

  predicate RetentionGap(d: Db) {
    exists o | o in d.events :: o !in d.retention
  }

  predicate WorkflowRegistryGap(d: Db) {
    exists r | r in d.heads ::
      r !in d.registry || d.registry[r].kind != Workflow || d.registry[r].state != Active
  }

  predicate EventRegistryGap(d: Db, run: RunId) {
    || run !in d.registry
    || (run in d.heads && (d.registry[run].kind != Workflow || d.registry[run].state != Active))
    || (run !in d.heads && d.registry[run].state == Active && d.registry[run].kind != Journal)
    || (run !in d.heads && d.registry[run].kind == Journal && d.registry[run].state != Active)
  }

  predicate RunLogRegistryGap(d: Db) {
    exists o | o in d.events :: EventRegistryGap(d, d.events[o].runId)
  }

  predicate FloorGap(d: Db) {
    exists r | r in d.registry ::
      || d.registry[r].floor < 0
      || (d.registry[r].kind == Journal && d.registry[r].floor != 0)
      || exists o | o in d.events :: d.events[o].runId == r && d.events[o].sequence <= d.registry[r].floor
  }

  datatype Gap = NoGap | Retention | WorkflowRegistry | RunLogRegistry | CompactionFloor

  /** The first query that finds a row. */
  function V2MetadataGap(d: Db): Gap {
    if RetentionGap(d) then Gap.Retention
    else if WorkflowRegistryGap(d) then WorkflowRegistry
    else if RunLogRegistryGap(d) then RunLogRegistry
    else if FloorGap(d) then CompactionFloor
    else NoGap
  }
}
