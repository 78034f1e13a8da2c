/** The two-way map between the stored execution status and the label shown to merchants. */
module Mapping {
  import opened Wrappers
  import opened Domain

  function DbStatusFor(display: Display): ExecutionStatus {
    match display
    case Scheduled => DbScheduled
    case Sent => DbRunning
    case Success => DbSucceeded
    case Failed => DbFailed
    case Cancelled => DbCancelled
    case Expired => DbSkipped
    case Retrying => DbScheduled
  }

  function Reverse(status: ExecutionStatus): Display {
    match status
    case DbScheduled => Scheduled
    case DbRunning => Sent
    case DbSucceeded => Success
    case DbFailed => Failed
    case DbSkipped => Expired
    case DbCancelled => Cancelled
  }

  function DisplayStatusFor(meta: Metadata, status: ExecutionStatus): Display {
    if meta.deadLettered then Failed
    else if meta.expired then Expired
    else meta.display.GetOr(Reverse(status))
  }

  function DisplayOf(record: Record): Display {
    DisplayStatusFor(record.meta, record.status)
  }

  /** A label survives storage: directly while the metadata holds it, and through the bare
      status column for every label but the one that shares its column with another. */
  lemma LabelRoundTrip(meta: Metadata, display: Display)
    requires !meta.deadLettered && !meta.expired
    ensures DisplayStatusFor(meta.(display := Some(display)), DbStatusFor(display)) == display
    ensures DisplayStatusFor(meta.(display := None), DbStatusFor(display)) == display <==> !display.Retrying?
    ensures DbStatusFor(DisplayStatusFor(meta.(display := None), DbStatusFor(display))) == DbStatusFor(display)
  {
  }
}
