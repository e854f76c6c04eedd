/**
 * The history view model (apps/ios/BreathTracker/BreathTracker/ViewModels/HistoryViewModel.swift):
 * a guarded fetch split into its start and its completion on the main actor, and the status
 * label and colour of a history row.
 */
module History {
  import opened Wrappers
  import opened BreathingModel

  /** Number of records a fetch asks for. */
  const HistoryLimit: int := 50

  const NormalRateLow: int := 12
  const NormalRateHigh: int := 20

  const ApneaText: string := "\U{26A0}\U{FE0F} Apnea Detected"

  /** historyStatusText */
  function StatusText(d: BreathingData): (t: string)
    ensures d.apneaDetected ==> t == ApneaText
    ensures !d.apneaDetected && d.breathingRate < NormalRateLow ==> t == "Low Rate"
    ensures !d.apneaDetected && d.breathingRate > NormalRateHigh ==> t == "High Rate"
    ensures t == "Normal" <==> !d.apneaDetected && NormalRateLow <= d.breathingRate <= NormalRateHigh
  {
    if d.apneaDetected then ApneaText
    else if d.breathingRate < NormalRateLow then "Low Rate"
    else if d.breathingRate > NormalRateHigh then "High Rate"
    else "Normal"
  }

  /** historyStatusColorName */
  function StatusColorName(d: BreathingData): (c: string)
    ensures c == "red" <==> d.apneaDetected
    ensures c == "orange" <==> !d.apneaDetected && (d.breathingRate < NormalRateLow || d.breathingRate > NormalRateHigh)
    ensures c == "green" <==> !d.apneaDetected && NormalRateLow <= d.breathingRate <= NormalRateHigh
  {
    if d.apneaDetected then "red"
    else if d.breathingRate < NormalRateLow || d.breathingRate > NormalRateHigh then "orange"
    else "green"
  }

  /** Label and colour always agree. */
  lemma TextAndColourAgree(d: BreathingData)
    ensures StatusText(d) == "Normal" <==> StatusColorName(d) == "green"
    ensures StatusText(d) in {"Low Rate", "High Rate"} <==> StatusColorName(d) == "orange"
    ensures StatusText(d) == ApneaText <==> StatusColorName(d) == "red"
  {
  }

  class HistoryViewModel {
    var historyData: seq<BreathingData>
    var isLoading: bool
    var errorMessage: Option<string>
    /** The limits of the fetches handed to the data service, oldest first. */
    var requests: seq<int>

    constructor ()
      ensures historyData == [] && !isLoading && errorMessage.None? && requests == []
    {
      historyData, isLoading, errorMessage, requests := [], false, None, [];
    }

    /** fetchHistory up to the start of its task: a no-op while loading, else start loading and clear the error. */
    method FetchHistory()
      modifies this
      ensures old(isLoading) ==> historyData == old(historyData) && isLoading && errorMessage == old(errorMessage) && requests == old(requests)
      ensures !old(isLoading) ==> historyData == old(historyData) && isLoading && errorMessage.None? && requests == old(requests) + [HistoryLimit]
    {
      if isLoading { return; }
      isLoading := true;
      errorMessage := None;
      requests := requests + [HistoryLimit];
    }

    /** The task's completion on the main actor: success replaces the data, failure keeps it and records the description. */
    method CompleteFetch(outcome: Result<seq<BreathingData>, string>)
      modifies this
      ensures !isLoading && requests == old(requests)
      ensures outcome.Ok? ==> historyData == outcome.value && errorMessage == old(errorMessage)
      ensures outcome.Err? ==> historyData == old(historyData) && errorMessage == Some(outcome.error)
    {
      match outcome {
        case Ok(history) =>
          historyData := history;
        case Err(description) =>
          errorMessage := Some(description);
      }
      isLoading := false;
    }

    /** refresh is fetchHistory. */
    method Refresh()
      modifies this
      ensures old(isLoading) ==> historyData == old(historyData) && isLoading && errorMessage == old(errorMessage) && requests == old(requests)
      ensures !old(isLoading) ==> historyData == old(historyData) && isLoading && errorMessage.None? && requests == old(requests) + [HistoryLimit]
    {
      FetchHistory();
    }

    /** clearError changes only the error message. */
    method ClearError()
      modifies this
      ensures errorMessage.None?
      ensures historyData == old(historyData) && isLoading == old(isLoading) && requests == old(requests)
    {
      errorMessage := None;
    }
  }
}
