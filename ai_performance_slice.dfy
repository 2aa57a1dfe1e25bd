/**
 * features/aiPerformance/aiPerformanceSlice.ts: the video-analysis metrics and the list of
 * failed analyses.
 */
module AiPerformanceSlice {
  import opened Wrappers
  import opened Thunks
  import opened Entities
  import Seqs

  datatype AIPerformanceState = AIPerformanceState(
    metrics: Option<AIPerformanceMetrics>, failures: seq<AIFailure>, total: int,
    loading: bool, error: Option<string>, actionLoading: bool)

  const InitialState := AIPerformanceState(None, [], 0, false, None, false)

  class AIPerformanceStore {
    var metrics: Option<AIPerformanceMetrics>
    var failures: seq<AIFailure>
    var total: int
    var loading: bool
    var error: Option<string>
    var actionLoading: bool

    function State(): AIPerformanceState
      reads this
    {
      AIPerformanceState(metrics, failures, total, loading, error, actionLoading)
    }

    constructor ()
      ensures State() == InitialState
    {
      metrics, failures, total := None, [], 0;
      loading, error, actionLoading := false, None, false;
    }

    method ClearError()
      modifies this
      ensures State() == old(State()).(error := None)
    {
      error := None;
    }

    method FetchAIMetrics(o: Outcome<AIPerformanceMetrics>)
      modifies this
      ensures match o
        case Pending => State() == old(State()).(loading := true, error := None)
        case Fulfilled(mt) => State() == old(State()).(loading := false, metrics := Some(mt))
        case Rejected(m) =>
          State() == old(State()).(loading := false, error := Some(MessageOr(m, "Failed to fetch AI metrics")))
    {
      match o
      case Pending =>
        loading := true;
        error := None;
      case Fulfilled(mt) =>
        loading := false;
        metrics := Some(mt);
      case Rejected(m) =>
        loading := false;
        error := Some(MessageOr(m, "Failed to fetch AI metrics"));
    }

    /** Pending sets `loading` but, unlike `FetchAIMetrics`, leaves `error` as it was. */
    method FetchAIFailures(o: Outcome<AIFailuresResponse>)
      modifies this
      ensures match o
        case Pending => State() == old(State()).(loading := true)
        case Fulfilled(r) => State() == old(State()).(loading := false, failures := r.failures, total := r.total)
        case Rejected(m) =>
          State() == old(State()).(loading := false, error := Some(MessageOr(m, "Failed to fetch AI failures")))
    {
      match o
      case Pending =>
        loading := true;
      case Fulfilled(r) =>
        loading := false;
        failures := r.failures;
        total := r.total;
      case Rejected(m) =>
        loading := false;
        error := Some(MessageOr(m, "Failed to fetch AI failures"));
    }

    /** `retryAnalysis` has no case in the reducer: none of its outcomes changes the state. */
    method RetryAnalysis(o: Outcome<string>)
      ensures State() == old(State())
    {
    }

    method ResolveFailure(o: Outcome<AIFailure>)
      modifies this
      ensures o.Fulfilled? ==> State() == old(State()).(failures := Seqs.ReplaceFirst(old(failures), AIFailureId, o.payload))
      ensures !o.Fulfilled? ==> State() == old(State())
    {
      if o.Fulfilled? {
        var index := Seqs.FindIndex(failures, AIFailureId, o.payload.id);
        if index != -1 {
          failures := failures[index := o.payload];
        }
      }
    }
  }
}
