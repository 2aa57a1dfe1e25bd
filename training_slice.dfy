/**
 * features/training/trainingSlice.ts: the training content library, its selection, paging
 * counters and loading flags.
 */
module TrainingSlice {
  import opened Wrappers
  import opened Thunks
  import opened Entities
  import Seqs

  datatype TrainingState = TrainingState(
    content: seq<TrainingContent>, selectedContent: Option<TrainingContent>,
    total: int, page: int, limit: int, filters: map<string, string>,
    loading: bool, error: Option<string>, actionLoading: bool)

  const InitialState := TrainingState([], None, 0, 1, 10, map[], false, None, false)

  class TrainingStore {
    var content: seq<TrainingContent>
    var selectedContent: Option<TrainingContent>
    var total: int
    var page: int
    var limit: int
    var filters: map<string, string>
    var loading: bool
    var error: Option<string>
    var actionLoading: bool

    function State(): TrainingState
      reads this
    {
      TrainingState(content, selectedContent, total, page, limit, filters, loading, error, actionLoading)
    }

    constructor ()
      ensures State() == InitialState
    {
      content, selectedContent, total, page, limit := [], None, 0, 1, 10;
      filters, loading, error, actionLoading := map[], false, None, false;
    }

    method SetFilters(f: map<string, string>)
      modifies this
      ensures State() == old(State()).(filters := f)
    {
      filters := f;
    }

    method ClearFilters()
      modifies this
      ensures State() == old(State()).(filters := map[])
    {
      filters := map[];
    }

    method SetSelectedContent(c: Option<TrainingContent>)
      modifies this
      ensures State() == old(State()).(selectedContent := c)
    {
      selectedContent := c;
    }

    method ClearError()
      modifies this
      ensures State() == old(State()).(error := None)
    {
      error := None;
    }

    method FetchTrainingContent(o: Outcome<TrainingContentResponse>)
      modifies this
      ensures match o
        case Pending => State() == old(State()).(loading := true, error := None)
        case Fulfilled(r) =>
          State() == old(State()).(loading := false, content := r.content, total := r.total, page := r.page, limit := r.limit)
        case Rejected(m) =>
          State() == old(State()).(loading := false, error := Some(MessageOr(m, "Failed to fetch training content")))
    {
      match o
      case Pending =>
        loading := true;
        error := None;
      case Fulfilled(r) =>
        loading := false;
        content := r.content;
        total := r.total;
        page := r.page;
        limit := r.limit;
      case Rejected(m) =>
        loading := false;
        error := Some(MessageOr(m, "Failed to fetch training content"));
    }

    /** Pending raises `actionLoading` and leaves `error` as it was; success puts the new item first. */
    method CreateTrainingContent(o: Outcome<TrainingContent>)
      modifies this
      ensures match o
        case Pending => State() == old(State()).(actionLoading := true)
        case Fulfilled(c) =>
          State() == old(State()).(actionLoading := false, content := [c] + old(content), total := old(total) + 1)
        case Rejected(m) =>
          State() == old(State()).(actionLoading := false, error := Some(MessageOr(m, "Failed to create content")))
    {
      match o
      case Pending =>
        actionLoading := true;
      case Fulfilled(c) =>
        actionLoading := false;
        content := [c] + content;
        total := total + 1;
      case Rejected(m) =>
        actionLoading := false;
        error := Some(MessageOr(m, "Failed to create content"));
    }

    /** `state.content[index] = payload` after `findIndex` on the id. */
    method ReplaceById(c: TrainingContent)
      modifies this
      ensures State() == old(State()).(content := Seqs.ReplaceFirst(old(content), TrainingContentId, c))
    {
      var index := Seqs.FindIndex(content, TrainingContentId, c.id);
      if index != -1 {
        content := content[index := c];
      }
    }

    /** Only the fulfilled case has a handler; the other outcomes change nothing. */
    method UpdateTrainingContent(o: Outcome<TrainingContent>)
      modifies this
      ensures o.Fulfilled? ==> State() == old(State()).(content := Seqs.ReplaceFirst(old(content), TrainingContentId, o.payload))
      ensures !o.Fulfilled? ==> State() == old(State())
    {
      if o.Fulfilled? {
        ReplaceById(o.payload);
      }
    }

    method DeleteTrainingContent(o: Outcome<string>)
      modifies this
      ensures o.Fulfilled? ==>
        State() == old(State()).(content := Seqs.RemoveKey(old(content), TrainingContentId, o.payload), total := old(total) - 1)
      ensures !o.Fulfilled? ==> State() == old(State())
    {
      if o.Fulfilled? {
        content := Seqs.RemoveKey(content, TrainingContentId, o.payload);
        total := total - 1;
      }
    }

    method PublishTrainingContent(o: Outcome<TrainingContent>)
      modifies this
      ensures o.Fulfilled? ==> State() == old(State()).(content := Seqs.ReplaceFirst(old(content), TrainingContentId, o.payload))
      ensures !o.Fulfilled? ==> State() == old(State())
    {
      if o.Fulfilled? {
        ReplaceById(o.payload);
      }
    }
  }
}
