/**
 * features/dashboard/dashboardSlice.ts: the overview statistics and the four chart series of
 * the dashboard home page.
 */
module DashboardSlice {
  import opened Wrappers
  import opened Thunks
  import opened Entities

  datatype DashboardState = DashboardState(
    stats: Option<DashboardStats>, userGrowth: seq<UserGrowthData>, videoUploads: seq<VideoUploadData>,
    subscriptionDistribution: seq<SubscriptionDistribution>, quickActions: seq<QuickAction>,
    loading: bool, error: Option<string>)

  const InitialState := DashboardState(None, [], [], [], [], false, None)

  class DashboardStore {
    var stats: Option<DashboardStats>
    var userGrowth: seq<UserGrowthData>
    var videoUploads: seq<VideoUploadData>
    var subscriptionDistribution: seq<SubscriptionDistribution>
    var quickActions: seq<QuickAction>
    var loading: bool
    var error: Option<string>

    function State(): DashboardState
      reads this
    {
      DashboardState(stats, userGrowth, videoUploads, subscriptionDistribution, quickActions, loading, error)
    }

    constructor ()
      ensures State() == InitialState
    {
      stats, userGrowth, videoUploads, subscriptionDistribution, quickActions := None, [], [], [], [];
      loading, error := false, None;
    }

    method ClearError()
      modifies this
      ensures State() == old(State()).(error := None)
    {
      error := None;
    }

    method FetchDashboardStats(o: Outcome<DashboardStats>)
      modifies this
      ensures match o
        case Pending => State() == old(State()).(loading := true, error := None)
        case Fulfilled(s) => State() == old(State()).(loading := false, stats := Some(s))
        case Rejected(m) =>
          State() == old(State()).(loading := false, error := Some(MessageOr(m, "Failed to fetch dashboard stats")))
    {
      match o
      case Pending =>
        loading := true;
        error := None;
      case Fulfilled(s) =>
        loading := false;
        stats := Some(s);
      case Rejected(m) =>
        loading := false;
        error := Some(MessageOr(m, "Failed to fetch dashboard stats"));
    }

    /** The four series have only a fulfilled handler, which replaces that series alone. */
    method FetchUserGrowth(o: Outcome<seq<UserGrowthData>>)
      modifies this
      ensures o.Fulfilled? ==> State() == old(State()).(userGrowth := o.payload)
      ensures !o.Fulfilled? ==> State() == old(State())
    {
      if o.Fulfilled? {
        userGrowth := o.payload;
      }
    }

    method FetchVideoUploads(o: Outcome<seq<VideoUploadData>>)
      modifies this
      ensures o.Fulfilled? ==> State() == old(State()).(videoUploads := o.payload)
      ensures !o.Fulfilled? ==> State() == old(State())
    {
      if o.Fulfilled? {
        videoUploads := o.payload;
      }
    }

    method FetchSubscriptionDistribution(o: Outcome<seq<SubscriptionDistribution>>)
      modifies this
      ensures o.Fulfilled? ==> State() == old(State()).(subscriptionDistribution := o.payload)
      ensures !o.Fulfilled? ==> State() == old(State())
    {
      if o.Fulfilled? {
        subscriptionDistribution := o.payload;
      }
    }

    method FetchQuickActions(o: Outcome<seq<QuickAction>>)
      modifies this
      ensures o.Fulfilled? ==> State() == old(State()).(quickActions := o.payload)
      ensures !o.Fulfilled? ==> State() == old(State())
    {
      if o.Fulfilled? {
        quickActions := o.payload;
      }
    }
  }
}
