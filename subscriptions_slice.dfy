/**
 * features/subscriptions/subscriptionsSlice.ts: the subscriptions and payments lists, the
 * selected subscription, paging counters and loading flags.
 */
module SubscriptionsSlice {
  import opened Wrappers
  import opened Thunks
  import opened Entities
  import Seqs

  datatype SubscriptionsState = SubscriptionsState(
    subscriptions: seq<Subscription>, payments: seq<Payment>,
    selectedSubscription: Option<Subscription>, total: int, page: int, limit: int,
    filters: map<string, string>, loading: bool, error: Option<string>, actionLoading: bool)

  const InitialState := SubscriptionsState([], [], None, 0, 1, 10, map[], false, None, false)

  class SubscriptionsStore {
    var subscriptions: seq<Subscription>
    var payments: seq<Payment>
    var selectedSubscription: Option<Subscription>
    var total: int
    var page: int
    var limit: int
    var filters: map<string, string>
    var loading: bool
    var error: Option<string>
    var actionLoading: bool

    function State(): SubscriptionsState
      reads this
    {
      SubscriptionsState(subscriptions, payments, selectedSubscription, total, page, limit, filters, loading, error, actionLoading)
    }

    constructor ()
      ensures State() == InitialState
    {
      subscriptions, payments, selectedSubscription, total, page, limit := [], [], None, 0, 1, 10;
      filters, loading, error, actionLoading := map[], false, None, false;
    }

    method SetFilters(f: map<string, string>)
      modifies this
      ensures State() == old(State()).(filters := f)
    {
      filters := f;
    }

    method ClearFilters()
      modifies this
      ensures State() == old(State()).(filters := map[])
    {
      filters := map[];
    }

    method SetSelectedSubscription(s: Option<Subscription>)
      modifies this
      ensures State() == old(State()).(selectedSubscription := s)
    {
      selectedSubscription := s;
    }

    method ClearError()
      modifies this
      ensures State() == old(State()).(error := None)
    {
      error := None;
    }

    method FetchSubscriptions(o: Outcome<SubscriptionsResponse>)
      modifies this
      ensures match o
        case Pending => State() == old(State()).(loading := true, error := None)
        case Fulfilled(r) =>
          State() == old(State()).(loading := false, subscriptions := r.subscriptions, total := r.total, page := r.page, limit := r.limit)
        case Rejected(m) =>
          State() == old(State()).(loading := false, error := Some(MessageOr(m, "Failed to fetch subscriptions")))
    {
      match o
      case Pending =>
        loading := true;
        error := None;
      case Fulfilled(r) =>
        loading := false;
        subscriptions := r.subscriptions;
        total := r.total;
        page := r.page;
        limit := r.limit;
      case Rejected(m) =>
        loading := false;
        error := Some(MessageOr(m, "Failed to fetch subscriptions"));
    }

    /**
     * Pending sets `loading` without clearing `error`; success stores only the payments, and the
     * response's own `total`, `page` and `limit` are dropped.
     */
    method FetchPayments(o: Outcome<PaymentsResponse>)
      modifies this
      ensures match o
        case Pending => State() == old(State()).(loading := true)
        case Fulfilled(r) => State() == old(State()).(loading := false, payments := r.payments)
        case Rejected(m) =>
          State() == old(State()).(loading := false, error := Some(MessageOr(m, "Failed to fetch payments")))
    {
      match o
      case Pending =>
        loading := true;
      case Fulfilled(r) =>
        loading := false;
        payments := r.payments;
      case Rejected(m) =>
        loading := false;
        error := Some(MessageOr(m, "Failed to fetch payments"));
    }

    /** Replaces the first subscription with the payload's id; `payments` is untouched. */
    method CancelSubscription(o: Outcome<Subscription>)
      modifies this
      ensures o.Fulfilled? ==>
        State() == old(State()).(subscriptions := Seqs.ReplaceFirst(old(subscriptions), SubscriptionId, o.payload))
      ensures !o.Fulfilled? ==> State() == old(State())
    {
      if o.Fulfilled? {
        var index := Seqs.FindIndex(subscriptions, SubscriptionId, o.payload.id);
        if index != -1 {
          subscriptions := subscriptions[index := o.payload];
        }
      }
    }

    /** Replaces the first payment with the payload's id; `subscriptions` is untouched. */
    method RefundPayment(o: Outcome<Payment>)
      modifies this
      ensures o.Fulfilled? ==> State() == old(State()).(payments := Seqs.ReplaceFirst(old(payments), PaymentId, o.payload))
      ensures !o.Fulfilled? ==> State() == old(State())
    {
      if o.Fulfilled? {
        var index := Seqs.FindIndex(payments, PaymentId, o.payload.id);
        if index != -1 {
          payments := payments[index := o.payload];
        }
      }
    }
  }
}
