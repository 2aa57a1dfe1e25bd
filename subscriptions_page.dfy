/**
 * app/dashboard/subscriptions/page.tsx: the subscription-plan cards with their edit dialog and
 * the recent-transactions table. Edits go to a copy of the plan (`editingPlan`) and reach the
 * list of plans only when saved.
 */
module SubscriptionsPage {
  import opened Wrappers
  import opened Seqs

  /** The page's `SubscriptionPlan`; the price is the number the form holds. */
  datatype SubscriptionPlan = SubscriptionPlan(
    id: string, name: string, duration: string, price: real, priceLabel: string,
    videoLimit: string, feedbackDepth: string, trainingPlans: bool, progressTracking: bool,
    subscribers: int)

  function PlanId(p: SubscriptionPlan): string { p.id }

  /** One change made in the edit dialog: each input writes one field of the copy. */
  datatype PlanEdit =
    | SetName(name: string)
    | SetDuration(duration: string)
    | SetPrice(price: real)
    | SetVideoLimit(videoLimit: string)
    | SetFeedbackDepth(feedbackDepth: string)
    | SetTrainingPlans(trainingPlans: bool)
    | SetProgressTracking(progressTracking: bool)

  /** `setEditingPlan({ ...editingPlan, field: value })`: the one field changes; the id never does. */
  function ApplyEdit(p: SubscriptionPlan, e: PlanEdit): (q: SubscriptionPlan)
    ensures q.id == p.id && q.priceLabel == p.priceLabel && q.subscribers == p.subscribers
    ensures e.SetName? ==> q == p.(name := e.name)
    ensures e.SetDuration? ==> q == p.(duration := e.duration)
    ensures e.SetPrice? ==> q == p.(price := e.price)
    ensures e.SetVideoLimit? ==> q == p.(videoLimit := e.videoLimit)
    ensures e.SetFeedbackDepth? ==> q == p.(feedbackDepth := e.feedbackDepth)
    ensures e.SetTrainingPlans? ==> q == p.(trainingPlans := e.trainingPlans)
    ensures e.SetProgressTracking? ==> q == p.(progressTracking := e.progressTracking)
  {
    match e
    case SetName(v) => p.(name := v)
    case SetDuration(v) => p.(duration := v)
    case SetPrice(v) => p.(price := v)
    case SetVideoLimit(v) => p.(videoLimit := v)
    case SetFeedbackDepth(v) => p.(feedbackDepth := v)
    case SetTrainingPlans(v) => p.(trainingPlans := v)
    case SetProgressTracking(v) => p.(progressTracking := v)
  }

  datatype PageState = PageState(plans: seq<SubscriptionPlan>, editingPlan: Option<SubscriptionPlan>, isEditModalOpen: bool)

  /** `handleEditPlan`: the dialog opens on a copy of the plan; the list is untouched. */
  function EditPlan(s: PageState, plan: SubscriptionPlan): (t: PageState)
    ensures t == PageState(s.plans, Some(plan), true)
  {
    PageState(s.plans, Some(plan), true)
  }

  /** A change in the dialog changes only the copy (the inputs exist only while there is one). */
  function EditField(s: PageState, e: PlanEdit): (t: PageState)
    ensures t.plans == s.plans && t.isEditModalOpen == s.isEditModalOpen
    ensures s.editingPlan.None? ==> t == s
    ensures s.editingPlan.Some? ==> t.editingPlan == Some(ApplyEdit(s.editingPlan.value, e))
  {
    if s.editingPlan.None? then s else s.(editingPlan := Some(ApplyEdit(s.editingPlan.value, e)))
  }

  /** `plans.map(p => p.id === x.id ? x : p)`: every plan with the id is replaced. */
  function ReplaceById(plans: seq<SubscriptionPlan>, x: SubscriptionPlan): (r: seq<SubscriptionPlan>)
    ensures |r| == |plans|
    ensures forall i :: 0 <= i < |plans| ==> r[i] == if plans[i].id == x.id then x else plans[i]
  {
    seq(|plans|, i requires 0 <= i < |plans| => if plans[i].id == x.id then x else plans[i])
  }

  /** `handleSavePlan`: writes the copy over the plans with its id, closes the dialog and drops the copy. */
  function SavePlan(s: PageState): (t: PageState)
    ensures s.editingPlan.None? ==> t == s
    ensures s.editingPlan.Some? ==> t == PageState(ReplaceById(s.plans, s.editingPlan.value), None, false)
  {
    if s.editingPlan.None? then s
    else PageState(ReplaceById(s.plans, s.editingPlan.value), None, false)
  }

  /** A copy whose id no plan has changes nothing when saved. */
  lemma SaveWithoutMatch(plans: seq<SubscriptionPlan>, x: SubscriptionPlan)
    requires forall i :: 0 <= i < |plans| ==> plans[i].id != x.id
    ensures ReplaceById(plans, x) == plans
  {
  }

  /** Opening a plan and saving it without changes leaves the list as it was (for unique ids). */
  lemma EditThenSaveUnchanged(s: PageState, plan: SubscriptionPlan)
    requires forall i :: 0 <= i < |s.plans| && s.plans[i].id == plan.id ==> s.plans[i] == plan
    ensures SavePlan(EditPlan(s, plan)).plans == s.plans
  {
  }

  /** Saving an edited copy: the plans with its id now carry exactly the edits; every other plan is kept. */
  lemma EditsReachPlansOnSave(s: PageState, plan: SubscriptionPlan, e: PlanEdit)
    ensures var t := SavePlan(EditField(EditPlan(s, plan), e));
      t.editingPlan.None? && !t.isEditModalOpen && |t.plans| == |s.plans| &&
      forall i :: 0 <= i < |s.plans| ==> t.plans[i] == if s.plans[i].id == plan.id then ApplyEdit(plan, e) else s.plans[i]
  {
  }

  /** `handleDeletePlan`: removes every plan with the id and keeps the order of the rest. */
  function DeletePlan(plans: seq<SubscriptionPlan>, planId: string): (r: seq<SubscriptionPlan>)
    ensures IsSubseq(r, plans)
    ensures forall p :: p in r <==> p in plans && p.id != planId
  {
    RemoveKey(plans, PlanId, planId)
  }

  datatype TransactionStatus = Paid | Failed | Refunded

  function TransactionStatusName(s: TransactionStatus): string
  {
    match s
    case Paid => "Paid"
    case Failed => "Failed"
    case Refunded => "Refunded"
  }

  datatype StatusColor = StatusColor(bg: string, text: string)

  /** `statusColors`, a record looked up by the status text. */
  const StatusColors: map<string, StatusColor> := map[
    "Paid" := StatusColor("#DCFCE7", "#016630"),
    "Failed" := StatusColor("#FFE2E2", "#9F0712"),
    "Refunded" := StatusColor("#FEF9C2", "#894B00")
  ]

  /** Every transaction status has an entry, so the table's `statusColors[status].bg` is always defined. */
  function ColorOf(s: TransactionStatus): (c: StatusColor)
    ensures TransactionStatusName(s) in StatusColors && c == StatusColors[TransactionStatusName(s)]
  {
    StatusColors[TransactionStatusName(s)]
  }

  /** The three statuses get three different badge colours. */
  lemma StatusColorsDistinct(a: TransactionStatus, b: TransactionStatus)
    requires a != b
    ensures ColorOf(a) != ColorOf(b)
  {
  }
}
