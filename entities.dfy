/**
 * The records the back end returns (the interfaces declared in the files under `api/`), as values.
 * JavaScript numbers that count things are `int`; amounts, rates and scores are `real`.
 * Each id-keyed record has a key function, used with the list operations of `Seqs`.
 */
module Entities {
  import opened Wrappers

  datatype SkillLevel = Beginner | Intermediate | Advanced
  datatype Plan = FreePlan | Monthly | ThreeMonth | Yearly | School
  datatype UserStatus = ActiveUser | Suspended | Inactive

  /** The string literal each union member is in the TypeScript type, as compared against a filter value. */
  function PlanName(p: Plan): string
  {
    match p
    case FreePlan => "Free"
    case Monthly => "Monthly"
    case ThreeMonth => "3-Month"
    case Yearly => "Yearly"
    case School => "School"
  }

  function UserStatusName(s: UserStatus): string
  {
    match s
    case ActiveUser => "Active"
    case Suspended => "Suspended"
    case Inactive => "Inactive"
  }

  function SkillLevelName(l: SkillLevel): string
  {
    match l
    case Beginner => "Beginner"
    case Intermediate => "Intermediate"
    case Advanced => "Advanced"
  }

  /** Distinct members have distinct names, and no member is named "all" (the filter wildcard). */
  lemma NamesDistinct()
    ensures forall p, q :: PlanName(p) == PlanName(q) ==> p == q
    ensures forall p :: PlanName(p) != "all"
    ensures forall s, t :: UserStatusName(s) == UserStatusName(t) ==> s == t
    ensures forall s :: UserStatusName(s) != "all"
    ensures forall l, m :: SkillLevelName(l) == SkillLevelName(m) ==> l == m
    ensures forall l :: SkillLevelName(l) != "all"
  {
  }

  /** api/users.api.ts `User`. */
  datatype User = User(
    id: string, name: string, email: string, sport: string,
    skillLevel: SkillLevel, plan: Plan, status: UserStatus,
    videos: int, engagement: real, avatar: Option<string>,
    createdAt: string, lastActive: string)

  datatype UsersResponse = UsersResponse(users: seq<User>, total: int, page: int, limit: int)

  function UserId(u: User): string { u.id }

  datatype ContentType = Video | Article | Exercise
  datatype ContentStatus = Published | Draft | Archived

  /** api/training.api.ts `TrainingContent`. */
  datatype TrainingContent = TrainingContent(
    id: string, title: string, description: string, sport: string, category: string,
    contentType: ContentType, difficulty: SkillLevel, duration: int,
    thumbnail: Option<string>, views: int, likes: int, status: ContentStatus,
    createdAt: string, updatedAt: string)

  datatype TrainingContentResponse = TrainingContentResponse(content: seq<TrainingContent>, total: int, page: int, limit: int)

  function TrainingContentId(c: TrainingContent): string { c.id }

  datatype TicketStatus = Open | InProgress | Resolved | Closed
  datatype Priority = Low | Medium | High | Urgent

  function TicketStatusName(s: TicketStatus): string
  {
    match s
    case Open => "Open"
    case InProgress => "In Progress"
    case Resolved => "Resolved"
    case Closed => "Closed"
  }

  /** api/support.api.ts `SupportTicket`. */
  datatype SupportTicket = SupportTicket(
    id: string, userId: string, userName: string, userEmail: string,
    subject: string, description: string, status: TicketStatus, priority: Priority,
    category: string, createdAt: string, updatedAt: string, assignedTo: Option<string>)

  /** api/support.api.ts `TicketResponse`. */
  datatype TicketResponse = TicketResponse(id: string, ticketId: string, message: string, respondedBy: string, createdAt: string)

  /** `SupportTicket & { responses: TicketResponse[] }`, what the single-ticket endpoint returns. */
  datatype TicketDetail = TicketDetail(ticket: SupportTicket, responses: seq<TicketResponse>)

  datatype TicketsResponse = TicketsResponse(tickets: seq<SupportTicket>, total: int, page: int, limit: int)

  function TicketId(t: SupportTicket): string { t.id }

  datatype SubscriptionStatus = ActiveSubscription | Cancelled | Expired | Trial
  datatype PaymentStatus = Completed | PendingPayment | FailedPayment | Refunded

  /** api/subscriptions.api.ts `Subscription`. */
  datatype Subscription = Subscription(
    id: string, userId: string, userName: string, userEmail: string,
    plan: Plan, status: SubscriptionStatus, startDate: string, endDate: string,
    amount: real, paymentMethod: string, autoRenew: bool)

  /** api/subscriptions.api.ts `Payment`. */
  datatype Payment = Payment(
    id: string, subscriptionId: string, userId: string, userName: string,
    amount: real, status: PaymentStatus, paymentDate: string, paymentMethod: string, invoiceId: string)

  datatype SubscriptionsResponse = SubscriptionsResponse(subscriptions: seq<Subscription>, total: int, page: int, limit: int)
  datatype PaymentsResponse = PaymentsResponse(payments: seq<Payment>, total: int, page: int, limit: int)

  function SubscriptionId(s: Subscription): string { s.id }
  function PaymentId(p: Payment): string { p.id }

  /** api/accessControl.api.ts `Role` and `Permission`. */
  datatype Role = Role(id: string, name: string, description: string, permissions: seq<string>, userCount: int, createdAt: string)
  datatype Permission = Permission(id: string, name: string, description: string, category: string)

  function RoleId(r: Role): string { r.id }

  /** api/settings.api.ts `Settings`, one datatype per section. */
  datatype GeneralSettings = GeneralSettings(siteName: string, siteDescription: string, maintenanceMode: bool, supportEmail: string)
  datatype NotificationSettings = NotificationSettings(emailNotifications: bool, pushNotifications: bool, marketingEmails: bool)
  datatype SecuritySettings = SecuritySettings(twoFactorAuth: bool, sessionTimeout: int, passwordPolicy: string)
  datatype IntegrationSettings = IntegrationSettings(stripeEnabled: bool, googleAnalyticsId: string, slackWebhook: string)
  datatype Settings = Settings(
    general: GeneralSettings, notifications: NotificationSettings,
    security: SecuritySettings, integrations: IntegrationSettings)

  /** api/dashboard.api.ts. */
  datatype DashboardStats = DashboardStats(
    totalUsers: int, totalUsersChange: real, activeSubscribers: int, activeSubscribersChange: real,
    totalVideos: int, totalVideosChange: real, monthlyRevenue: real, monthlyRevenueChange: real)
  datatype UserGrowthData = UserGrowthData(month: string, users: int)
  datatype VideoUploadData = VideoUploadData(month: string, uploads: int)
  datatype SubscriptionDistribution = SubscriptionDistribution(plan: string, count: int)
  datatype QuickActionType = FlaggedVideos | AiFailures | SupportTickets | FailedPayments
  datatype QuickAction = QuickAction(id: string, actionType: QuickActionType, title: string, count: int, action: string)

  /** api/aiPerformance.api.ts. */
  datatype AIPerformanceMetrics = AIPerformanceMetrics(totalAnalyses: int, successRate: real, avgProcessingTime: real, failedAnalyses: int)
  datatype AIFailure = AIFailure(
    id: string, videoId: string, videoTitle: string, errorType: string,
    errorMessage: string, timestamp: string, resolved: bool)
  datatype AIFailuresResponse = AIFailuresResponse(failures: seq<AIFailure>, total: int)

  function AIFailureId(f: AIFailure): string { f.id }
}
