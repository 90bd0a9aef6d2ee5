/** The persisted entities (users, try-on jobs, payments, usage events, admin
    log entries, system settings) and the database that holds them. Every
    route of the application reads and writes this one store. */
module Records {
  import opened Base
  import Json

  type UserId = string
  type TryOnId = string

  /** Time is an integer clock in milliseconds, like `Date.now()`. */
  const SECOND_MS: int := 1000
  const DAY_MS: int := 86400000

  datatype Plan = FREE | PREMIUM

  datatype User = User(
    id: UserId,
    email: string,
    name: Option<string>,
    image: Option<string>,
    plan: Plan,
    isPremium: bool,
    isBanned: bool,
    banReason: Option<string>,
    freeUsed: nat,
    dailyUsed: nat,
    dailyResetAt: int,
    stripeCustomerId: Option<string>,
    stripeSubscriptionId: Option<string>,
    stripePriceId: Option<string>,
    stripeCurrentPeriodEnd: Option<int>,
    premiumSince: Option<int>)

  datatype Status = PENDING | PROCESSING | SUCCESS | FAILED

  /** The name of a status as stored and sent to clients. */
  function StatusName(s: Status): string
  {
    match s
    case PENDING => "PENDING"
    case PROCESSING => "PROCESSING"
    case SUCCESS => "SUCCESS"
    case FAILED => "FAILED"
  }

  datatype TryOn = TryOn(
    id: TryOnId,
    userId: UserId,
    inputPhoto: string,
    clothPhoto: string,
    resultPhoto: Option<string>,
    status: Status,
    resolution: string,
    hasWatermark: bool,
    aiProvider: string,
    processingTime: Option<int>,
    aiCost: Option<int>,
    errorMessage: Option<string>,
    expiresAt: Option<int>,
    createdAt: int)

  /** A payment row; `amount` is in cents. */
  datatype Payment = Payment(
    userId: UserId,
    stripePaymentId: Option<string>,
    stripeInvoiceId: Option<string>,
    amount: int,
    status: string,
    billingReason: string,
    createdAt: int)

  /** The metadata of a usage (analytics) event, one shape per action. */
  datatype UsageDetail =
    | TryOnSucceeded(tryOnId: TryOnId, plan: Option<Plan>, resolution: string, processingTime: int)
    | TryOnFailed(tryOnId: TryOnId, error: string)
    | SubscriptionStarted(subscriptionId: Option<string>, priceId: string)
    | PaymentFailed(invoiceId: string, amountDue: int)
    | SubscriptionCancelled(cancelledSubscriptionId: string, cancelledAt: int)

  datatype Usage = Usage(userId: UserId, action: string, detail: UsageDetail, createdAt: int)

  /** The metadata object an admin action attaches to its log entry. */
  datatype LogMetadata =
    | NoMetadata
    | CreditsGiven(credits: int)
    | BanReason(reason: string)
    | NewValue(value: Json.Json)

  datatype AdminLog = AdminLog(
    id: string,
    adminId: UserId,
    action: string,
    targetType: Option<string>,
    targetId: Option<string>,
    metadata: LogMetadata,
    createdAt: int)

  datatype Setting = Setting(key: string, value: string, description: Option<string>, updatedBy: Option<UserId>)

  ghost predicate UsersKeyed(users: map<UserId, User>)
  {
    forall k :: k in users ==> users[k].id == k
  }

  ghost predicate TryOnsKeyed(tryOns: map<TryOnId, TryOn>)
  {
    forall k :: k in tryOns ==> tryOns[k].id == k
  }

  /** Storing a user under its own id keeps the user table keyed. */
  lemma StoreUser(users: map<UserId, User>, u: User)
    requires UsersKeyed(users)
    ensures UsersKeyed(users[u.id := u])
  {
  }

  /** Storing a job under its own id keeps the job table keyed. */
  lemma StoreTryOn(tryOns: map<TryOnId, TryOn>, job: TryOn)
    requires TryOnsKeyed(tryOns)
    ensures TryOnsKeyed(tryOns[job.id := job])
  {
  }

  ghost predicate SettingsKeyed(settings: map<string, Setting>)
  {
    forall k :: k in settings ==> settings[k].key == k
  }

  /** Storing a setting under its own key keeps the settings table keyed. */
  lemma StoreSetting(settings: map<string, Setting>, s: Setting)
    requires SettingsKeyed(settings)
    ensures SettingsKeyed(settings[s.key := s])
  {
  }

  /** The application database. Tables keyed by id are maps; the payment,
      usage and admin-log tables are only ever appended to. */
  class Database {
    var users: map<UserId, User>
    var tryOns: map<TryOnId, TryOn>
    var payments: seq<Payment>
    var usage: seq<Usage>
    var adminLogs: seq<AdminLog>
    var settings: map<string, Setting>

    /** Every row is stored under its own key. */
    ghost predicate Valid()
      reads this
    {
      UsersKeyed(users) && TryOnsKeyed(tryOns) && SettingsKeyed(settings)
    }

    /** `prisma.tryOn.create`: the job is stored under its own id. */
    method CreateTryOn(job: TryOn)
      requires Valid() && job.id !in tryOns
      modifies `tryOns
      ensures Valid()
      ensures tryOns == old(tryOns)[job.id := job]
    {
      StoreTryOn(tryOns, job);
      tryOns := tryOns[job.id := job];
    }

    /** `prisma.user.create`: the user is stored under its own id. */
    method CreateUser(u: User)
      requires Valid() && u.id !in users
      modifies `users
      ensures Valid()
      ensures users == old(users)[u.id := u]
    {
      StoreUser(users, u);
      users := users[u.id := u];
    }

    /** `prisma.user.update` of a user that exists: the row is replaced by its new version. */
    method UpdateUser(u: User)
      requires Valid() && u.id in users
      modifies `users
      ensures Valid()
      ensures users == old(users)[u.id := u]
    {
      StoreUser(users, u);
      users := users[u.id := u];
    }

    /** `prisma.payment.create`: one more payment row. */
    method RecordPayment(p: Payment)
      modifies `payments
      ensures payments == old(payments) + [p]
    {
      payments := payments + [p];
    }

    /** `prisma.tryOn.update` of a job that exists: the row is replaced by its new version. */
    method UpdateTryOn(job: TryOn)
      requires Valid() && job.id in tryOns
      modifies `tryOns
      ensures Valid()
      ensures tryOns == old(tryOns)[job.id := job]
    {
      StoreTryOn(tryOns, job);
      tryOns := tryOns[job.id := job];
    }

    /** `prisma.usage.create`: one more analytics event. */
    method RecordUsage(u: Usage)
      modifies `usage
      ensures usage == old(usage) + [u]
    {
      usage := usage + [u];
    }

    /** `prisma.tryOn.delete` of a job that exists. */
    method DeleteTryOn(id: TryOnId)
      requires Valid() && id in tryOns
      modifies `tryOns
      ensures Valid()
      ensures tryOns == old(tryOns) - {id}
    {
      tryOns := tryOns - {id};
    }

    /** A create or update of the settings row with the setting's key. */
    method PutSetting(st: Setting)
      requires Valid()
      modifies `settings
      ensures Valid()
      ensures settings == old(settings)[st.key := st]
    {
      StoreSetting(settings, st);
      settings := settings[st.key := st];
    }

    /** `logAdminAction`: one more admin log entry. */
    method RecordAdminLog(entry: AdminLog)
      modifies `adminLogs
      ensures adminLogs == old(adminLogs) + [entry]
    {
      adminLogs := adminLogs + [entry];
    }

    constructor ()
      ensures Valid()
      ensures users == map[] && tryOns == map[] && settings == map[]
      ensures payments == [] && usage == [] && adminLogs == []
    {
      users := map[];
      tryOns := map[];
      payments := [];
      usage := [];
      adminLogs := [];
      settings := map[];
    }
  }
}
