/** The user records of pdfier/src/types/auth.ts. */
module AuthTypes {
  import opened Wrappers

  /** The `plan_type` tag carried by both kinds of user. */
  datatype Plan = Basic | Premium | GuestPlan

  /** `'basic' | 'premium'`: the plans of an authenticated user. */
  type PaidPlan = p: Plan | p != GuestPlan witness Basic

  /** The quota counters of an authenticated user: four counter/limit pairs and
      the ISO date of the last reset. */
  datatype UsageMetrics = UsageMetrics(
    pdfProcessedToday: int, pdfProcessedLimitDaily: int,
    ragQueriesThisMonth: int, ragQueriesLimitMonthly: int,
    ragIndexedDocumentsCount: int, ragIndexedDocumentsLimit: int,
    wordConversionsToday: int, wordConversionsLimitDaily: int,
    lastQuotaResetDate: string)

  /** An authenticated user as `/api/v1/users/me` returns it. */
  datatype User = User(
    name: string, verified: bool, ipAddress: Option<string>, planType: PaidPlan,
    usageMetrics: UsageMetrics, createdAt: string, updatedAt: string)

  /** The counters of a guest. The type declares four limits and no counter; the
      store's guest carries the daily PDF counter and limit and nothing else. This
      one shape holds both: the counter, the daily limit, and the other three
      limits as optional fields that the store leaves absent. */
  datatype GuestUsage = GuestUsage(
    pdfProcessedToday: int, pdfProcessedLimitDaily: int,
    ragQueriesLimitMonthly: Option<int>, ragIndexedDocumentsLimit: Option<int>,
    wordConversionsLimitDaily: Option<int>)

  datatype GuestRecord = GuestRecord(
    id: string, name: string, email: string, verified: bool, planType: Plan, usageMetrics: GuestUsage)

  /** The literal types of `GuestUser`: these fields can hold one value each. */
  predicate HasGuestIdentity(g: GuestRecord) {
    g.id == "guest" && g.name == "Guest" && g.email == "guest@example.com" && !g.verified && g.planType == GuestPlan
  }

  /** `GuestUser`: a record whose identity fields hold their literal values. */
  type GuestUser = g: GuestRecord | HasGuestIdentity(g)
    witness GuestRecord("guest", "Guest", "guest@example.com", false, GuestPlan, GuestUsage(0, 10, None, None, None))

  /** `AuthUser = User | GuestUser | null`. */
  datatype AuthUser = NoUser | Authenticated(user: User) | Guest(guest: GuestUser)

  /** `user.plan_type`, absent for `null`. The tag tells the two kinds of user
      apart: it is `guest` exactly for guests. */
  function PlanTypeOf(u: AuthUser): (p: Option<Plan>)
    ensures p.None? <==> u.NoUser?
    ensures p == Some(GuestPlan) <==> u.Guest?
    ensures u.Authenticated? ==> p.Some? && p.value in {Basic, Premium}
  {
    match u
    case NoUser => None
    case Authenticated(x) => Some(x.planType)
    case Guest(g) => Some(g.planType)
  }

  /** Every guest has the same identity; guests differ only in their counters. */
  lemma {:induction false} GuestsDifferOnlyInUsage(g: GuestUser, h: GuestUser)
    requires g.usageMetrics == h.usageMetrics
    ensures g == h
  {
  }
}
