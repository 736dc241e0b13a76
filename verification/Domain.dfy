/** The user entity, its ban and subscription parts, and the row that stores it
    (user_domain.go and the UserDBModel of postgres_user_repository.go).
    Times are integers; the JSON columns hold the decoded values. */
module Domain {
  import opened Base

  type Time = int

  const STATUS_UNSPECIFIED := "UNSPECIFIED"
  const STATUS_ACTIVE := "ACTIVE"
  const STATUS_DELETED := "DELETED"
  const STATUS_BANNED_PERMANENTLY := "BANNED_PERMANENTLY"
  const STATUS_BANNED_TEMPORARILY := "BANNED_TEMPORARILY"

  const ROLE_UNSPECIFIED := "UNSPECIFIED"
  const ROLE_USER := "USER"
  const ROLE_MODERATOR := "MODERATOR"
  const ROLE_ADMIN := "ADMIN"
  const ROLE_SUPER_ADMIN := "SUPER_ADMIN"

  const SUBSCRIPTION_CANCELED := "CANCELED"

  datatype BanInfo = BanInfo(
    isBanned: bool, bannedAt: Time, bannedUntil: Option<Time>, reason: string, bannedBy: string)

  datatype Subscription = Subscription(
    status: string, level: string, start: Time, end: Option<Time>,
    autoRenew: bool, canceledAt: Option<Time>, cancelReason: string)

  /** The value of a domain user: what one `*User` holds at one moment. */
  datatype UserData = UserData(
    id: string, serviceEmail: string, name: string, password: string, email: string, phone: string,
    status: string, role: string, createdAt: Time, updatedAt: Time, lastLoginAt: Option<Time>,
    banInfo: Option<BanInfo>, subscription: Option<Subscription>)

  /** One row of table `users`. The last four columns repeat what the two JSON columns say. */
  datatype Row = Row(
    id: string, serviceEmail: string, name: string, password: string, email: string, phone: string,
    status: string, role: string, createdAt: Time, updatedAt: Time, lastLoginAt: Option<Time>,
    banInfo: Option<BanInfo>, subscription: Option<Subscription>,
    isBanned: bool, subscriptionStatus: string, subscriptionLevel: string, subscriptionEnd: Option<Time>)

  predicate IsAdminRole(role: string) {
    role == ROLE_ADMIN || role == ROLE_SUPER_ADMIN || role == ROLE_MODERATOR
  }

  predicate BanFlag(ban: Option<BanInfo>) {
    ban.Some? && ban.value.isBanned
  }

  /** The verdict `IsBanned` returns at time `now`. */
  predicate BanInForce(ban: Option<BanInfo>, now: Time) {
    BanFlag(ban) && (ban.value.bannedUntil.Some? ==> now <= ban.value.bannedUntil.value)
  }

  /** What `IsBanned` leaves behind: an expired temporary ban loses its flag and keeps its end. */
  function ClearedIfExpired(ban: Option<BanInfo>, now: Time): (r: Option<BanInfo>)
    ensures BanFlag(r) <==> BanInForce(ban, now)
    ensures BanInForce(ban, now) ==> r == ban
  {
    if BanFlag(ban) && !BanInForce(ban, now) then Some(ban.value.(isBanned := false)) else ban
  }

  function NewBan(reason: string, bannedBy: string, duration: Option<int>, now: Time): BanInfo {
    BanInfo(true, now, if duration.Some? then Some(now + duration.value) else None, reason, bannedBy)
  }

  function Canceled(s: Subscription, reason: string, immediate: bool, now: Time): Subscription {
    s.(status := SUBSCRIPTION_CANCELED, cancelReason := reason, canceledAt := Some(now),
       end := if immediate then Some(now) else s.end, autoRenew := false)
  }

  function SubStatus(s: Option<Subscription>): string {
    if s.Some? then s.value.status else ""
  }

  function SubLevel(s: Option<Subscription>): string {
    if s.Some? then s.value.level else ""
  }

  function SubEnd(s: Option<Subscription>): Option<Time> {
    if s.Some? then s.value.end else None
  }

  function ToDomain(row: Row): UserData {
    UserData(row.id, row.serviceEmail, row.name, row.password, row.email, row.phone, row.status, row.role,
             row.createdAt, row.updatedAt, row.lastLoginAt, row.banInfo, row.subscription)
  }

  function FromDomain(u: UserData): Row {
    Row(u.id, u.serviceEmail, u.name, u.password, u.email, u.phone, u.status, u.role,
        u.createdAt, u.updatedAt, u.lastLoginAt, u.banInfo, u.subscription,
        BanFlag(u.banInfo), SubStatus(u.subscription), SubLevel(u.subscription), SubEnd(u.subscription))
  }

  /** The derived columns agree with the JSON columns they repeat. */
  predicate Coherent(row: Row) {
    && row.isBanned == BanFlag(row.banInfo)
    && row.subscriptionStatus == SubStatus(row.subscription)
    && row.subscriptionLevel == SubLevel(row.subscription)
    && row.subscriptionEnd == SubEnd(row.subscription)
  }

  /** Loading a row and writing it back restores it exactly when its derived columns were coherent. */
  lemma LoadStoreIsIdentityIffCoherent(row: Row)
    ensures FromDomain(ToDomain(row)) == row <==> Coherent(row)
  {
  }

  /** A bcrypt hash: sixty characters starting with one of the four version marks. */
  predicate IsHashedPassword(p: string) {
    |p| == 60 && (p[..4] == "$2a$" || p[..4] == "$2b$" || p[..4] == "$2x$" || p[..4] == "$2y$")
  }
}
