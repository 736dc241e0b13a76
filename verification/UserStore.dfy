/** Table `users` and the statements PostgresUserRepository runs on single rows. */
module UserStore {
  import opened Base
  import opened Domain

  type Table = map<string, Row>

  predicate Live(t: Table, id: string) {
    id in t && t[id].status != STATUS_DELETED
  }

  predicate Exists(t: Table, email: string, name: string) {
    exists id | id in t.Keys :: Live(t, id) && (t[id].email == email || t[id].name == name)
  }

  datatype Write =
    | Create(user: UserData)
    | Update(user: UserData)
    | Ban(id: string, ban: BanInfo)
    | Unban(id: string)
    | SetSubscription(id: string, subscription: Subscription)

  datatype StoreError = UserNotFound | UserAlreadyExists | StoreFailure

  // ----- the ban statement -----

  datatype Json = JsonNull | JsonBool(b: bool) | JsonNumber(n: int) | JsonText(s: string)

  /** BanInfo has no JSON tags, so its keys are the Go field names. */
  function BanJson(ban: BanInfo): map<string, Json> {
    map["IsBanned" := JsonBool(ban.isBanned),
        "BannedAt" := JsonNumber(ban.bannedAt),
        "BannedUntil" := if ban.bannedUntil.Some? then JsonNumber(ban.bannedUntil.value) else JsonNull,
        "Reason" := JsonText(ban.reason),
        "BannedBy" := JsonText(ban.bannedBy)]
  }

  /** The CASE expression of the ban statement, over the key it asks for. */
  function StoredBanStatus(ban: BanInfo): string {
    var json := BanJson(ban);
    if "banned_until" in json && json["banned_until"] != JsonNull
    then STATUS_BANNED_TEMPORARILY else STATUS_BANNED_PERMANENTLY
  }

  function BannedRow(row: Row, ban: BanInfo, now: Time): Row {
    row.(banInfo := Some(ban), isBanned := true, status := StoredBanStatus(ban), updatedAt := now)
  }

  function UnbannedRow(row: Row, now: Time): Row {
    row.(banInfo := None, isBanned := false, status := STATUS_ACTIVE, updatedAt := now)
  }

  function SubscribedRow(row: Row, s: Subscription, now: Time): Row {
    row.(subscription := Some(s), subscriptionStatus := s.status, subscriptionLevel := s.level,
         subscriptionEnd := s.end, updatedAt := now)
  }

  /** UPDATE sets every column but the id and created_at. */
  function UpdatedRow(row: Row, u: UserData): Row {
    FromDomain(u).(id := row.id, createdAt := row.createdAt)
  }

  function Target(w: Write): string {
    match w
    case Create(u) => u.id
    case Update(u) => u.id
    case Ban(id, _) => id
    case Unban(id) => id
    case SetSubscription(id, _) => id
  }

  /** One statement: the new table, and the error it reports. The statements for bans and
      subscriptions do not look at how many rows they touched. */
  function Commit(t: Table, w: Write, now: Time): (r: (Table, Option<StoreError>))
    ensures r.0.Keys == t.Keys || (w.Create? && r.0.Keys == t.Keys + {w.user.id})
    ensures forall id | id in t && id != Target(w) :: r.0[id] == t[id]
  {
    match w
    case Create(u) =>
      if u.id in t then (t, Some(UserAlreadyExists)) else (t[u.id := FromDomain(u)], None)
    case Update(u) =>
      if u.id in t then (t[u.id := UpdatedRow(t[u.id], u)], None) else (t, Some(UserNotFound))
    case Ban(id, ban) => (if id in t then t[id := BannedRow(t[id], ban, now)] else t, None)
    case Unban(id) => (if id in t then t[id := UnbannedRow(t[id], now)] else t, None)
    case SetSubscription(id, s) => (if id in t then t[id := SubscribedRow(t[id], s, now)] else t, None)
  }

  // ----- the loaded user -----

  /** A `*domain.User`. */
  class User {
    var id: string
    var serviceEmail: string
    var name: string
    var password: string
    var email: string
    var phone: string
    var status: string
    var role: string
    var createdAt: Time
    var updatedAt: Time
    var lastLoginAt: Option<Time>
    var banInfo: Option<BanInfo>
    var subscription: Option<Subscription>

    function View(): UserData
      reads this
    {
      UserData(id, serviceEmail, name, password, email, phone, status, role,
               createdAt, updatedAt, lastLoginAt, banInfo, subscription)
    }

    constructor (u: UserData)
      ensures View() == u
    {
      id, serviceEmail, name, password, email, phone := u.id, u.serviceEmail, u.name, u.password, u.email, u.phone;
      status, role, createdAt, updatedAt, lastLoginAt := u.status, u.role, u.createdAt, u.updatedAt, u.lastLoginAt;
      banInfo, subscription := u.banInfo, u.subscription;
    }

    /** The lazy expiry: an expired ban is cleared here, in memory only. */
    method IsBanned(now: Time) returns (banned: bool)
      modifies this
      ensures banned == BanInForce(old(banInfo), now)
      ensures View() == old(View()).(banInfo := ClearedIfExpired(old(banInfo), now))
    {
      if banInfo.None? {
        return false;
      }
      if !banInfo.value.isBanned {
        return false;
      }
      if banInfo.value.bannedUntil.Some? && now > banInfo.value.bannedUntil.value {
        banInfo := Some(banInfo.value.(isBanned := false));
        return false;
      }
      return true;
    }

    /** The fields an update may set. */
    method SetProfile(name: string, email: string, phone: string, serviceEmail: string, now: Time)
      modifies this
      ensures View() == old(View()).(name := name, email := email, phone := phone,
                                     serviceEmail := serviceEmail, updatedAt := now)
    {
      this.name := name;
      this.email := email;
      this.phone := phone;
      this.serviceEmail := serviceEmail;
      updatedAt := now;
    }

    method SetBan(ban: BanInfo, status: string)
      modifies this
      ensures View() == old(View()).(banInfo := Some(ban), status := status)
    {
      banInfo := Some(ban);
      this.status := status;
    }

    method SetStatus(status: string, now: Time)
      modifies this
      ensures View() == old(View()).(status := status, updatedAt := now)
    {
      this.status := status;
      updatedAt := now;
    }

    method SetPassword(hash: string, now: Time)
      modifies this
      ensures View() == old(View()).(password := hash, updatedAt := now)
    {
      password := hash;
      updatedAt := now;
    }

    method SetSubscription(s: Subscription)
      modifies this
      ensures View() == old(View()).(subscription := Some(s))
    {
      subscription := Some(s);
    }

    method BlankPassword()
      modifies this
      ensures View() == old(View()).(password := "")
    {
      password := "";
    }

    predicate IsAdmin()
      reads this
    {
      IsAdminRole(role)
    }
  }

  // ----- the repository -----

  /** `io` says whether the database answers; when it does not, nothing changes. */
  class UserRepository {
    var rows: Table

    constructor ()
      ensures rows == map[]
    {
      rows := map[];
    }

    /** A user without an id gets the generated one, whatever becomes of the insertion. */
    method CreateUser(user: User, generated: string, io: bool) returns (error: Option<StoreError>)
      modifies this, user
      ensures user.View() == old(user.View()).(id := if old(user.id) == "" then generated else old(user.id))
      ensures (rows, error) == if io then Commit(old(rows), Create(user.View()), 0) else (old(rows), Some(StoreFailure))
    {
      if user.id == "" {
        user.id := generated;
      }
      if !io {
        return Some(StoreFailure);
      }
      if user.id in rows {
        return Some(UserAlreadyExists);
      }
      rows := rows[user.id := FromDomain(user.View())];
      error := None;
    }

    method FindByID(id: string, io: bool) returns (r: Result<User, StoreError>)
      ensures r.Success? ==> fresh(r.value)
      ensures r.Success? <==> io && Live(rows, id)
      ensures r.Success? ==> r.value.View() == ToDomain(rows[id])
      ensures r.Failure? ==> r.error == if io then UserNotFound else StoreFailure
    {
      if !io {
        return Failure(StoreFailure);
      }
      if id !in rows || rows[id].status == STATUS_DELETED {
        return Failure(UserNotFound);
      }
      var user := new User(ToDomain(rows[id]));
      r := Success(user);
    }

    /** With several live rows of one email the database returns any of them. */
    method FindByEmail(email: string, io: bool) returns (r: Result<User, StoreError>, ghost pick: Option<string>)
      ensures PickedByEmail(rows, email, pick)
      ensures r.Success? ==> fresh(r.value)
      ensures r.Success? <==> io && pick.Some?
      ensures r.Success? ==> r.value.View() == ToDomain(rows[pick.value])
      ensures r.Failure? ==> r.error == if io then UserNotFound else StoreFailure
    {
      if exists id | id in rows.Keys :: Live(rows, id) && rows[id].email == email {
        var id :| id in rows.Keys && Live(rows, id) && rows[id].email == email;
        pick := Some(id);
        if !io {
          return Failure(StoreFailure), pick;
        }
        var user := new User(ToDomain(rows[id]));
        r := Success(user);
      } else {
        pick := None;
        r := Failure(if io then UserNotFound else StoreFailure);
      }
    }

    method UpdateUser(user: User, io: bool) returns (error: Option<StoreError>)
      modifies this
      ensures (rows, error) == if io then Commit(old(rows), Update(user.View()), 0) else (old(rows), Some(StoreFailure))
    {
      if !io {
        return Some(StoreFailure);
      }
      if user.id !in rows {
        return Some(UserNotFound);
      }
      rows := rows[user.id := UpdatedRow(rows[user.id], user.View())];
      error := None;
    }

    method BanUser(id: string, ban: BanInfo, now: Time, io: bool) returns (error: Option<StoreError>)
      modifies this
      ensures (rows, error) == if io then Commit(old(rows), Ban(id, ban), now) else (old(rows), Some(StoreFailure))
    {
      if !io {
        return Some(StoreFailure);
      }
      if id in rows {
        rows := rows[id := BannedRow(rows[id], ban, now)];
      }
      error := None;
    }

    method UnbanUser(id: string, now: Time, io: bool) returns (error: Option<StoreError>)
      modifies this
      ensures (rows, error) == if io then Commit(old(rows), Unban(id), now) else (old(rows), Some(StoreFailure))
    {
      if !io {
        return Some(StoreFailure);
      }
      if id in rows {
        rows := rows[id := UnbannedRow(rows[id], now)];
      }
      error := None;
    }

    method UpdateSubscription(id: string, s: Subscription, now: Time, io: bool) returns (error: Option<StoreError>)
      modifies this
      ensures (rows, error) == if io then Commit(old(rows), SetSubscription(id, s), now)
                               else (old(rows), Some(StoreFailure))
    {
      if !io {
        return Some(StoreFailure);
      }
      if id in rows {
        rows := rows[id := SubscribedRow(rows[id], s, now)];
      }
      error := None;
    }
  }

  ghost predicate PickedByEmail(t: Table, email: string, pick: Option<string>) {
    if pick.Some? then Live(t, pick.value) && t[pick.value].email == email
    else forall id | id in t :: !(Live(t, id) && t[id].email == email)
  }

  // ----- what each statement keeps -----

  ghost predicate UniqueLive(t: Table) {
    forall a, b | a in t && b in t && a != b && Live(t, a) && Live(t, b) ::
      t[a].email != t[b].email && t[a].name != t[b].name
  }

  /** A live row other than `id` holds this email or name. */
  ghost predicate Held(t: Table, id: string, email: string, name: string) {
    exists other | other in t :: other != id && Live(t, other) && (t[other].email == email || t[other].name == name)
  }

  ghost predicate KeyedById(t: Table) {
    forall id | id in t :: t[id].id == id
  }

  ghost predicate TableCoherent(t: Table) {
    forall id | id in t :: Coherent(t[id])
  }

  lemma CommitKeepsKeys(t: Table, w: Write, now: Time)
    requires KeyedById(t)
    ensures KeyedById(Commit(t, w, now).0)
  {
  }

  /** UPDATE takes every column of the user but the id and the creation time, which stay those of the row. */
  lemma UpdateKeepsCreation(t: Table, u: UserData, now: Time)
    requires u.id in t
    ensures var row := Commit(t, Update(u), now).0[u.id];
            && row.id == t[u.id].id && row.createdAt == t[u.id].createdAt
            && ToDomain(row) == u.(id := row.id, createdAt := row.createdAt)
  {
  }

  /** A statement keeps the derived columns equal to the JSON they repeat exactly when it is not a ban
      whose own flag is unset: the ban statement writes `is_banned = true` whatever the JSON says. */
  lemma CommitKeepsCoherentIff(t: Table, w: Write, now: Time)
    requires TableCoherent(t)
    ensures TableCoherent(Commit(t, w, now).0) <==> !(w.Ban? && w.id in t && !w.ban.isBanned)
  {
    if w.Ban? && w.id in t {
      assert Commit(t, w, now).0[w.id] == BannedRow(t[w.id], w.ban, now);
    }
  }

  /** The ban statement asks for the key `banned_until`, which the JSON never has: it stores a
      permanent status for every ban. */
  lemma EveryBanIsStoredAsPermanent(ban: BanInfo)
    ensures StoredBanStatus(ban) == STATUS_BANNED_PERMANENTLY
  {
  }

  /** The write gives a live row an email or a name that another live row holds: by creating or updating the
      row, or by reviving a deleted one. */
  ghost predicate Takes(t: Table, w: Write) {
    match w
    case Create(u) => u.id !in t && u.status != STATUS_DELETED && Held(t, u.id, u.email, u.name)
    case Update(u) => u.id in t && u.status != STATUS_DELETED && Held(t, u.id, u.email, u.name)
    case Ban(id, _) => id in t && Held(t, id, t[id].email, t[id].name)
    case Unban(id) => id in t && Held(t, id, t[id].email, t[id].name)
    case SetSubscription(_, _) => false
  }

  /** Only the row written can clash with the others. */
  lemma UniqueButOneIff(t: Table, t': Table, id: string)
    requires UniqueLive(t) && id in t'
    requires forall a | a != id :: a in t <==> a in t'
    requires forall a | a != id && a in t :: t[a] == t'[a]
    ensures UniqueLive(t') <==> !(Live(t', id) && Held(t, id, t'[id].email, t'[id].name))
  {
    if Live(t', id) && Held(t, id, t'[id].email, t'[id].name) {
      var other :| other in t && other != id && Live(t, other)
                   && (t[other].email == t'[id].email || t[other].name == t'[id].name);
      assert other in t' && Live(t', other);
    }
  }

  lemma CommitKeepsUniqueIff(t: Table, w: Write, now: Time)
    requires UniqueLive(t)
    ensures UniqueLive(Commit(t, w, now).0) <==> !Takes(t, w)
  {
    var t' := Commit(t, w, now).0;
    if Target(w) in t' && (w.Create? ==> Target(w) !in t) {
      UniqueButOneIff(t, t', Target(w));
      StaysUniqueByItself(t, w, now);
    } else {
      assert t' == t;
    }
  }

  /** A live row's own email and name are held by no other. */
  lemma StaysUniqueByItself(t: Table, w: Write, now: Time)
    requires UniqueLive(t) && Target(w) in Commit(t, w, now).0 && (w.Create? ==> Target(w) !in t)
    ensures var id, t' := Target(w), Commit(t, w, now).0;
            Takes(t, w) <==> Live(t', id) && Held(t, id, t'[id].email, t'[id].name)
  {
    if w.Ban? {
      EveryBanIsStoredAsPermanent(w.ban);
    }
  }
}
