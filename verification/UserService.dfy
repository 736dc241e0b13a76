/** The read-modify-write operations of UserService (user_server.go): each is one read, a computation on
    the loaded user, and at most one write. */
module UserService {
  import opened Base
  import opened Domain
  import opened UserStore

  datatype ServiceError =
    | NotFound | AlreadyExists | InvalidCredentials | IsBannedError
    | CannotBanAdmin | NotBanned | NoSubscription | Internal

  /** The fields a caller may set on registration and on update. */
  datatype Profile = Profile(
    name: string, email: string, password: string, phone: string, serviceEmail: string)

  /** One call. `hashed` is what bcrypt returns for the password at hand (None is its error), `matches`
      whether bcrypt accepts the password given, `id` of Register the generated identifier, and `pick`
      the row the database returns for an email. */
  datatype Op =
    | Register(id: string, profile: Profile, hashed: Option<string>)
    | GetUser(id: string)
    | UpdateUser(id: string, profile: Profile, hashed: Option<string>)
    | DeleteUser(id: string)
    | Authenticate(email: string, password: string, pick: Option<string>, matches: bool, tokenOk: bool)
    | ChangePassword(id: string, matches: bool, hashed: Option<string>)
    | BanUser(id: string, reason: string, bannedBy: string, duration: Option<int>)
    | UnbanUser(id: string)
    | UpdateSubscription(id: string, subscription: Subscription)
    | CancelSubscription(id: string, reason: string, immediate: bool)

  /** bcrypt output has bcrypt form. */
  predicate HashForm(hashed: Option<string>) {
    hashed.Some? ==> IsHashedPassword(hashed.value)
  }

  ghost predicate ValidOp(t: Table, op: Op) {
    match op
    case Register(_, _, hashed) => HashForm(hashed)
    case UpdateUser(_, _, hashed) => HashForm(hashed)
    case ChangePassword(_, _, hashed) => HashForm(hashed)
    case Authenticate(email, _, pick, _, _) => PickedByEmail(t, email, pick)
    case _ => true
  }

  // ----- the computation between read and write -----

  /** What a call has decided after its read: an error, an answer, or a write to issue and the user to
      return afterwards (None for calls that return no user). */
  datatype Attempt =
    | Refused(error: ServiceError)
    | Answered(user: UserData)
    | Writing(write: Write, reply: Option<UserData>)

  function Blank(u: UserData): UserData {
    u.(password := "")
  }

  /** The password to store: given ones that already look hashed are stored as they are. */
  function Hashed(password: string, hashed: Option<string>): Option<string> {
    if IsHashedPassword(password) then Some(password) else hashed
  }

  function Registered(id: string, p: Profile, password: string, now: Time): UserData {
    UserData(id, p.serviceEmail, p.name, password, p.email, p.phone,
             STATUS_ACTIVE, ROLE_USER, now, now, None, None, None)
  }

  function WithProfile(u: UserData, p: Profile, password: string, now: Time): UserData {
    u.(name := p.name, email := p.email, phone := p.phone, serviceEmail := p.serviceEmail,
       password := password, updatedAt := now)
  }

  function BannedUser(u: UserData, ban: BanInfo): UserData {
    u.(banInfo := Some(ban),
       status := if ban.bannedUntil.Some? then STATUS_BANNED_TEMPORARILY else STATUS_BANNED_PERMANENTLY)
  }

  function Attempted(t: Table, op: Op, now: Time): Attempt {
    match op
    case Register(id, p, hashed) =>
      if Exists(t, p.email, p.name) then Refused(AlreadyExists)
      else if Hashed(p.password, hashed).None? then Refused(Internal)
      else
        var u := Registered(id, p, Hashed(p.password, hashed).value, now);
        Writing(Create(u), Some(Blank(u)))
    case GetUser(id) =>
      if !Live(t, id) then Refused(NotFound)
      else if BanInForce(t[id].banInfo, now) then Refused(IsBannedError)
      else
        var u := ToDomain(t[id]);
        Answered(Blank(u.(banInfo := ClearedIfExpired(u.banInfo, now))))
    case UpdateUser(id, p, hashed) =>
      if !Live(t, id) then Refused(NotFound)
      else
        var replaced := p.password != "" && !IsHashedPassword(p.password);
        if replaced && hashed.None? then Refused(Internal)
        else
          var u := WithProfile(ToDomain(t[id]), p, if replaced then hashed.value else t[id].password, now);
          Writing(Update(u), Some(Blank(u)))
    case DeleteUser(id) =>
      if !Live(t, id) then Refused(NotFound)
      else Writing(Update(ToDomain(t[id]).(status := STATUS_DELETED, updatedAt := now)), None)
    case Authenticate(email, password, pick, matches, tokenOk) =>
      if pick.None? || pick.value !in t then Refused(InvalidCredentials)
      else
        var row := t[pick.value];
        if !(if IsHashedPassword(password) then row.password == password else matches) then Refused(InvalidCredentials)
        else if BanInForce(row.banInfo, now) then Refused(IsBannedError)
        else if !tokenOk then Refused(Internal)
        else
          var u := ToDomain(row).(banInfo := ClearedIfExpired(row.banInfo, now), lastLoginAt := Some(now));
          Writing(Update(u), Some(Blank(u)))
    case ChangePassword(id, matches, hashed) =>
      if !Live(t, id) then Refused(NotFound)
      else if !matches then Refused(InvalidCredentials)
      else if hashed.None? then Refused(Internal)
      else Writing(Update(ToDomain(t[id]).(password := hashed.value, updatedAt := now)), None)
    case BanUser(id, reason, bannedBy, duration) =>
      if !Live(t, id) then Refused(NotFound)
      else if IsAdminRole(t[id].role) then Refused(CannotBanAdmin)
      else
        var ban := NewBan(reason, bannedBy, duration, now);
        Writing(Ban(id, ban), Some(Blank(BannedUser(ToDomain(t[id]), ban))))
    case UnbanUser(id) =>
      if !Live(t, id) then Refused(NotFound)
      else if !BanFlag(t[id].banInfo) then Refused(NotBanned)
      else
        var lifted := t[id].banInfo.value.(isBanned := false, bannedUntil := None);
        Writing(Unban(id), Some(Blank(ToDomain(t[id]).(banInfo := Some(lifted), status := STATUS_ACTIVE))))
    case UpdateSubscription(id, s) =>
      if !Live(t, id) then Refused(NotFound)
      else Writing(SetSubscription(id, s), Some(Blank(ToDomain(t[id]).(subscription := Some(s)))))
    case CancelSubscription(id, reason, immediate) =>
      if !Live(t, id) then Refused(NotFound)
      else if t[id].subscription.None? then Refused(NoSubscription)
      else
        var s := Canceled(t[id].subscription.value, reason, immediate, now);
        Writing(SetSubscription(id, s), Some(Blank(ToDomain(t[id]).(subscription := Some(s)))))
  }

  /** What the read saw that entitles a call to its write. */
  ghost predicate Justified(t: Table, op: Op, w: Write, now: Time) {
    match w
    case Create(u) =>
      && op.Register? && u.id == op.id && u.email == op.profile.email && u.name == op.profile.name
      && !Exists(t, u.email, u.name)
      && u.status == STATUS_ACTIVE && u.role == ROLE_USER && u.banInfo.None? && u.subscription.None?
      && IsHashedPassword(u.password)
    case Update(u) =>
      && Live(t, u.id)
      && var row := t[u.id];
         && u.role == row.role && u.subscription == row.subscription
         && u.banInfo == (if op.Authenticate? then ClearedIfExpired(row.banInfo, now) else row.banInfo)
         && (op.Authenticate? ==> op.pick == Some(u.id))
         && (u.password == row.password || IsHashedPassword(u.password))
         && (if op.DeleteUser? then u.status == STATUS_DELETED else u.status == row.status)
         && (if op.UpdateUser? then u.id == op.id && u.email == op.profile.email && u.name == op.profile.name
             else u.email == row.email && u.name == row.name)
    case Ban(id, ban) =>
      && op.BanUser? && id == op.id && Live(t, id) && !IsAdminRole(t[id].role)
      && ban == NewBan(op.reason, op.bannedBy, op.duration, now)
    case Unban(id) =>
      op.UnbanUser? && id == op.id && Live(t, id) && BanFlag(t[id].banInfo)
    case SetSubscription(id, _) =>
      (op.UpdateSubscription? || op.CancelSubscription?) && id == op.id && Live(t, id)
  }

  lemma WritesAreJustified(t: Table, op: Op, now: Time)
    requires KeyedById(t) && ValidOp(t, op)
    ensures var a := Attempted(t, op, now);
            a.Writing? ==> Justified(t, op, a.write, now)
  {
    match op
    case Register(_, _, _) =>
    case GetUser(_) =>
    case UpdateUser(_, _, _) =>
    case DeleteUser(_) =>
    case Authenticate(_, _, _, _, _) =>
    case ChangePassword(_, _, _) =>
    case BanUser(_, _, _, _) =>
    case UnbanUser(_) =>
    case UpdateSubscription(_, _) =>
    case CancelSubscription(_, _, _) =>
  }

  /** A ban call answers with the status it has stored exactly when the ban is permanent: the reply of a
      temporary one says BANNED_TEMPORARILY, the row BANNED_PERMANENTLY. */
  lemma BanReplyMatchesRowIffPermanent(t: Table, id: string, reason: string, bannedBy: string,
                                       duration: Option<int>, now: Time)
    requires Live(t, id) && !IsAdminRole(t[id].role)
    ensures var a := Attempted(t, BanUser(id, reason, bannedBy, duration), now);
            a.Writing? && a.reply.Some? &&
            (a.reply.value.status == Commit(t, a.write, now).0[id].status <==> duration.None?)
  {
    EveryBanIsStoredAsPermanent(NewBan(reason, bannedBy, duration, now));
  }

  // ----- subscription history -----

  /** The generated `_id` of a history entry has one-second resolution. */
  const SECOND := 1_000_000_000

  function Stamp(now: Time): int {
    now / SECOND
  }

  datatype HistoryEntry = HistoryEntry(
    stamp: int, userId: string, oldLevel: string, newLevel: string, oldStatus: string, newStatus: string)

  /** InsertOne into a collection whose `_id` is unique; a failure is only a warning to the service. */
  function Inserted(history: seq<HistoryEntry>, e: HistoryEntry, io: bool): seq<HistoryEntry> {
    if io && forall i | 0 <= i < |history| :: history[i].stamp != e.stamp then history + [e] else history
  }

  function EntryFor(userId: string, before: Option<Subscription>, s: Subscription, now: Time): HistoryEntry {
    HistoryEntry(Stamp(now), userId, SubLevel(before), s.level, SubStatus(before), s.status)
  }

  // ----- a whole call -----

  /** What the environment does to one call: the clock, and whether the database answers the read, the
      write, and the history collection the insert. */
  datatype Env = Env(now: Time, readOk: bool, writeOk: bool, logOk: bool)

  datatype Outcome = Outcome(rows: Table, history: seq<HistoryEntry>, reply: Result<Option<UserData>, ServiceError>)

  function AsServiceError(e: StoreError): ServiceError {
    match e
    case UserNotFound => NotFound
    case UserAlreadyExists => AlreadyExists
    case StoreFailure => Internal
  }

  /** The history after the subscription of row `id` has been written. */
  function Logged(t: Table, history: seq<HistoryEntry>, w: Write, env: Env): seq<HistoryEntry> {
    if w.SetSubscription? && w.id in t
    then Inserted(history, EntryFor(w.id, t[w.id].subscription, w.subscription, env.now), env.logOk)
    else history
  }

  /** The write of a call and what follows it. Authenticate alone survives a failed write. */
  function Finished(t: Table, history: seq<HistoryEntry>, w: Write, reply: Option<UserData>, lenient: bool,
                    env: Env): Outcome {
    if !env.writeOk then
      Outcome(t, history, if lenient then Success(reply) else Failure(Internal))
    else
      var (t', error) := Commit(t, w, env.now);
      if error.None? || lenient then Outcome(t', Logged(t, history, w, env), Success(reply))
      else Outcome(t', history, Failure(AsServiceError(error.value)))
  }

  function Served(t: Table, history: seq<HistoryEntry>, op: Op, env: Env): Outcome {
    if !env.readOk then
      Outcome(t, history, Failure(if op.Authenticate? then InvalidCredentials else Internal))
    else
      match Attempted(t, op, env.now)
      case Refused(e) => Outcome(t, history, Failure(e))
      case Answered(u) => Outcome(t, history, Success(Some(u)))
      case Writing(w, reply) => Finished(t, history, w, reply, op.Authenticate?, env)
  }

  // ----- the service itself -----

  class AuditRepository {
    var history: seq<HistoryEntry>

    constructor ()
      ensures history == []
    {
      history := [];
    }

    method LogSubscriptionChange(e: HistoryEntry, io: bool)
      modifies this
      ensures history == Inserted(old(history), e, io)
    {
      if io && forall i | 0 <= i < |history| :: history[i].stamp != e.stamp {
        history := history + [e];
      }
    }
  }

  /** The user object a call returns carries exactly the predicted reply. */
  ghost predicate Reports(r: Result<User, ServiceError>, o: Result<Option<UserData>, ServiceError>)
    reads if r.Success? then {r.value} else {}
  {
    match r
    case Failure(e) => o == Failure(e)
    case Success(user) => o == Success(Some(user.View()))
  }

  class Service {
    const repo: UserRepository
    const audit: AuditRepository

    constructor (repo: UserRepository, audit: AuditRepository)
      ensures this.repo == repo && this.audit == audit
    {
      this.repo, this.audit := repo, audit;
    }

    /** Writes the user back, then blanks the password of the same object for the caller. */
    method SaveAndBlank(user: User, env: Env) returns (r: Result<User, ServiceError>)
      modifies repo, user
      ensures var u := old(user.View());
              var o := Finished(old(repo.rows), audit.history, Update(u), Some(Blank(u)), false, env);
              repo.rows == o.rows && audit.history == o.history && Reports(r, o.reply)
      ensures r.Success? ==> r.value == user
    {
      var error := repo.UpdateUser(user, env.writeOk);
      if error.Some? {
        return Failure(AsServiceError(error.value));
      }
      user.BlankPassword();
      r := Success(user);
    }

    method CreateAndBlank(user: User, env: Env) returns (r: Result<User, ServiceError>)
      modifies repo, user
      ensures var u := old(user.View());
              var o := Finished(old(repo.rows), audit.history, Create(u), Some(Blank(u)), false, env);
              repo.rows == o.rows && audit.history == o.history && Reports(r, o.reply)
      ensures r.Success? ==> r.value == user
    {
      var error := repo.CreateUser(user, user.id, env.writeOk);
      if error.Some? {
        return Failure(AsServiceError(error.value));
      }
      user.BlankPassword();
      r := Success(user);
    }

    /** The login time is written on a best-effort basis. */
    method RecordLogin(user: User, env: Env)
      modifies repo, user
      ensures var u := old(user.View()).(lastLoginAt := Some(env.now));
              var o := Finished(old(repo.rows), audit.history, Update(u), Some(Blank(u)), true, env);
              && repo.rows == o.rows && audit.history == o.history
              && o.reply == Success(Some(Blank(u))) && user.View() == Blank(u)
    {
      user.lastLoginAt := Some(env.now);
      var ignored := repo.UpdateUser(user, env.writeOk);
      user.BlankPassword();
    }

    method Register(id: string, p: Profile, hashed: Option<string>, env: Env) returns (r: Result<User, ServiceError>)
      modifies repo
      ensures var o := Served(old(repo.rows), old(audit.history), Op.Register(id, p, hashed), env);
              repo.rows == o.rows && audit.history == o.history && Reports(r, o.reply)
      ensures r.Success? ==> fresh(r.value)
    {
      if !env.readOk {
        return Failure(Internal);
      }
      if Exists(repo.rows, p.email, p.name) {
        return Failure(AlreadyExists);
      }
      var password := p.password;
      if !IsHashedPassword(password) {
        if hashed.None? {
          return Failure(Internal);
        }
        password := hashed.value;
      }
      var user := new User(Registered(id, p, password, env.now));
      r := CreateAndBlank(user, env);
    }

    method GetUser(id: string, env: Env) returns (r: Result<User, ServiceError>)
      ensures var o := Served(repo.rows, audit.history, Op.GetUser(id), env);
              repo.rows == o.rows && audit.history == o.history && Reports(r, o.reply)
      ensures r.Success? ==> fresh(r.value)
    {
      var found := repo.FindByID(id, env.readOk);
      if found.Failure? {
        return Failure(AsServiceError(found.error));
      }
      var user := found.value;
      var banned := user.IsBanned(env.now);
      if banned {
        return Failure(IsBannedError);
      }
      user.BlankPassword();
      r := Success(user);
    }

    method UpdateUser(id: string, p: Profile, hashed: Option<string>, env: Env) returns (r: Result<User, ServiceError>)
      modifies repo
      ensures var o := Served(old(repo.rows), old(audit.history), Op.UpdateUser(id, p, hashed), env);
              repo.rows == o.rows && audit.history == o.history && Reports(r, o.reply)
      ensures r.Success? ==> fresh(r.value)
    {
      var found := repo.FindByID(id, env.readOk);
      if found.Failure? {
        return Failure(AsServiceError(found.error));
      }
      var user := found.value;
      user.SetProfile(p.name, p.email, p.phone, p.serviceEmail, env.now);
      if p.password != "" && !IsHashedPassword(p.password) {
        if hashed.None? {
          return Failure(Internal);
        }
        user.password := hashed.value;
      }
      r := SaveAndBlank(user, env);
    }

    method DeleteUser(id: string, env: Env) returns (error: Option<ServiceError>)
      modifies repo
      ensures var o := Served(old(repo.rows), old(audit.history), Op.DeleteUser(id), env);
              repo.rows == o.rows && audit.history == o.history && ReportsError(error, o.reply)
    {
      var found := repo.FindByID(id, env.readOk);
      if found.Failure? {
        return Some(AsServiceError(found.error));
      }
      var user := found.value;
      user.SetStatus(STATUS_DELETED, env.now);
      var failed := repo.UpdateUser(user, env.writeOk);
      error := if failed.Some? then Some(AsServiceError(failed.value)) else None;
    }

    /** The password comparison: a password that already looks hashed is compared as text. */
    method Authenticate(email: string, password: string, matches: bool, tokenOk: bool, env: Env)
      returns (r: Result<User, ServiceError>, ghost pick: Option<string>)
      modifies repo
      ensures PickedByEmail(old(repo.rows), email, pick)
      ensures var o := Served(old(repo.rows), old(audit.history),
                              Op.Authenticate(email, password, pick, matches, tokenOk), env);
              repo.rows == o.rows && audit.history == o.history && Reports(r, o.reply)
      ensures r.Success? ==> fresh(r.value)
    {
      var found;
      found, pick := repo.FindByEmail(email, env.readOk);
      if found.Failure? {
        return Failure(InvalidCredentials), pick;
      }
      var user := found.value;
      if !(if IsHashedPassword(password) then user.password == password else matches) {
        return Failure(InvalidCredentials), pick;
      }
      var banned := user.IsBanned(env.now);
      if banned {
        return Failure(IsBannedError), pick;
      }
      if !tokenOk {
        return Failure(Internal), pick;
      }
      RecordLogin(user, env);
      r := Success(user);
    }

    method ChangePassword(id: string, matches: bool, hashed: Option<string>, env: Env)
      returns (error: Option<ServiceError>)
      modifies repo
      ensures var o := Served(old(repo.rows), old(audit.history), Op.ChangePassword(id, matches, hashed), env);
              repo.rows == o.rows && audit.history == o.history && ReportsError(error, o.reply)
    {
      var found := repo.FindByID(id, env.readOk);
      if found.Failure? {
        return Some(AsServiceError(found.error));
      }
      var user := found.value;
      if !matches {
        return Some(InvalidCredentials);
      }
      if hashed.None? {
        return Some(Internal);
      }
      user.SetPassword(hashed.value, env.now);
      var failed := repo.UpdateUser(user, env.writeOk);
      error := if failed.Some? then Some(AsServiceError(failed.value)) else None;
    }

    method BanUser(id: string, reason: string, bannedBy: string, duration: Option<int>, env: Env)
      returns (r: Result<User, ServiceError>)
      modifies repo
      ensures var o := Served(old(repo.rows), old(audit.history), Op.BanUser(id, reason, bannedBy, duration), env);
              repo.rows == o.rows && audit.history == o.history && Reports(r, o.reply)
      ensures r.Success? ==> fresh(r.value)
    {
      var found := repo.FindByID(id, env.readOk);
      if found.Failure? {
        return Failure(AsServiceError(found.error));
      }
      var user := found.value;
      if user.IsAdmin() {
        return Failure(CannotBanAdmin);
      }
      var ban := NewBan(reason, bannedBy, duration, env.now);
      user.SetBan(ban, if duration.Some? then STATUS_BANNED_TEMPORARILY else STATUS_BANNED_PERMANENTLY);
      var failed := repo.BanUser(id, ban, env.now, env.writeOk);
      if failed.Some? {
        return Failure(AsServiceError(failed.value));
      }
      user.BlankPassword();
      r := Success(user);
    }

    method UnbanUser(id: string, env: Env) returns (r: Result<User, ServiceError>)
      modifies repo
      ensures var o := Served(old(repo.rows), old(audit.history), Op.UnbanUser(id), env);
              repo.rows == o.rows && audit.history == o.history && Reports(r, o.reply)
      ensures r.Success? ==> fresh(r.value)
    {
      var found := repo.FindByID(id, env.readOk);
      if found.Failure? {
        return Failure(AsServiceError(found.error));
      }
      var user := found.value;
      if user.banInfo.None? || !user.banInfo.value.isBanned {
        return Failure(NotBanned);
      }
      user.SetBan(user.banInfo.value.(isBanned := false, bannedUntil := None), STATUS_ACTIVE);
      var failed := repo.UnbanUser(id, env.now, env.writeOk);
      if failed.Some? {
        return Failure(AsServiceError(failed.value));
      }
      user.BlankPassword();
      r := Success(user);
    }

    method UpdateSubscription(id: string, s: Subscription, env: Env) returns (r: Result<User, ServiceError>)
      modifies repo, audit
      ensures var o := Served(old(repo.rows), old(audit.history), Op.UpdateSubscription(id, s), env);
              repo.rows == o.rows && audit.history == o.history && Reports(r, o.reply)
      ensures r.Success? ==> fresh(r.value)
    {
      var found := repo.FindByID(id, env.readOk);
      if found.Failure? {
        return Failure(AsServiceError(found.error));
      }
      var user := found.value;
      var entry := EntryFor(id, user.subscription, s, env.now);
      user.SetSubscription(s);
      var failed := repo.UpdateSubscription(id, s, env.now, env.writeOk);
      if failed.Some? {
        return Failure(AsServiceError(failed.value));
      }
      audit.LogSubscriptionChange(entry, env.logOk);
      user.BlankPassword();
      r := Success(user);
    }

    method CancelSubscription(id: string, reason: string, immediate: bool, env: Env)
      returns (r: Result<User, ServiceError>)
      modifies repo, audit
      ensures var o := Served(old(repo.rows), old(audit.history), Op.CancelSubscription(id, reason, immediate), env);
              repo.rows == o.rows && audit.history == o.history && Reports(r, o.reply)
      ensures r.Success? ==> fresh(r.value)
    {
      var found := repo.FindByID(id, env.readOk);
      if found.Failure? {
        return Failure(AsServiceError(found.error));
      }
      var user := found.value;
      if user.subscription.None? {
        return Failure(NoSubscription);
      }
      var s := Canceled(user.subscription.value, reason, immediate, env.now);
      var entry := EntryFor(id, user.subscription, s, env.now);
      user.SetSubscription(s);
      var failed := repo.UpdateSubscription(id, s, env.now, env.writeOk);
      if failed.Some? {
        return Failure(AsServiceError(failed.value));
      }
      audit.LogSubscriptionChange(entry, env.logOk);
      user.BlankPassword();
      r := Success(user);
    }
  }

  ghost predicate ReportsError(error: Option<ServiceError>, o: Result<Option<UserData>, ServiceError>) {
    match error
    case None => o == Success(None)
    case Some(e) => o == Failure(e)
  }
}
