/** What each call of the service does, said on the columns of the row it finds and on the call's own fields:
    when it succeeds, what it leaves in the table and in the history, and what it hands back. */
module CallLaws {
  import opened Base
  import opened Domain
  import opened UserStore
  import opened UserService

  /** A failed call leaves no trace. */
  lemma FailedCallsChangeNothing(t: Table, history: seq<HistoryEntry>, op: Op, env: Env)
    requires KeyedById(t) && ValidOp(t, op) && Served(t, history, op, env).reply.Failure?
    ensures Served(t, history, op, env).rows == t && Served(t, history, op, env).history == history
  {
    WritesAreJustified(t, op, env.now);
  }

  /** A database that does not answer is an internal error, on the write to the calls that would have
      succeeded; to a login it is a refusal on the read and nothing on the write. */
  lemma SilentDatabase(t: Table, history: seq<HistoryEntry>, op: Op, env: Env)
    ensures var reply := Served(t, history, op, env).reply;
            && (!env.readOk ==> reply == Failure(if op.Authenticate? then InvalidCredentials else Internal))
            && (!env.writeOk && !op.GetUser? && !op.Authenticate? ==>
                  Served(t, history, op, env.(writeOk := true)).reply.Success? ==> reply == Failure(Internal))
  {
  }

  /** Sixty characters beginning `$2a$`, `$2b$`, `$2x$` or `$2y$`. */
  lemma HashFormIs(p: string)
    ensures IsHashedPassword(p) <==>
            |p| == 60 && p[0] == '$' && p[1] == '2' && p[2] in ['a', 'b', 'x', 'y'] && p[3] == '$'
  {
    if |p| == 60 {
      assert p[..4] == [p[0], p[1], p[2], p[3]];
    }
  }

  /** Two moments share a history id exactly when they lie in one whole second. */
  lemma SameStampIff(a: Time, b: Time)
    ensures Stamp(a) == Stamp(b) <==>
            exists second: int :: second * 1_000_000_000 <= a < (second + 1) * 1_000_000_000
                                  && second * 1_000_000_000 <= b < (second + 1) * 1_000_000_000
  {
    if Stamp(a) == Stamp(b) {
      assert Stamp(a) * 1_000_000_000 <= a < (Stamp(a) + 1) * 1_000_000_000;
    }
  }

  // ----- registration and lookup -----

  ghost predicate Taken(t: Table, email: string, name: string) {
    exists id | id in t :: t[id].status != STATUS_DELETED && (t[id].email == email || t[id].name == name)
  }

  predicate CanStore(password: string, hashed: Option<string>) {
    IsHashedPassword(password) || hashed.Some?
  }

  function FreshRow(id: string, p: Profile, hashed: Option<string>, now: Time): Row
    requires CanStore(p.password, hashed)
  {
    Row(id := id, serviceEmail := p.serviceEmail, name := p.name,
        password := if IsHashedPassword(p.password) then p.password else hashed.value,
        email := p.email, phone := p.phone, status := "ACTIVE", role := "USER",
        createdAt := now, updatedAt := now, lastLoginAt := None, banInfo := None, subscription := None,
        isBanned := false, subscriptionStatus := "", subscriptionLevel := "", subscriptionEnd := None)
  }

  /** Registration succeeds exactly when the database answers, no live row has the email or the name, the
      password can be stored and the id is new; then the table has one more row. */
  lemma RegisterLaw(t: Table, history: seq<HistoryEntry>, id: string, p: Profile, hashed: Option<string>, env: Env)
    ensures var o := Served(t, history, Op.Register(id, p, hashed), env);
            && (o.reply.Success? <==>
                  env.readOk && env.writeOk && !Taken(t, p.email, p.name) && CanStore(p.password, hashed) && id !in t)
            && (o.reply.Success? ==>
                  && o.rows == t[id := FreshRow(id, p, hashed, env.now)]
                  && o.reply.value == Some(ToDomain(FreshRow(id, p, hashed, env.now)).(password := "")))
            && (env.readOk && Taken(t, p.email, p.name) ==> o.reply == Failure(AlreadyExists))
            && (env.readOk && !Taken(t, p.email, p.name) && !CanStore(p.password, hashed) ==>
                  o.reply == Failure(Internal))
            && (env.readOk && !Taken(t, p.email, p.name) && CanStore(p.password, hashed) && env.writeOk && id in t ==>
                  o.reply == Failure(AlreadyExists))
            && o.history == history
  {
    assert Taken(t, p.email, p.name) <==> Exists(t, p.email, p.name);
  }

  /** A lookup succeeds exactly on a live user no ban of whom is in force; it shows the row without its
      password and with an expired ban cleared, and changes nothing. */
  lemma GetUserLaw(t: Table, history: seq<HistoryEntry>, id: string, env: Env)
    ensures var o := Served(t, history, Op.GetUser(id), env);
            && (o.reply.Success? <==> env.readOk && Live(t, id) && !BanInForce(t[id].banInfo, env.now))
            && (o.reply.Success? ==>
                  o.reply.value ==
                  Some(ToDomain(t[id]).(password := "", banInfo := ClearedIfExpired(t[id].banInfo, env.now))))
            && (env.readOk && !Live(t, id) ==> o.reply == Failure(NotFound))
            && (env.readOk && Live(t, id) && BanInForce(t[id].banInfo, env.now) ==> o.reply == Failure(IsBannedError))
            && o.rows == t && o.history == history
  {
  }

  // ----- login -----

  /** The password fits the row: as text if it looks hashed, by bcrypt otherwise. */
  predicate Accepted(row: Row, password: string, matches: bool) {
    (IsHashedPassword(password) && row.password == password) || (!IsHashedPassword(password) && matches)
  }

  /** A login succeeds exactly when the read answers, a live row of that email was picked, the password fits
      it, no ban is in force and the token is made. Whether the write succeeds makes no difference. */
  lemma LoginSucceedsIff(t: Table, history: seq<HistoryEntry>, email: string, password: string, pick: Option<string>,
                         matches: bool, tokenOk: bool, env: Env)
    requires PickedByEmail(t, email, pick)
    ensures Served(t, history, Op.Authenticate(email, password, pick, matches, tokenOk), env).reply.Success? <==>
            && env.readOk && tokenOk
            && pick.Some? && Live(t, pick.value) && t[pick.value].email == email
            && Accepted(t[pick.value], password, matches)
            && !BanInForce(t[pick.value].banInfo, env.now)
  {
  }

  /** A refused login says why, in this order, and leaves table and history as they were. */
  lemma LoginRefused(t: Table, history: seq<HistoryEntry>, email: string, password: string, pick: Option<string>,
                     matches: bool, tokenOk: bool, env: Env)
    requires PickedByEmail(t, email, pick)
    ensures var o := Served(t, history, Op.Authenticate(email, password, pick, matches, tokenOk), env);
            && (!env.readOk || pick.None? ==> o.reply == Failure(InvalidCredentials))
            && (pick.Some? && !Accepted(t[pick.value], password, matches) ==> o.reply == Failure(InvalidCredentials))
            && (env.readOk && pick.Some? && Accepted(t[pick.value], password, matches) ==>
                  && (o.reply == Failure(IsBannedError) <==> BanInForce(t[pick.value].banInfo, env.now))
                  && (!BanInForce(t[pick.value].banInfo, env.now) && !tokenOk ==> o.reply == Failure(Internal)))
            && (o.reply.Failure? ==> o.rows == t && o.history == history)
  {
  }

  /** A successful login stamps the login time and clears an expired ban, in the row if the write goes through,
      and in the reply in any case. */
  lemma LoginLaw(t: Table, history: seq<HistoryEntry>, email: string, password: string, pick: Option<string>,
                 matches: bool, tokenOk: bool, env: Env)
    requires KeyedById(t) && TableCoherent(t) && PickedByEmail(t, email, pick)
    ensures var o := Served(t, history, Op.Authenticate(email, password, pick, matches, tokenOk), env);
            o.reply.Success? ==>
              && pick.Some? && pick.value in t
              && var row := t[pick.value].(lastLoginAt := Some(env.now), isBanned := false,
                                           banInfo := ClearedIfExpired(t[pick.value].banInfo, env.now));
                 && o.rows == (if env.writeOk then t[pick.value := row] else t)
                 && o.reply.value == Some(ToDomain(row).(password := ""))
                 && o.history == history
  {
    if pick.Some? && pick.value in t {
      LoadStoreIsIdentityIffCoherent(t[pick.value]);
    }
  }

  // ----- profile, deletion, password -----

  lemma UpdateUserLaw(t: Table, history: seq<HistoryEntry>, id: string, p: Profile, hashed: Option<string>, env: Env)
    requires KeyedById(t) && TableCoherent(t)
    ensures var o := Served(t, history, Op.UpdateUser(id, p, hashed), env);
            && (o.reply.Success? <==>
                  env.readOk && env.writeOk && Live(t, id) && (p.password == "" || CanStore(p.password, hashed)))
            && (o.reply.Success? ==>
                  var kept := p.password == "" || IsHashedPassword(p.password);
                  var row := t[id].(name := p.name, email := p.email, phone := p.phone, serviceEmail := p.serviceEmail,
                                    password := if kept then t[id].password else hashed.value, updatedAt := env.now);
                  o.rows == t[id := row] && o.reply.value == Some(ToDomain(row).(password := "")))
            && (env.readOk && !Live(t, id) ==> o.reply == Failure(NotFound))
            && (env.readOk && Live(t, id) && p.password != "" && !CanStore(p.password, hashed) ==>
                  o.reply == Failure(Internal))
            && o.history == history
  {
    if id in t {
      LoadStoreIsIdentityIffCoherent(t[id]);
    }
  }

  lemma DeleteUserLaw(t: Table, history: seq<HistoryEntry>, id: string, env: Env)
    requires KeyedById(t) && TableCoherent(t)
    ensures var o := Served(t, history, Op.DeleteUser(id), env);
            && (o.reply.Success? <==> env.readOk && env.writeOk && Live(t, id))
            && (o.reply.Success? ==>
                  o.rows == t[id := t[id].(status := "DELETED", updatedAt := env.now)] && o.reply.value.None?)
            && (env.readOk && !Live(t, id) ==> o.reply == Failure(NotFound))
            && o.history == history
  {
    if id in t {
      LoadStoreIsIdentityIffCoherent(t[id]);
    }
  }

  /** A password changes exactly when the current one matches and the new one can be hashed, and then to that
      hash; the row's other columns but the update time stay. */
  lemma ChangePasswordLaw(t: Table, history: seq<HistoryEntry>, id: string, matches: bool, hashed: Option<string>,
                          env: Env)
    requires KeyedById(t) && TableCoherent(t)
    ensures var o := Served(t, history, Op.ChangePassword(id, matches, hashed), env);
            && (o.reply.Success? <==> env.readOk && env.writeOk && Live(t, id) && matches && hashed.Some?)
            && (o.reply.Success? ==>
                  && o.rows == t[id := t[id].(password := hashed.value, updatedAt := env.now)]
                  && o.reply.value.None?)
            && (env.readOk && !Live(t, id) ==> o.reply == Failure(NotFound))
            && (env.readOk && Live(t, id) && !matches ==> o.reply == Failure(InvalidCredentials))
            && (env.readOk && Live(t, id) && matches && hashed.None? ==> o.reply == Failure(Internal))
            && o.history == history
  {
    if id in t {
      LoadStoreIsIdentityIffCoherent(t[id]);
    }
  }

  // ----- bans -----

  /** A ban goes to every live user who is no moderator, administrator or super-administrator; it starts now,
      ends after the duration given, if any, and carries the reason and the issuer. */
  lemma BanUserLaw(t: Table, history: seq<HistoryEntry>, id: string, reason: string, bannedBy: string,
                   duration: Option<int>, env: Env)
    ensures var o := Served(t, history, Op.BanUser(id, reason, bannedBy, duration), env);
            && (o.reply.Success? <==>
                  env.readOk && env.writeOk && Live(t, id) && t[id].role !in ["MODERATOR", "ADMIN", "SUPER_ADMIN"])
            && (o.reply.Success? ==>
                  var until := if duration.Some? then Some(env.now + duration.value) else None;
                  var ban := BanInfo(isBanned := true, bannedAt := env.now, bannedUntil := until,
                                     reason := reason, bannedBy := bannedBy);
                  && o.rows == t[id := t[id].(banInfo := Some(ban), isBanned := true, status := "BANNED_PERMANENTLY",
                                              updatedAt := env.now)]
                  && o.reply.value ==
                     Some(ToDomain(t[id]).(
                       password := "", banInfo := Some(ban),
                       status := if duration.Some? then "BANNED_TEMPORARILY" else "BANNED_PERMANENTLY")))
            && (env.readOk && !Live(t, id) ==> o.reply == Failure(NotFound))
            && (env.readOk && Live(t, id) && t[id].role in ["MODERATOR", "ADMIN", "SUPER_ADMIN"] ==>
                  o.reply == Failure(CannotBanAdmin))
            && o.history == history
  {
    if Live(t, id) {
      EveryBanIsStoredAsPermanent(NewBan(reason, bannedBy, duration, env.now));
    }
  }

  /** An unban goes to every live user whose stored flag is set, expired or not, and leaves no ban. */
  lemma UnbanUserLaw(t: Table, history: seq<HistoryEntry>, id: string, env: Env)
    ensures var o := Served(t, history, Op.UnbanUser(id), env);
            && (o.reply.Success? <==> env.readOk && env.writeOk && Live(t, id) && BanFlag(t[id].banInfo))
            && (o.reply.Success? ==>
                  && o.rows == t[id := t[id].(banInfo := None, isBanned := false, status := "ACTIVE",
                                              updatedAt := env.now)]
                  && o.reply.value ==
                     Some(ToDomain(t[id]).(
                       password := "", status := "ACTIVE",
                       banInfo := Some(t[id].banInfo.value.(isBanned := false, bannedUntil := None)))))
            && (env.readOk && !Live(t, id) ==> o.reply == Failure(NotFound))
            && (env.readOk && Live(t, id) && !BanFlag(t[id].banInfo) ==> o.reply == Failure(NotBanned))
            && o.history == history
  {
  }

  // ----- subscriptions -----

  function Subscribed(row: Row, s: Subscription, now: Time): Row {
    row.(subscription := Some(s), subscriptionStatus := s.status, subscriptionLevel := s.level,
         subscriptionEnd := s.end, updatedAt := now)
  }

  /** The history after a stored subscription of `row` has become `s`: one more entry, from the row's level and
      status to those of `s`, unless the collection is silent or holds an entry of the same second. */
  ghost predicate Recorded(before: seq<HistoryEntry>, after: seq<HistoryEntry>, row: Row, id: string, s: Subscription,
                           env: Env) {
    var lost := !env.logOk || exists i :: 0 <= i < |before| && before[i].stamp == Stamp(env.now);
    var had := row.subscription;
    after ==
      if lost then before
      else before + [HistoryEntry(stamp := Stamp(env.now), userId := id,
                                  oldLevel := if had.Some? then had.value.level else "", newLevel := s.level,
                                  oldStatus := if had.Some? then had.value.status else "", newStatus := s.status)]
  }

  lemma UpdateSubscriptionLaw(t: Table, history: seq<HistoryEntry>, id: string, s: Subscription, env: Env)
    ensures var o := Served(t, history, Op.UpdateSubscription(id, s), env);
            && (o.reply.Success? <==> env.readOk && env.writeOk && Live(t, id))
            && (o.reply.Success? ==>
                  && o.rows == t[id := Subscribed(t[id], s, env.now)]
                  && Recorded(history, o.history, t[id], id, s, env)
                  && o.reply.value == Some(ToDomain(t[id]).(password := "", subscription := Some(s))))
            && (env.readOk && !Live(t, id) ==> o.reply == Failure(NotFound))
  {
  }

  /** A cancellation keeps level and start; it ends the subscription now if immediate and else leaves the end. */
  lemma CancelSubscriptionLaw(t: Table, history: seq<HistoryEntry>, id: string, reason: string, immediate: bool,
                              env: Env)
    ensures var o := Served(t, history, Op.CancelSubscription(id, reason, immediate), env);
            && (o.reply.Success? <==> env.readOk && env.writeOk && Live(t, id) && t[id].subscription.Some?)
            && (o.reply.Success? ==>
                  var had := t[id].subscription.value;
                  var s := Subscription(status := "CANCELED", level := had.level, start := had.start,
                                        end := if immediate then Some(env.now) else had.end, autoRenew := false,
                                        canceledAt := Some(env.now), cancelReason := reason);
                  && o.rows == t[id := Subscribed(t[id], s, env.now)]
                  && Recorded(history, o.history, t[id], id, s, env)
                  && o.reply.value == Some(ToDomain(t[id]).(password := "", subscription := Some(s))))
            && (env.readOk && !Live(t, id) ==> o.reply == Failure(NotFound))
            && (env.readOk && Live(t, id) && t[id].subscription.None? ==> o.reply == Failure(NoSubscription))
  {
  }
}
