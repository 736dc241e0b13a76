/** Sequential runs of the service: one call after another under a clock that never goes back. */
module Runs {
  import opened Base
  import opened Domain
  import opened UserStore
  import opened UserService
  import opened CallLaws
  import ListQuery
  import Ilike

  /** A successful ban or unban. */
  datatype BanEvent = Banned(userId: string, ban: BanInfo) | Unbanned(userId: string)

  datatype Call = Call(op: Op, env: Env)

  /** `events` is a record of the run, not stored anywhere. */
  datatype State = State(rows: Table, history: seq<HistoryEntry>, events: seq<BanEvent>)

  const EMPTY := State(map[], [], [])

  function OutcomeOf(s: State, c: Call): Outcome {
    Served(s.rows, s.history, c.op, c.env)
  }

  /** The statement a call gets committed, if any. */
  function Committed(s: State, c: Call): (r: Option<Write>)
    ensures r.Some? ==> OutcomeOf(s, c).reply.Success?
  {
    if !c.env.readOk || !c.env.writeOk then None
    else
      match Attempted(s.rows, c.op, c.env.now)
      case Writing(w, _) => if Commit(s.rows, w, c.env.now).1.None? then Some(w) else None
      case _ => None
  }

  function EventsOf(s: State, c: Call): seq<BanEvent> {
    match Committed(s, c)
    case Some(Ban(id, ban)) => [Banned(id, ban)]
    case Some(Unban(id)) => [Unbanned(id)]
    case _ => []
  }

  function Next(s: State, c: Call): State {
    var o := OutcomeOf(s, c);
    State(o.rows, o.history, s.events + EventsOf(s, c))
  }

  function Run(s: State, calls: seq<Call>): State
    decreases |calls|
  {
    if calls == [] then s else Run(Next(s, calls[0]), calls[1..])
  }

  /** Every call is one the environment can produce, and the clock starts at `clock` and never goes back. */
  ghost predicate ValidRun(s: State, calls: seq<Call>, clock: Time)
    decreases |calls|
  {
    calls == [] ||
    (ValidOp(s.rows, calls[0].op) && clock <= calls[0].env.now
     && ValidRun(Next(s, calls[0]), calls[1..], calls[0].env.now))
  }

  function EndTime(calls: seq<Call>, clock: Time): Time {
    if calls == [] then clock else calls[|calls| - 1].env.now
  }

  /** A call changes the table by its committed statement alone, and that statement is justified by the
      state the call found. */
  lemma NextIsCommit(s: State, c: Call)
    requires KeyedById(s.rows) && ValidOp(s.rows, c.op)
    ensures var w := Committed(s, c);
            if w.Some? then
              && Justified(s.rows, c.op, w.value, c.env.now)
              && Next(s, c).rows == Commit(s.rows, w.value, c.env.now).0
              && Next(s, c).history == Logged(s.rows, s.history, w.value, c.env)
            else Next(s, c).rows == s.rows && Next(s, c).history == s.history
    ensures KeyedById(Next(s, c).rows)
  {
    WritesAreJustified(s.rows, c.op, c.env.now);
    if Committed(s, c).Some? {
      CommitKeepsKeys(s.rows, Committed(s, c).value, c.env.now);
    }
  }

  // ----- bans -----

  function LastEvent(events: seq<BanEvent>, id: string): Option<BanEvent> {
    if events == [] then None
    else if events[|events| - 1].userId == id then Some(events[|events| - 1])
    else LastEvent(events[..|events| - 1], id)
  }

  /** The simple reading of a ban: the last event is a ban, and it is permanent or not past its end. */
  predicate BannedByEvents(events: seq<BanEvent>, id: string, now: Time) {
    match LastEvent(events, id)
    case Some(Banned(_, ban)) => ban.bannedUntil.Some? ==> now <= ban.bannedUntil.value
    case _ => false
  }

  /** The stored ban is that of the last event, whole or with its flag cleared after its end; without a ban, or
      after an unban, there is none. */
  predicate FlagAgrees(stored: Option<BanInfo>, last: Option<BanEvent>, now: Time) {
    match last
    case Some(Banned(_, ban)) =>
      ban.isBanned &&
      (stored == Some(ban) ||
       (stored == Some(ban.(isBanned := false)) && ban.bannedUntil.Some? && ban.bannedUntil.value < now))
    case _ => stored.None?
  }

  ghost predicate BansAgree(s: State, now: Time) {
    && KeyedById(s.rows)
    && (forall id | id in s.rows :: FlagAgrees(s.rows[id].banInfo, LastEvent(s.events, id), now))
    && (forall id | id !in s.rows :: LastEvent(s.events, id).None?)
  }

  lemma LastEventAppend(events: seq<BanEvent>, e: BanEvent, id: string)
    ensures LastEvent(events + [e], id) == if e.userId == id then Some(e) else LastEvent(events, id)
  {
    assert (events + [e])[..|events|] == events;
  }

  lemma BansAgreeStep(s: State, c: Call, clock: Time)
    requires BansAgree(s, clock)
    requires ValidOp(s.rows, c.op) && clock <= c.env.now
    ensures BansAgree(Next(s, c), c.env.now)
  {
    NextIsCommit(s, c);
    BansAgreeCommit(s, Next(s, c), Committed(s, c), c, clock);
  }

  function EventOf(w: Option<Write>): Option<BanEvent> {
    match w
    case Some(Ban(id, ban)) => Some(Banned(id, ban))
    case Some(Unban(id)) => Some(Unbanned(id))
    case _ => None
  }

  lemma BansAgreeCommit(s: State, s': State, w: Option<Write>, c: Call, clock: Time)
    requires BansAgree(s, clock) && clock <= c.env.now && KeyedById(s'.rows)
    requires w.Some? ==> Justified(s.rows, c.op, w.value, c.env.now) && s'.rows == Commit(s.rows, w.value, c.env.now).0
    requires w.None? ==> s'.rows == s.rows
    requires s'.events == s.events + (if EventOf(w).Some? then [EventOf(w).value] else [])
    ensures BansAgree(s', c.env.now)
  {
    forall id
      ensures id in s'.rows ==> FlagAgrees(s'.rows[id].banInfo, LastEvent(s'.events, id), c.env.now)
      ensures id !in s'.rows ==> LastEvent(s'.events, id).None?
    {
      if EventOf(w).Some? {
        LastEventAppend(s.events, EventOf(w).value, id);
      } else {
        assert s'.events == s.events;
      }
      if w.Some? {
        CommitAgrees(s.rows, c.op, w.value, c.env.now, clock, LastEvent(s.events, id), id);
      }
    }
  }

  /** One row under one write: its stored ban agrees with its last event before and after. */
  lemma CommitAgrees(t: Table, op: Op, w: Write, now: Time, clock: Time, last: Option<BanEvent>, id: string)
    requires KeyedById(t) && Justified(t, op, w, now) && clock <= now
    requires if id in t then FlagAgrees(t[id].banInfo, last, clock) else last.None?
    ensures var t', e := Commit(t, w, now).0, EventOf(Some(w));
            var last' := if e.Some? && e.value.userId == id then e else last;
            if id in t' then FlagAgrees(t'[id].banInfo, last', now) else last'.None?
  {
  }

  /** The events recorded are exactly the ban and unban calls that returned success, and a ban is the one the
      call asked for: from its moment on, for the duration given, with its reason and issuer. */
  lemma EventsAreSuccessfulCalls(s: State, c: Call)
    requires KeyedById(s.rows) && ValidOp(s.rows, c.op)
    ensures EventsOf(s, c) ==
            if (c.op.BanUser? || c.op.UnbanUser?) && OutcomeOf(s, c).reply.Success? then [AskedFor(c)] else []
  {
    NextIsCommit(s, c);
  }

  /** What a ban or unban call asks for. */
  function AskedFor(c: Call): BanEvent
    requires c.op.BanUser? || c.op.UnbanUser?
  {
    if c.op.UnbanUser? then Unbanned(c.op.id)
    else
      Banned(c.op.id, BanInfo(
        isBanned := true, bannedAt := c.env.now,
        bannedUntil := if c.op.duration.Some? then Some(c.env.now + c.op.duration.value) else None,
        reason := c.op.reason, bannedBy := c.op.bannedBy))
  }

  /** The last ban or unban call on a user that returned success in the run. */
  function LastBanCall(s: State, calls: seq<Call>, id: string): Option<Call>
    ensures LastBanCall(s, calls, id).Some? ==>
              var op := LastBanCall(s, calls, id).value.op; (op.BanUser? || op.UnbanUser?) && op.id == id
    decreases |calls|
  {
    if calls == [] then None
    else
      var c, later := calls[0], LastBanCall(Next(s, calls[0]), calls[1..], id);
      if later.Some? then later
      else if (c.op.BanUser? || c.op.UnbanUser?) && c.op.id == id && OutcomeOf(s, c).reply.Success? then Some(c)
      else None
  }

  lemma {:induction false} LastEventIsLastCall(s: State, calls: seq<Call>, clock: Time, id: string)
    requires KeyedById(s.rows) && ValidRun(s, calls, clock)
    ensures var last := LastBanCall(s, calls, id);
            LastEvent(Run(s, calls).events, id) ==
            if last.Some? then Some(AskedFor(last.value)) else LastEvent(s.events, id)
    decreases |calls|
  {
    if calls != [] {
      var c := calls[0];
      NextIsCommit(s, c);
      EventsAreSuccessfulCalls(s, c);
      LastEventIsLastCall(Next(s, c), calls[1..], c.env.now, id);
      if EventsOf(s, c) == [] {
        assert s.events + [] == s.events;
      } else {
        LastEventAppend(s.events, AskedFor(c), id);
      }
    }
  }

  lemma {:induction false} BansAgreeRun(s: State, calls: seq<Call>, clock: Time)
    requires BansAgree(s, clock) && ValidRun(s, calls, clock)
    ensures BansAgree(Run(s, calls), EndTime(calls, clock))
    decreases |calls|
  {
    if calls != [] {
      BansAgreeStep(s, calls[0], clock);
      BansAgreeRun(Next(s, calls[0]), calls[1..], calls[0].env.now);
    }
  }

  /** In every run from the empty table, at every later moment: the lazily cleared verdict on a user is
      the simple reading of the user's ban events, for both calls that consult it. */
  lemma BanVerdictFollowsEvents(calls: seq<Call>, clock: Time, id: string, now: Time)
    requires ValidRun(EMPTY, calls, clock) && EndTime(calls, clock) <= now
    ensures var s := Run(EMPTY, calls);
            && (id in s.rows ==> (BanInForce(s.rows[id].banInfo, now) <==> BannedByEvents(s.events, id, now)))
            && (Live(s.rows, id) ==>
                  (Attempted(s.rows, GetUser(id), now) == Refused(IsBannedError)
                   <==> BannedByEvents(s.events, id, now)))
            && (forall email, password, tokenOk ::
                  Live(s.rows, id) && (IsHashedPassword(password) ==> s.rows[id].password == password) ==>
                  (Attempted(s.rows, Authenticate(email, password, Some(id), true, tokenOk), now)
                   == Refused(IsBannedError)
                   <==> BannedByEvents(s.events, id, now)))
  {
    BansAgreeRun(EMPTY, calls, clock);
  }

  /** The last successful ban or unban call is a ban without duration, or one whose duration, from the moment
      of the call, has not passed. */
  predicate BannedByCall(last: Option<Call>, now: Time) {
    last.Some? && last.value.op.BanUser? &&
    (last.value.op.duration.Some? ==> now <= last.value.env.now + last.value.op.duration.value)
  }

  lemma RowFollowsLastCall(calls: seq<Call>, clock: Time, id: string, now: Time)
    requires ValidRun(EMPTY, calls, clock) && EndTime(calls, clock) <= now && id in Run(EMPTY, calls).rows
    ensures var ban, last := Run(EMPTY, calls).rows[id].banInfo, LastBanCall(EMPTY, calls, id);
            && (BanInForce(ban, now) <==> BannedByCall(last, now))
            && (BannedByCall(last, now) ==>
                  ban.Some? && ban.value.bannedAt == last.value.env.now
                  && ban.value.reason == last.value.op.reason && ban.value.bannedBy == last.value.op.bannedBy)
  {
    BansAgreeRun(EMPTY, calls, clock);
    LastEventIsLastCall(EMPTY, calls, clock, id);
  }

  /** A ban lasts as long as the call asked: in every run from the empty table, at every later moment, a lookup
      and a login with the right password are refused as banned exactly when the last successful ban or unban
      call on the user says so. Until then the row carries that ban, with its moment, reason and issuer. */
  lemma BanLastsAsAsked(calls: seq<Call>, clock: Time, id: string, password: string, tokenOk: bool, env: Env)
    requires ValidRun(EMPTY, calls, clock) && EndTime(calls, clock) <= env.now && env.readOk
    requires Live(Run(EMPTY, calls).rows, id)
    requires IsHashedPassword(password) ==> Run(EMPTY, calls).rows[id].password == password
    ensures var s, banned := Run(EMPTY, calls), BannedByCall(LastBanCall(EMPTY, calls, id), env.now);
            && (Served(s.rows, s.history, GetUser(id), env).reply == Failure(IsBannedError) <==> banned)
            && var login := Authenticate(s.rows[id].email, password, Some(id), true, tokenOk);
               Served(s.rows, s.history, login, env).reply == Failure(IsBannedError) <==> banned
    ensures var ban, last := Run(EMPTY, calls).rows[id].banInfo, LastBanCall(EMPTY, calls, id);
            BannedByCall(last, env.now) ==>
              && ban.Some? && ban.value.bannedAt == last.value.env.now
              && ban.value.reason == last.value.op.reason && ban.value.bannedBy == last.value.op.bannedBy
  {
    var s := Run(EMPTY, calls);
    RowFollowsLastCall(calls, clock, id, env.now);
    GetUserLaw(s.rows, s.history, id, env);
    LoginRefused(s.rows, s.history, s.rows[id].email, password, Some(id), true, tokenOk, env);
  }

  /** No unban without a ban before it that no other unban has lifted. */
  predicate Alternating(events: seq<BanEvent>) {
    events == [] ||
    var init, e := events[..|events| - 1], events[|events| - 1];
    Alternating(init) && (e.Unbanned? ==> LastEvent(init, e.userId).Some? && LastEvent(init, e.userId).value.Banned?)
  }

  lemma {:induction false} AlternatingRun(s: State, calls: seq<Call>, clock: Time)
    requires BansAgree(s, clock) && ValidRun(s, calls, clock) && Alternating(s.events)
    ensures Alternating(Run(s, calls).events)
    decreases |calls|
  {
    if calls != [] {
      var c := calls[0];
      NextIsCommit(s, c);
      BansAgreeStep(s, c, clock);
      var added := EventsOf(s, c);
      if added == [] {
        assert s.events + added == s.events;
      } else {
        assert (s.events + added)[..|s.events + added| - 1] == s.events;
      }
      AlternatingRun(Next(s, c), calls[1..], c.env.now);
    }
  }

  /** In every run from registration: a user's events never begin with an unban and never hold two unbans
      without a ban between, and a stored flag means that the last event is a ban. */
  lemma BanEventsAlternate(calls: seq<Call>, clock: Time)
    requires ValidRun(EMPTY, calls, clock)
    ensures var s := Run(EMPTY, calls);
            && Alternating(s.events)
            && (forall id | id in s.rows && BanFlag(s.rows[id].banInfo) ::
                  LastEvent(s.events, id).Some? && LastEvent(s.events, id).value.Banned?)
  {
    AlternatingRun(EMPTY, calls, clock);
    BansAgreeRun(EMPTY, calls, clock);
  }

  // ----- soft deletion -----

  lemma DeletedStaysStep(s: State, c: Call, id: string)
    requires KeyedById(s.rows) && ValidOp(s.rows, c.op)
    requires id in s.rows && !Live(s.rows, id)
    ensures id in Next(s, c).rows && Next(s, c).rows[id] == s.rows[id]
  {
    NextIsCommit(s, c);
  }

  /** A soft-deleted row never changes again, in any column. */
  lemma {:induction false} DeletedRowIsFrozen(s: State, calls: seq<Call>, clock: Time, id: string)
    requires KeyedById(s.rows) && ValidRun(s, calls, clock)
    requires id in s.rows && !Live(s.rows, id)
    ensures id in Run(s, calls).rows && Run(s, calls).rows[id] == s.rows[id]
    decreases |calls|
  {
    if calls != [] {
      DeletedStaysStep(s, calls[0], id);
      NextIsCommit(s, calls[0]);
      DeletedRowIsFrozen(Next(s, calls[0]), calls[1..], calls[0].env.now, id);
    }
  }

  /** And nothing shows it again: no lookup by id or email, no page of any listing, and no later call can
      issue a write that aims at it. */
  lemma DeletedRowStaysHidden(s: State, calls: seq<Call>, clock: Time, id: string)
    requires KeyedById(s.rows) && ValidRun(s, calls, clock)
    requires id in s.rows && !Live(s.rows, id)
    ensures var rows := Run(s, calls).rows;
            && id in rows
            && (forall now :: Attempted(rows, GetUser(id), now) == Refused(NotFound))
            && (forall email :: !PickedByEmail(rows, email, Some(id)))
            && (forall f, fold: Ilike.CaseFold, db :: rows[id] !in ListQuery.WantedRows(f, db, fold))
            && (forall op, now :: ValidOp(rows, op) && Attempted(rows, op, now).Writing? && !op.Register?
                  ==> Target(Attempted(rows, op, now).write) != id)
  {
    DeletedRowIsFrozen(s, calls, clock, id);
    KeyedRun(s, calls, clock);
    var rows := Run(s, calls).rows;
    forall op, now | ValidOp(rows, op) && Attempted(rows, op, now).Writing?
      ensures Justified(rows, op, Attempted(rows, op, now).write, now)
    {
      WritesAreJustified(rows, op, now);
    }
  }

  lemma {:induction false} KeyedRun(s: State, calls: seq<Call>, clock: Time)
    requires KeyedById(s.rows) && ValidRun(s, calls, clock)
    ensures KeyedById(Run(s, calls).rows)
    decreases |calls|
  {
    if calls != [] {
      NextIsCommit(s, calls[0]);
      KeyedRun(Next(s, calls[0]), calls[1..], calls[0].env.now);
    }
  }

  // ----- unique live emails and names -----

  /** An UpdateUser call that reaches the table. */
  predicate UpdateGoesThrough(s: State, c: Call) {
    && c.op.UpdateUser? && c.env.readOk && c.env.writeOk && Live(s.rows, c.op.id)
    && (c.op.profile.password == "" || IsHashedPassword(c.op.profile.password) || c.op.hashed.Some?)
  }

  lemma UpdateSucceedsIff(s: State, c: Call)
    requires KeyedById(s.rows) && c.op.UpdateUser?
    ensures OutcomeOf(s, c).reply.Success? <==> UpdateGoesThrough(s, c)
    ensures Committed(s, c).Some? <==> UpdateGoesThrough(s, c)
  {
  }

  /** A call keeps live emails and names distinct exactly when it is not an UpdateUser of a live user, under a
      database that answers, with a password that can be stored, to an email or a name that another live row
      holds: UpdateUser alone does not look. */
  lemma StepKeepsUniqueIff(s: State, c: Call)
    requires KeyedById(s.rows) && ValidOp(s.rows, c.op) && UniqueLive(s.rows)
    ensures UniqueLive(Next(s, c).rows) <==>
            !(UpdateGoesThrough(s, c) && Held(s.rows, c.op.id, c.op.profile.email, c.op.profile.name))
  {
    NextIsCommit(s, c);
    if c.op.UpdateUser? {
      UpdateSucceedsIff(s, c);
    }
    UniqueCommit(s.rows, c.op, Committed(s, c), c.env.now);
  }

  lemma UniqueCommit(t: Table, op: Op, w: Option<Write>, now: Time)
    requires KeyedById(t) && UniqueLive(t)
    requires w.Some? ==> Justified(t, op, w.value, now)
    ensures var t' := if w.Some? then Commit(t, w.value, now).0 else t;
            UniqueLive(t') <==> !(op.UpdateUser? && w.Some? && Held(t, op.id, op.profile.email, op.profile.name))
  {
    if w.Some? {
      CommitKeepsUniqueIff(t, w.value, now);
      TakesIff(t, op, w.value, now);
    }
  }

  /** Every other call leaves email, name and liveness of its row alone, creates it after looking, or deletes it. */
  lemma TakesIff(t: Table, op: Op, w: Write, now: Time)
    requires KeyedById(t) && UniqueLive(t) && Justified(t, op, w, now)
    ensures Takes(t, w) <==> op.UpdateUser? && Held(t, op.id, op.profile.email, op.profile.name)
  {
  }

  /** So without UpdateUser they stay distinct over every run, and a lookup by email has at most one candidate. */
  lemma {:induction false} UniqueWithoutUpdates(s: State, calls: seq<Call>, clock: Time)
    requires KeyedById(s.rows) && UniqueLive(s.rows) && ValidRun(s, calls, clock)
    requires forall i | 0 <= i < |calls| :: !calls[i].op.UpdateUser?
    ensures UniqueLive(Run(s, calls).rows)
    ensures forall email, a, b ::
              PickedByEmail(Run(s, calls).rows, email, Some(a)) && PickedByEmail(Run(s, calls).rows, email, Some(b))
              ==> a == b
    decreases |calls|
  {
    if calls != [] {
      NextIsCommit(s, calls[0]);
      StepKeepsUniqueIff(s, calls[0]);
      UniqueWithoutUpdates(Next(s, calls[0]), calls[1..], calls[0].env.now);
    }
  }

  // ----- the subscription history -----

  datatype Pair = Pair(level: string, status: string)

  /** What replaying a user's entries gives: the new side of the last one. */
  function Replayed(history: seq<HistoryEntry>, id: string): Pair {
    if history == [] then Pair("", "")
    else
      var e := history[|history| - 1];
      if e.userId == id then Pair(e.newLevel, e.newStatus) else Replayed(history[..|history| - 1], id)
  }

  /** Every entry starts where the user's previous one ended. */
  predicate Chained(history: seq<HistoryEntry>) {
    history == [] ||
    var init, e := history[..|history| - 1], history[|history| - 1];
    Chained(init) && Pair(e.oldLevel, e.oldStatus) == Replayed(init, e.userId)
  }

  function StoredPair(s: Option<Subscription>): Pair {
    Pair(SubLevel(s), SubStatus(s))
  }

  /** The history is a chain for every user and ends at the stored subscription. */
  ghost predicate HistoryTells(rows: Table, history: seq<HistoryEntry>) {
    && Chained(history)
    && (forall id | id in rows :: Replayed(history, id) == StoredPair(rows[id].subscription))
    && (forall id | id !in rows :: Replayed(history, id) == Pair("", ""))
  }

  lemma ReplayedAppend(history: seq<HistoryEntry>, e: HistoryEntry, id: string)
    ensures Replayed(history + [e], id) ==
            if e.userId == id then Pair(e.newLevel, e.newStatus) else Replayed(history, id)
    ensures Chained(history + [e]) <==> Chained(history) && Pair(e.oldLevel, e.oldStatus) == Replayed(history, e.userId)
  {
    assert (history + [e])[..|history|] == history;
  }

  /** The insert of a call's entry fails: the collection does not answer, or an entry of the same second exists. */
  predicate InsertFails(s: State, c: Call) {
    !c.env.logOk || exists i :: 0 <= i < |s.history| && s.history[i].stamp == Stamp(c.env.now)
  }

  /** The call reaches the table and changes the level or the status of a stored subscription: an update to
      another pair, or the cancellation of one not yet canceled. */
  predicate ChangesPair(s: State, c: Call) {
    c.env.readOk && c.env.writeOk &&
    match c.op
    case UpdateSubscription(id, sub) =>
      Live(s.rows, id) && StoredPair(Some(sub)) != StoredPair(s.rows[id].subscription)
    case CancelSubscription(id, _, _) =>
      Live(s.rows, id) && s.rows[id].subscription.Some?
      && s.rows[id].subscription.value.status != SUBSCRIPTION_CANCELED
    case _ => false
  }

  lemma ChangesPairIff(s: State, c: Call)
    requires KeyedById(s.rows) && ValidOp(s.rows, c.op)
    ensures var w := Committed(s, c);
            ChangesPair(s, c) <==>
              w.Some? && w.value.SetSubscription? && w.value.id in s.rows
              && StoredPair(Some(w.value.subscription)) != StoredPair(s.rows[w.value.id].subscription)
  {
    NextIsCommit(s, c);
  }

  /** A call keeps the history telling the stored subscriptions exactly when it does not both change a
      pair and find its second taken or the collection silent. */
  lemma StepKeepsHistoryIff(s: State, c: Call)
    requires KeyedById(s.rows) && ValidOp(s.rows, c.op) && HistoryTells(s.rows, s.history)
    ensures HistoryTells(Next(s, c).rows, Next(s, c).history) <==> !(ChangesPair(s, c) && InsertFails(s, c))
  {
    NextIsCommit(s, c);
    ChangesPairIff(s, c);
    var w, s' := Committed(s, c), Next(s, c);
    if w.Some? && w.value.SetSubscription? {
      HistoryCommit(s, c, w.value.id, w.value.subscription);
    } else if w.Some? {
      KeepsSubscriptions(s.rows, c.op, w.value, c.env.now, s.history);
    }
  }

  lemma KeepsSubscriptions(t: Table, op: Op, w: Write, now: Time, history: seq<HistoryEntry>)
    requires KeyedById(t) && Justified(t, op, w, now) && !w.SetSubscription? && HistoryTells(t, history)
    ensures HistoryTells(Commit(t, w, now).0, history)
  {
  }

  lemma HistoryCommit(s: State, c: Call, id: string, sub: Subscription)
    requires HistoryTells(s.rows, s.history) && id in s.rows
    ensures var t' := Commit(s.rows, SetSubscription(id, sub), c.env.now).0;
            HistoryTells(t', Logged(s.rows, s.history, SetSubscription(id, sub), c.env)) <==>
            !(StoredPair(Some(sub)) != StoredPair(s.rows[id].subscription) && InsertFails(s, c))
  {
    var before := s.rows[id].subscription;
    var e := EntryFor(id, before, sub, c.env.now);
    var t' := Commit(s.rows, SetSubscription(id, sub), c.env.now).0;
    if InsertFails(s, c) {
      assert Inserted(s.history, e, c.env.logOk) == s.history;
      assert Replayed(s.history, id) == StoredPair(before) && t'[id].subscription == Some(sub);
    } else {
      assert Inserted(s.history, e, c.env.logOk) == s.history + [e];
      EntryTells(s.rows, t', s.history, e, id);
    }
  }

  /** With its entry appended, a subscription write leaves the history telling. */
  lemma EntryTells(t: Table, t': Table, history: seq<HistoryEntry>, e: HistoryEntry, id: string)
    requires HistoryTells(t, history) && id in t && e.userId == id && t'.Keys == t.Keys
    requires Pair(e.oldLevel, e.oldStatus) == StoredPair(t[id].subscription)
    requires Pair(e.newLevel, e.newStatus) == StoredPair(t'[id].subscription)
    requires forall k | k in t && k != id :: t'[k].subscription == t[k].subscription
    ensures HistoryTells(t', history + [e])
  {
    forall k {
      ReplayedAppend(history, e, k);
    }
  }

  predicate IsSubscriptionOp(op: Op) {
    op.UpdateSubscription? || op.CancelSubscription?
  }

  /** Subscription calls fall in pairwise distinct seconds, none of them used before, and their entries reach
      the database. */
  ghost predicate DistinctSeconds(history: seq<HistoryEntry>, calls: seq<Call>) {
    && (forall i | 0 <= i < |calls| && IsSubscriptionOp(calls[i].op) ::
          calls[i].env.logOk && forall k | 0 <= k < |history| :: history[k].stamp != Stamp(calls[i].env.now))
    && (forall i, j | 0 <= i < j < |calls| && IsSubscriptionOp(calls[i].op) && IsSubscriptionOp(calls[j].op) ::
          Stamp(calls[i].env.now) != Stamp(calls[j].env.now))
  }

  lemma DistinctSecondsStep(s: State, calls: seq<Call>)
    requires calls != [] && KeyedById(s.rows) && ValidOp(s.rows, calls[0].op) && DistinctSeconds(s.history, calls)
    ensures DistinctSeconds(Next(s, calls[0]).history, calls[1..])
  {
    var c := calls[0];
    NextIsCommit(s, c);
    var h := Next(s, c).history;
    forall k | 0 <= k < |h|
      ensures (k < |s.history| && h[k] == s.history[k]) || (IsSubscriptionOp(c.op) && h[k].stamp == Stamp(c.env.now))
    {
    }
  }

  /** Under that premise, over every run: each user's history is a chain and replaying it yields the
      level and status of the stored subscription. */
  lemma {:induction false} HistoryReplaysToStored(s: State, calls: seq<Call>, clock: Time)
    requires KeyedById(s.rows) && HistoryTells(s.rows, s.history)
    requires ValidRun(s, calls, clock) && DistinctSeconds(s.history, calls)
    ensures HistoryTells(Run(s, calls).rows, Run(s, calls).history)
    decreases |calls|
  {
    if calls != [] {
      var c := calls[0];
      NextIsCommit(s, c);
      StepKeepsHistoryIff(s, c);
      DistinctSecondsStep(s, calls);
      HistoryReplaysToStored(Next(s, c), calls[1..], c.env.now);
    }
  }

  /** The empty table starts every run property above. */
  lemma EmptyStarts(clock: Time)
    ensures BansAgree(EMPTY, clock) && UniqueLive(EMPTY.rows) && HistoryTells(EMPTY.rows, EMPTY.history)
  {
  }
}
