/** What a write that lands late can undo: exact conditions, over every interleaving, for a deletion, a ban
    and the uniqueness of live emails and names to survive the writes already under way. */
module LateWrites {
  import opened Base
  import opened Domain
  import opened UserStore
  import opened UserService
  import opened Interleaving

  lemma RunOne(w: World, a: Action)
    ensures Run(w, [a]) == Act(w, a)
    ensures ValidRun(w, [a]) <==> Enabled(w, a)
  {
    assert [a][1..] == [];
    assert Run(w, [a]) == Run(Act(w, a), []);
  }

  /** What a step means for the writes under way: a call that begins adds at most one, justified by the
      table of that moment, and a finished one goes. */
  lemma PendingAfter(w: World, a: Action, j: nat)
    requires KeyedById(w.rows) && Enabled(w, a) && j in Act(w, a).pending
    ensures (j in w.pending && Act(w, a).pending[j] == w.pending[j]) ||
            (a.Begin? && Act(w, a).rows == w.rows && Justified(w.rows, a.op, Act(w, a).pending[j].write, a.now))
    ensures KeyedById(Act(w, a).rows)
  {
    match a
    case Begin(k, op, now) => WritesAreJustified(w.rows, op, now);
    case Finish(k, now, io) => CommitKeepsKeys(w.rows, w.pending[k].write, now);
  }

  // ----- deletion -----

  /** A write that leaves its row live. */
  predicate Revives(w: Write) {
    w.Ban? || w.Unban? || (w.Update? && w.user.status != STATUS_DELETED)
  }

  ghost predicate ReviverPending(w: World, id: string) {
    exists k | k in w.pending :: Target(w.pending[k].write) == id && Revives(w.pending[k].write)
  }

  ghost predicate IsDeleted(w: World, id: string) {
    KeyedById(w.rows) && id in w.rows && !Live(w.rows, id)
  }

  lemma StaysDeletedStep(w: World, a: Action, id: string)
    requires IsDeleted(w, id) && !ReviverPending(w, id) && Enabled(w, a)
    ensures IsDeleted(Act(w, a), id) && !ReviverPending(Act(w, a), id)
  {
    forall j | j in Act(w, a).pending
      ensures !(Target(Act(w, a).pending[j].write) == id && Revives(Act(w, a).pending[j].write))
      ensures KeyedById(Act(w, a).rows)
    {
      PendingAfter(w, a, j);
    }
    if a.Finish? {
      CommitKeepsKeys(w.rows, w.pending[a.k].write, a.now);
    }
  }

  lemma {:induction false} StaysDeletedRun(w: World, actions: seq<Action>, id: string)
    requires IsDeleted(w, id) && !ReviverPending(w, id) && ValidRun(w, actions)
    ensures IsDeleted(Run(w, actions), id)
    decreases |actions|
  {
    if actions != [] {
      StaysDeletedStep(w, actions[0], id);
      StaysDeletedRun(Act(w, actions[0]), actions[1..], id);
    }
  }

  ghost predicate RevivedBy(w: World, actions: seq<Action>, id: string) {
    ValidRun(w, actions) && Live(Run(w, actions).rows, id)
  }

  /** A deleted user can come back exactly when a write under way at that moment bans or unbans the user
      or stores a status other than DELETED; calls that begin later never bring anyone back. */
  lemma DeletedReturnsIff(w: World, id: string)
    requires IsDeleted(w, id)
    ensures (exists actions :: RevivedBy(w, actions, id)) <==> ReviverPending(w, id)
  {
    if ReviverPending(w, id) {
      var k :| k in w.pending && Target(w.pending[k].write) == id && Revives(w.pending[k].write);
      RunOne(w, Finish(k, 0, true));
      assert RevivedBy(w, [Finish(k, 0, true)], id);
    } else {
      forall actions | ValidRun(w, actions)
        ensures !Live(Run(w, actions).rows, id)
      {
        StaysDeletedRun(w, actions, id);
      }
    }
  }

  /** A write that changes the row, at some time of its landing. A subscription write always does: it sets
      the update time. */
  predicate Disturbs(w: Write, row: Row) {
    w.Ban? || w.Unban? || w.SetSubscription? || (w.Update? && UpdatedRow(row, w.user) != row)
  }

  ghost predicate DisturberPending(w: World, id: string)
    requires id in w.rows
  {
    exists k | k in w.pending :: Target(w.pending[k].write) == id && Disturbs(w.pending[k].write, w.rows[id])
  }

  lemma {:induction false} StaysFrozenRun(w: World, actions: seq<Action>, id: string)
    requires IsDeleted(w, id) && !DisturberPending(w, id) && ValidRun(w, actions)
    ensures id in Run(w, actions).rows && Run(w, actions).rows[id] == w.rows[id]
    decreases |actions|
  {
    if actions != [] {
      var w' := Act(w, actions[0]);
      StaysFrozenStep(w, actions[0], id);
      StaysFrozenRun(w', actions[1..], id);
    }
  }

  lemma StaysFrozenStep(w: World, a: Action, id: string)
    requires IsDeleted(w, id) && !DisturberPending(w, id) && Enabled(w, a)
    ensures IsDeleted(Act(w, a), id) && Act(w, a).rows[id] == w.rows[id] && !DisturberPending(Act(w, a), id)
  {
    if a.Finish? {
      CommitKeepsKeys(w.rows, w.pending[a.k].write, a.now);
    }
    assert Act(w, a).rows[id] == w.rows[id];
    forall j | j in Act(w, a).pending
      ensures !(Target(Act(w, a).pending[j].write) == id && Disturbs(Act(w, a).pending[j].write, w.rows[id]))
    {
      PendingAfter(w, a, j);
    }
  }

  ghost predicate ChangedBy(w: World, actions: seq<Action>, id: string)
    requires id in w.rows
  {
    ValidRun(w, actions) && !(id in Run(w, actions).rows && Run(w, actions).rows[id] == w.rows[id])
  }

  /** And a deleted row can change in some column exactly when a write under way bans, unbans or subscribes
      the user or stores other values: with no such write it is frozen under every interleaving. */
  lemma DeletedChangesIff(w: World, id: string)
    requires IsDeleted(w, id)
    ensures (exists actions :: ChangedBy(w, actions, id)) <==> DisturberPending(w, id)
  {
    if DisturberPending(w, id) {
      var k :| k in w.pending && Target(w.pending[k].write) == id && Disturbs(w.pending[k].write, w.rows[id]);
      var late := Finish(k, w.rows[id].updatedAt + 1, true);
      RunOne(w, late);
      assert ChangedBy(w, [late], id);
    } else {
      forall actions | ValidRun(w, actions)
        ensures id in Run(w, actions).rows && Run(w, actions).rows[id] == w.rows[id]
      {
        StaysFrozenRun(w, actions, id);
      }
    }
  }

  // ----- bans -----

  /** A step that may end a ban of `id` by right: an unban lands, or a login begins that finds the ban run out. */
  predicate Lifts(w: World, a: Action, id: string) {
    match a
    case Begin(_, op, now) =>
      && op.Authenticate? && op.pick == Some(id) && id in w.rows && !BanInForce(w.rows[id].banInfo, now)
      && Attempted(w.rows, op, now).Writing?
    case Finish(k, _, _) => k in w.pending && w.pending[k].write == Unban(id)
  }

  ghost predicate NeverLifted(w: World, actions: seq<Action>, id: string)
    decreases |actions|
  {
    actions == [] || (!Lifts(w, actions[0], id) && NeverLifted(Act(w, actions[0]), actions[1..], id))
  }

  predicate Unbans(w: Write, id: string) {
    w.Update? && w.user.id == id && !BanFlag(w.user.banInfo)
  }

  ghost predicate UnbannerPending(w: World, id: string) {
    exists k | k in w.pending :: Unbans(w.pending[k].write, id)
  }

  /** The row is flagged, in a state that calls can lead to: ban writes under way carry their flag. */
  ghost predicate IsFlagged(w: World, id: string) {
    ColumnsAgree(w) && id in w.rows && BanFlag(w.rows[id].banInfo)
  }

  lemma StaysFlaggedStep(w: World, a: Action, id: string)
    requires IsFlagged(w, id) && !UnbannerPending(w, id) && Enabled(w, a) && !Lifts(w, a, id)
    ensures IsFlagged(Act(w, a), id) && !UnbannerPending(Act(w, a), id)
  {
    ColumnsAgreeStep(w, a);
    if a.Finish? {
      LandingKeepsFlag(w.rows, w.pending[a.k].write, a.now, id);
    }
    forall j | j in Act(w, a).pending
      ensures !Unbans(Act(w, a).pending[j].write, id)
    {
      PendingAfter(w, a, j);
    }
  }

  lemma LandingKeepsFlag(t: Table, w: Write, now: Time, id: string)
    requires id in t && BanFlag(t[id].banInfo) && w != Unban(id) && !Unbans(w, id)
    requires w.Ban? ==> w.ban.isBanned
    ensures id in Commit(t, w, now).0 && BanFlag(Commit(t, w, now).0[id].banInfo)
  {
  }

  lemma {:induction false} StaysFlaggedRun(w: World, actions: seq<Action>, id: string)
    requires IsFlagged(w, id) && !UnbannerPending(w, id) && ValidRun(w, actions) && NeverLifted(w, actions, id)
    ensures IsFlagged(Run(w, actions), id)
    decreases |actions|
  {
    if actions != [] {
      StaysFlaggedStep(w, actions[0], id);
      StaysFlaggedRun(Act(w, actions[0]), actions[1..], id);
    }
  }

  ghost predicate FlagLostBy(w: World, actions: seq<Action>, id: string) {
    ValidRun(w, actions) && NeverLifted(w, actions, id) &&
    !(id in Run(w, actions).rows && BanFlag(Run(w, actions).rows[id].banInfo))
  }

  /** A set ban flag can be lost without an unban and without a login that finds the ban run out, exactly
      when an update of the user under way carries an unset flag. */
  lemma BanLostIff(w: World, id: string)
    requires IsFlagged(w, id)
    ensures (exists actions :: FlagLostBy(w, actions, id)) <==> UnbannerPending(w, id)
  {
    if UnbannerPending(w, id) {
      var k :| k in w.pending && Unbans(w.pending[k].write, id);
      var late := Finish(k, 0, true);
      RunOne(w, late);
      assert [late][1..] == [];
      assert FlagLostBy(w, [late], id);
    } else {
      forall actions | ValidRun(w, actions) && NeverLifted(w, actions, id)
        ensures id in Run(w, actions).rows && BanFlag(Run(w, actions).rows[id].banInfo)
      {
        StaysFlaggedRun(w, actions, id);
      }
    }
  }

  /** A step that may change the ban of `id` by right: a ban or an unban lands, or a login begins that finds
      the ban run out. */
  predicate Rules(w: World, a: Action, id: string) {
    Lifts(w, a, id) || (a.Finish? && a.k in w.pending && w.pending[a.k].write.Ban? && w.pending[a.k].write.id == id)
  }

  ghost predicate NeverRuled(w: World, actions: seq<Action>, id: string)
    decreases |actions|
  {
    actions == [] || (!Rules(w, actions[0], id) && NeverRuled(Act(w, actions[0]), actions[1..], id))
  }

  predicate Overwrites(w: Write, id: string, ban: Option<BanInfo>) {
    w.Update? && w.user.id == id && w.user.banInfo != ban
  }

  ghost predicate OverwriterPending(w: World, id: string, ban: Option<BanInfo>) {
    exists k | k in w.pending :: Overwrites(w.pending[k].write, id, ban)
  }

  ghost predicate HasBan(w: World, id: string, ban: Option<BanInfo>) {
    KeyedById(w.rows) && id in w.rows && w.rows[id].banInfo == ban
  }

  lemma BanStaysStep(w: World, a: Action, id: string, ban: Option<BanInfo>)
    requires HasBan(w, id, ban) && !OverwriterPending(w, id, ban) && Enabled(w, a) && !Rules(w, a, id)
    ensures HasBan(Act(w, a), id, ban) && !OverwriterPending(Act(w, a), id, ban)
  {
    if a.Finish? {
      CommitKeepsKeys(w.rows, w.pending[a.k].write, a.now);
    }
    forall j | j in Act(w, a).pending
      ensures !Overwrites(Act(w, a).pending[j].write, id, ban)
    {
      PendingAfter(w, a, j);
    }
  }

  lemma {:induction false} BanStaysRun(w: World, actions: seq<Action>, id: string, ban: Option<BanInfo>)
    requires HasBan(w, id, ban) && !OverwriterPending(w, id, ban) && ValidRun(w, actions) && NeverRuled(w, actions, id)
    ensures HasBan(Run(w, actions), id, ban)
    decreases |actions|
  {
    if actions != [] {
      BanStaysStep(w, actions[0], id, ban);
      BanStaysRun(Act(w, actions[0]), actions[1..], id, ban);
    }
  }

  ghost predicate BanChangedBy(w: World, actions: seq<Action>, id: string, ban: Option<BanInfo>) {
    ValidRun(w, actions) && NeverRuled(w, actions, id) &&
    !(id in Run(w, actions).rows && Run(w, actions).rows[id].banInfo == ban)
  }

  /** The stored ban as a whole, its end included, or its absence: without a ban, an unban or a login that
      finds the ban run out it can change exactly when an update of the user under way carries another one. */
  lemma BanChangesIff(w: World, id: string, ban: Option<BanInfo>)
    requires HasBan(w, id, ban)
    ensures (exists actions :: BanChangedBy(w, actions, id, ban)) <==> OverwriterPending(w, id, ban)
  {
    if OverwriterPending(w, id, ban) {
      var k :| k in w.pending && Overwrites(w.pending[k].write, id, ban);
      var late := Finish(k, 0, true);
      RunOne(w, late);
      assert [late][1..] == [];
      assert BanChangedBy(w, [late], id, ban);
    } else {
      forall actions | ValidRun(w, actions) && NeverRuled(w, actions, id)
        ensures HasBan(Run(w, actions), id, ban)
      {
        BanStaysRun(w, actions, id, ban);
      }
    }
  }

  // ----- unique live emails and names -----

  /** The landing of one write, in any interleaving. */
  lemma FinishKeepsUniqueIff(w: World, k: nat, now: Time, io: bool)
    requires k in w.pending && UniqueLive(w.rows)
    ensures UniqueLive(Act(w, Finish(k, now, io)).rows) <==> !(io && Takes(w.rows, w.pending[k].write))
  {
    CommitKeepsUniqueIff(w.rows, w.pending[k].write, now);
  }

  /** Some write of the run takes what another live row holds when it lands. */
  ghost predicate SomeWriteTakes(w: World, actions: seq<Action>)
    decreases |actions|
  {
    actions != [] &&
    ((actions[0].Finish? && actions[0].k in w.pending && actions[0].io && Takes(w.rows, w.pending[actions[0].k].write))
     || SomeWriteTakes(Act(w, actions[0]), actions[1..]))
  }

  ghost predicate AlwaysUnique(w: World, actions: seq<Action>)
    decreases |actions|
  {
    UniqueLive(w.rows) && (actions == [] || AlwaysUnique(Act(w, actions[0]), actions[1..]))
  }

  /** Over a whole interleaving live emails and names stay distinct at every moment exactly when no write
      takes what another live row holds when it lands. */
  lemma {:induction false} AlwaysUniqueIff(w: World, actions: seq<Action>)
    requires UniqueLive(w.rows) && ValidRun(w, actions)
    ensures AlwaysUnique(w, actions) <==> !SomeWriteTakes(w, actions)
    decreases |actions|
  {
    if actions != [] {
      var a := actions[0];
      if a.Finish? {
        FinishKeepsUniqueIff(w, a.k, a.now, a.io);
      }
      if UniqueLive(Act(w, a).rows) {
        AlwaysUniqueIff(Act(w, a), actions[1..]);
      } else {
        assert !AlwaysUnique(Act(w, a), actions[1..]);
      }
    }
  }

  // ----- a discipline that keeps them distinct -----

  /** Calls that give a row an email or a name, or take a row out of use. */
  predicate Renames(op: Op) {
    op.Register? || op.UpdateUser? || op.DeleteUser?
  }

  /** Such calls run alone: one begins only when nothing is under way, nothing else begins before it has
      written, and an update looks whether its email and name are held. `alone` is the last one begun. */
  ghost predicate Exclusive(w: World, actions: seq<Action>, alone: Option<nat>)
    decreases |actions|
  {
    if actions == [] then true
    else
      match actions[0]
      case Finish(_, _, _) => Exclusive(Act(w, actions[0]), actions[1..], alone)
      case Begin(k, op, _) =>
        && MayBegin(w, op, alone)
        && Exclusive(Act(w, actions[0]), actions[1..], if Renames(op) then Some(k) else alone)
  }

  ghost predicate MayBegin(w: World, op: Op, alone: Option<nat>) {
    && (alone.Some? ==> alone.value !in w.pending)
    && (Renames(op) ==> w.pending == map[])
    && (op.UpdateUser? ==> !Held(w.rows, op.id, op.profile.email, op.profile.name))
  }

  /** A write that leaves email, name and liveness of its row as they are. */
  predicate LeavesNames(t: Table, w: Write) {
    match w
    case Create(_) => false
    case Update(u) => Live(t, u.id) && u.status != STATUS_DELETED && u.email == t[u.id].email && u.name == t[u.id].name
    case _ => Live(t, Target(w))
  }

  ghost predicate Orderly(w: World, alone: Option<nat>) {
    && KeyedById(w.rows) && UniqueLive(w.rows)
    && forall k | k in w.pending ::
         LeavesNames(w.rows, w.pending[k].write)
         || (alone == Some(k) && w.pending.Keys == {k} && !Takes(w.rows, w.pending[k].write))
  }

  lemma BeginIsOrderly(w: World, a: Action, alone: Option<nat>)
    requires Orderly(w, alone) && a.Begin? && Enabled(w, a) && MayBegin(w, a.op, alone)
    ensures Orderly(Act(w, a), if Renames(a.op) then Some(a.k) else alone)
  {
    WritesAreJustified(w.rows, a.op, a.now);
    var attempt := Attempted(w.rows, a.op, a.now);
    if attempt.Writing? {
      BegunLeavesNames(w.rows, a.op, attempt.write, a.now);
    }
  }

  lemma BegunLeavesNames(t: Table, op: Op, w: Write, now: Time)
    requires KeyedById(t) && UniqueLive(t) && Justified(t, op, w, now)
    requires op.UpdateUser? ==> !Held(t, op.id, op.profile.email, op.profile.name)
    ensures if Renames(op) then !Takes(t, w) else LeavesNames(t, w)
  {
  }

  /** Writes that leave names alone do not disturb each other. */
  lemma LandingLeavesNames(t: Table, w: Write, now: Time, other: Write)
    requires LeavesNames(t, w) && LeavesNames(t, other)
    ensures LeavesNames(Commit(t, w, now).0, other)
    ensures UniqueLive(t) ==> !Takes(t, w)
  {
    if w.Ban? {
      EveryBanIsStoredAsPermanent(w.ban);
    }
  }

  lemma FinishIsOrderly(w: World, a: Action, alone: Option<nat>)
    requires Orderly(w, alone) && a.Finish? && Enabled(w, a)
    ensures Orderly(Act(w, a), alone)
  {
    if a.io {
      var write := w.pending[a.k].write;
      CommitKeepsKeys(w.rows, write, a.now);
      CommitKeepsUniqueIff(w.rows, write, a.now);
      if LeavesNames(w.rows, write) {
        LandingLeavesNames(w.rows, write, a.now, write);
        forall j | j in w.pending && LeavesNames(w.rows, w.pending[j].write)
          ensures LeavesNames(Commit(w.rows, write, a.now).0, w.pending[j].write)
        {
          LandingLeavesNames(w.rows, write, a.now, w.pending[j].write);
        }
      }
    }
  }

  /** With registrations, profile updates and deletions run one at a time, and everything else interleaved
      freely, live emails and names stay distinct over every run. */
  lemma {:induction false} ExclusiveRenamesKeepUnique(w: World, actions: seq<Action>, alone: Option<nat>)
    requires Orderly(w, alone) && ValidRun(w, actions) && Exclusive(w, actions, alone)
    ensures UniqueLive(Run(w, actions).rows)
    decreases |actions|
  {
    if actions != [] {
      var a := actions[0];
      match a
      case Begin(k, op, _) =>
        BeginIsOrderly(w, a, alone);
        ExclusiveRenamesKeepUnique(Act(w, a), actions[1..], if Renames(op) then Some(k) else alone);
      case Finish(_, _, _) =>
        FinishIsOrderly(w, a, alone);
        ExclusiveRenamesKeepUnique(Act(w, a), actions[1..], alone);
    }
  }

  lemma StartIsOrderly(t: Table)
    requires KeyedById(t) && UniqueLive(t)
    ensures Orderly(Start(t), None)
  {
  }
}
