/** Concurrent service calls: the read and the write of a call are separate steps, and the steps of any
    number of calls mix freely. */
module Interleaving {
  import opened Base
  import opened Domain
  import opened UserStore
  import opened UserService

  /** A call that has read and computed but not written yet. */
  datatype Pending = Pending(write: Write, reply: Option<UserData>, lenient: bool)

  /** `replies` are the users handed back to callers so far. */
  datatype World = World(rows: Table, pending: map<nat, Pending>, replies: seq<UserData>)

  datatype Action =
    | Begin(k: nat, op: Op, now: Time)
    | Finish(k: nat, now: Time, io: bool)

  function Start(t: Table): World {
    World(t, map[], [])
  }

  ghost predicate Enabled(w: World, a: Action) {
    match a
    case Begin(k, op, _) => k !in w.pending && ValidOp(w.rows, op)
    case Finish(k, _, _) => k in w.pending
  }

  function Handed(reply: Option<UserData>): seq<UserData> {
    if reply.Some? then [reply.value] else []
  }

  function Act(w: World, a: Action): World {
    match a
    case Begin(k, op, now) =>
      (match Attempted(w.rows, op, now)
       case Refused(_) => w
       case Answered(u) => w.(replies := w.replies + [u])
       case Writing(write, reply) => w.(pending := w.pending[k := Pending(write, reply, op.Authenticate?)]))
    case Finish(k, now, io) =>
      if k !in w.pending then w
      else
        var p := w.pending[k];
        var (rows, error) := if io then Commit(w.rows, p.write, now) else (w.rows, Some(StoreFailure));
        World(rows, w.pending - {k}, w.replies + if error.None? || p.lenient then Handed(p.reply) else [])
  }

  function Run(w: World, actions: seq<Action>): World
    decreases |actions|
  {
    if actions == [] then w else Run(Act(w, actions[0]), actions[1..])
  }

  ghost predicate ValidRun(w: World, actions: seq<Action>)
    decreases |actions|
  {
    actions == [] || (Enabled(w, actions[0]) && ValidRun(Act(w, actions[0]), actions[1..]))
  }

  /** A call served alone is the interleaving in which its two steps are adjacent. */
  lemma ServedIsTwoSteps(t: Table, history: seq<HistoryEntry>, op: Op, env: Env)
    requires env.readOk
    ensures var w := Run(Start(t), [Begin(0, op, env.now), Finish(0, env.now, env.writeOk)]);
            var o := Served(t, history, op, env);
            w.rows == o.rows && w.replies == if o.reply.Success? then Handed(o.reply.value) else []
  {
    RunTwo(Start(t), Begin(0, op, env.now), Finish(0, env.now, env.writeOk));
    if Attempted(t, op, env.now).Writing? {
      FinishIsLanding(t, history, op, env);
    }
  }

  lemma RunTwo(w: World, a: Action, b: Action)
    ensures Run(w, [a, b]) == Act(Act(w, a), b)
  {
    assert [a, b][1..] == [b] && [b][1..] == [];
    assert Run(Act(w, a), [b]) == Run(Act(Act(w, a), b), []);
  }

  lemma FinishIsLanding(t: Table, history: seq<HistoryEntry>, op: Op, env: Env)
    requires Attempted(t, op, env.now).Writing?
    ensures var a := Attempted(t, op, env.now);
            var begun := World(t, map[0 := Pending(a.write, a.reply, op.Authenticate?)], []);
            var w := Act(begun, Finish(0, env.now, env.writeOk));
            var o := Finished(t, history, a.write, a.reply, op.Authenticate?, env);
            w.rows == o.rows && w.replies == if o.reply.Success? then Handed(o.reply.value) else []
  {
  }

  // ----- the derived columns -----

  ghost predicate ColumnsAgree(w: World) {
    && KeyedById(w.rows) && TableCoherent(w.rows)
    && forall k | k in w.pending :: w.pending[k].write.Ban? ==> w.pending[k].write.ban.isBanned
  }

  lemma ColumnsAgreeStep(w: World, a: Action)
    requires ColumnsAgree(w) && Enabled(w, a)
    ensures ColumnsAgree(Act(w, a))
  {
    match a
    case Begin(k, op, now) => WritesAreJustified(w.rows, op, now);
    case Finish(k, now, io) =>
      CommitKeepsKeys(w.rows, w.pending[k].write, now);
      CommitKeepsCoherentIff(w.rows, w.pending[k].write, now);
  }

  /** Under every interleaving each row keeps `is_banned` and the three subscription columns equal to
      what its two JSON columns say. */
  lemma {:induction false} ColumnsAgreeRun(w: World, actions: seq<Action>)
    requires ColumnsAgree(w) && ValidRun(w, actions)
    ensures ColumnsAgree(Run(w, actions))
    decreases |actions|
  {
    if actions != [] {
      ColumnsAgreeStep(w, actions[0]);
      ColumnsAgreeRun(Act(w, actions[0]), actions[1..]);
    }
  }

  // ----- passwords -----

  predicate StoresHash(w: Write) {
    match w
    case Create(u) => IsHashedPassword(u.password)
    case Update(u) => IsHashedPassword(u.password)
    case _ => true
  }

  predicate IsBlank(reply: Option<UserData>) {
    reply.Some? ==> reply.value.password == ""
  }

  ghost predicate PasswordsKept(w: World) {
    && KeyedById(w.rows)
    && (forall id | id in w.rows :: IsHashedPassword(w.rows[id].password))
    && (forall k | k in w.pending :: StoresHash(w.pending[k].write) && IsBlank(w.pending[k].reply))
    && (forall i | 0 <= i < |w.replies| :: w.replies[i].password == "")
  }

  lemma RepliesAreBlank(t: Table, op: Op, now: Time)
    ensures var a := Attempted(t, op, now);
            && (a.Answered? ==> a.user.password == "")
            && (a.Writing? ==> IsBlank(a.reply))
  {
  }

  lemma PasswordsKeptStep(w: World, a: Action)
    requires PasswordsKept(w) && Enabled(w, a)
    ensures PasswordsKept(Act(w, a))
  {
    match a
    case Begin(k, op, now) =>
      WritesAreJustified(w.rows, op, now);
      RepliesAreBlank(w.rows, op, now);
    case Finish(k, now, io) =>
      CommitKeepsHashes(w.rows, w.pending[k].write, now);
  }

  lemma CommitKeepsHashes(t: Table, w: Write, now: Time)
    requires KeyedById(t) && StoresHash(w)
    requires forall id | id in t :: IsHashedPassword(t[id].password)
    ensures var t' := Commit(t, w, now).0;
            KeyedById(t') && forall id | id in t' :: IsHashedPassword(t'[id].password)
  {
    CommitKeepsKeys(t, w, now);
  }

  /** Stored passwords stay bcrypt hashes and every user handed back has an empty password. */
  lemma {:induction false} PasswordsKeptRun(w: World, actions: seq<Action>)
    requires PasswordsKept(w) && ValidRun(w, actions)
    ensures PasswordsKept(Run(w, actions))
    decreases |actions|
  {
    if actions != [] {
      PasswordsKeptStep(w, actions[0]);
      PasswordsKeptRun(Act(w, actions[0]), actions[1..]);
    }
  }

  // ----- roles -----

  /** A pending write cannot change the role of a row, and cannot ban an administrator that `spared` holds. */
  ghost predicate RoleSafe(t: Table, w: Write, spared: set<string>) {
    match w
    case Create(u) => u.role == ROLE_USER
    case Update(u) => u.id in t && u.role == t[u.id].role && (u.id in spared ==> !BanFlag(u.banInfo))
    case Ban(id, _) => id in t && id !in spared
    case _ => true
  }

  /** `spared` are administrators of the starting table `t0` that were not banned there. */
  ghost predicate RolesKept(w: World, t0: Table, spared: set<string>) {
    && KeyedById(w.rows)
    && (forall id | id in t0 :: id in w.rows && w.rows[id].role == t0[id].role)
    && (forall id | id in w.rows && id !in t0 :: w.rows[id].role == ROLE_USER)
    && (forall id | id in spared :: id in t0 && IsAdminRole(t0[id].role) && !BanFlag(w.rows[id].banInfo))
    && (forall k | k in w.pending :: RoleSafe(w.rows, w.pending[k].write, spared))
  }

  lemma CommitKeepsRoles(t: Table, w: Write, now: Time, spared: set<string>)
    requires KeyedById(t) && RoleSafe(t, w, spared)
    ensures var t' := Commit(t, w, now).0;
            && KeyedById(t')
            && (forall id | id in t :: id in t' && t'[id].role == t[id].role)
            && (forall id | id in t' && id !in t :: t'[id].role == ROLE_USER)
            && (forall id | id in t && id in spared && !BanFlag(t[id].banInfo) :: !BanFlag(t'[id].banInfo))
  {
    CommitKeepsKeys(t, w, now);
  }

  lemma BeginIsRoleSafe(w: World, op: Op, now: Time, t0: Table, spared: set<string>)
    requires RolesKept(w, t0, spared) && ValidOp(w.rows, op)
    ensures var a := Attempted(w.rows, op, now);
            a.Writing? ==> RoleSafe(w.rows, a.write, spared)
  {
    WritesAreJustified(w.rows, op, now);
  }

  lemma RolesKeptStep(w: World, a: Action, t0: Table, spared: set<string>)
    requires RolesKept(w, t0, spared) && Enabled(w, a)
    ensures RolesKept(Act(w, a), t0, spared)
  {
    match a
    case Begin(k, op, now) => BeginIsRoleSafe(w, op, now, t0, spared);
    case Finish(k, now, io) =>
      if io {
        var t' := Commit(w.rows, w.pending[k].write, now).0;
        CommitKeepsRoles(w.rows, w.pending[k].write, now, spared);
        forall j | j in w.pending
          ensures RoleSafe(t', w.pending[j].write, spared)
        {
          RoleSafeStays(w.rows, t', w.pending[j].write, spared);
        }
      }
  }

  lemma RoleSafeStays(t: Table, t': Table, w: Write, spared: set<string>)
    requires RoleSafe(t, w, spared)
    requires forall id | id in t :: id in t' && t'[id].role == t[id].role
    ensures RoleSafe(t', w, spared)
  {
  }

  /** Under every interleaving no row changes its role, new rows are plain users, and an administrator
      or moderator who starts unbanned is never banned. */
  lemma {:induction false} RolesKeptRun(w: World, actions: seq<Action>, t0: Table, spared: set<string>)
    requires RolesKept(w, t0, spared) && ValidRun(w, actions)
    ensures RolesKept(Run(w, actions), t0, spared)
    decreases |actions|
  {
    if actions != [] {
      RolesKeptStep(w, actions[0], t0, spared);
      RolesKeptRun(Act(w, actions[0]), actions[1..], t0, spared);
    }
  }

  /** The three together, from any table that is in order: derived columns, passwords and roles survive every
      interleaving of any number of calls, and administrators who start unbanned stay so. */
  lemma EveryInterleavingKeepsTheTable(t0: Table, actions: seq<Action>)
    requires KeyedById(t0) && TableCoherent(t0) && forall id | id in t0 :: IsHashedPassword(t0[id].password)
    requires ValidRun(Start(t0), actions)
    ensures var w := Run(Start(t0), actions);
            && TableCoherent(w.rows)
            && (forall id | id in w.rows :: IsHashedPassword(w.rows[id].password))
            && (forall u | u in w.replies :: u.password == "")
            && (forall id | id in t0 :: id in w.rows && w.rows[id].role == t0[id].role)
            && (forall id | id in t0 && IsAdminRole(t0[id].role) && !t0[id].isBanned :: !w.rows[id].isBanned)
  {
    var spared := set id | id in t0 && IsAdminRole(t0[id].role) && !BanFlag(t0[id].banInfo);
    ColumnsAgreeRun(Start(t0), actions);
    PasswordsKeptRun(Start(t0), actions);
    RolesKeptRun(Start(t0), actions, t0, spared);
    var w := Run(Start(t0), actions);
    forall id | id in t0 && IsAdminRole(t0[id].role) && !t0[id].isBanned
      ensures !w.rows[id].isBanned
    {
      assert id in spared;
    }
  }

  // ----- what interleaving breaks -----

  /** Two calls that read the same table, the second of which writes first. */
  function Overlap(first: Op, second: Op, now: Time): seq<Action> {
    [Begin(0, first, now), Begin(1, second, now), Finish(1, now, true)]
  }

  lemma OverlapRuns(t: Table, first: Op, second: Op, now: Time)
    requires ValidOp(t, first) && ValidOp(t, second)
    requires Attempted(t, first, now).Writing? && Attempted(t, second, now).Writing?
    ensures var before, late := Overlap(first, second, now), Finish(0, now, true);
            var rows := Commit(t, Attempted(t, second, now).write, now).0;
            && ValidRun(Start(t), before) && Enabled(Run(Start(t), before), late)
            && Run(Start(t), before).rows == rows
            && Act(Run(Start(t), before), late).rows == Commit(rows, Attempted(t, first, now).write, now).0
  {
    RunThree(Start(t), Begin(0, first, now), Begin(1, second, now), Finish(1, now, true));
  }

  lemma RunThree(w: World, a: Action, b: Action, c: Action)
    ensures Run(w, [a, b, c]) == Act(Act(Act(w, a), b), c)
    ensures ValidRun(w, [a, b, c]) <==> Enabled(w, a) && Enabled(Act(w, a), b) && Enabled(Act(Act(w, a), b), c)
  {
    assert [a, b, c][1..] == [b, c] && [b, c][1..] == [c] && [c][1..] == [];
    var w1 := Act(w, a);
    var w2 := Act(w1, b);
    assert Run(w1, [b, c]) == Run(w2, [c]);
    assert Run(w2, [c]) == Run(Act(w2, c), []);
    assert ValidRun(w2, [c]) <==> Enabled(w2, c);
    assert ValidRun(w1, [b, c]) <==> Enabled(w1, b) && ValidRun(w2, [c]);
  }

  /** A ban whose write lands after a concurrent deletion brings the deleted user back: for every live
      user who is not an administrator. */
  lemma LateBanRevivesDeletedUser(t: Table, id: string, reason: string, bannedBy: string, duration: Option<int>,
                                  now: Time)
    requires KeyedById(t) && Live(t, id) && !IsAdminRole(t[id].role)
    ensures var before := Overlap(BanUser(id, reason, bannedBy, duration), DeleteUser(id), now);
            var late := Finish(0, now, true);
            && ValidRun(Start(t), before) && Enabled(Run(Start(t), before), late)
            && !Live(Run(Start(t), before).rows, id)
            && Live(Act(Run(Start(t), before), late).rows, id)
  {
    OverlapRuns(t, BanUser(id, reason, bannedBy, duration), DeleteUser(id), now);
  }

  /** A login that read before a ban and writes after it erases the ban: for every live unbanned user who
      is not an administrator. */
  lemma LateLoginErasesBan(t: Table, id: string, password: string, reason: string, bannedBy: string,
                           duration: Option<int>, now: Time)
    requires KeyedById(t) && Live(t, id) && !IsAdminRole(t[id].role) && !BanFlag(t[id].banInfo)
    requires IsHashedPassword(password) ==> t[id].password == password
    ensures var before := Overlap(Authenticate(t[id].email, password, Some(id), true, true),
                                  BanUser(id, reason, bannedBy, duration), now);
            var late := Finish(0, now, true);
            && ValidRun(Start(t), before) && Enabled(Run(Start(t), before), late)
            && Live(Run(Start(t), before).rows, id) && BanFlag(Run(Start(t), before).rows[id].banInfo)
            && Live(Act(Run(Start(t), before), late).rows, id)
            && !BanFlag(Act(Run(Start(t), before), late).rows[id].banInfo)
  {
    OverlapRuns(t, Authenticate(t[id].email, password, Some(id), true, true),
                BanUser(id, reason, bannedBy, duration), now);
  }

  /** Two registrations that both looked before either wrote create two live users of one email, in a schema
      whose only key is the id. */
  lemma ConcurrentRegistrationsShareAnEmail(t: Table, a: string, b: string, p: Profile, hash: string, now: Time)
    requires KeyedById(t) && a !in t && b !in t && a != b && !Exists(t, p.email, p.name) && IsHashedPassword(hash)
    ensures var before := Overlap(Register(a, p, Some(hash)), Register(b, p, Some(hash)), now);
            var late := Finish(0, now, true);
            && ValidRun(Start(t), before) && Enabled(Run(Start(t), before), late)
            && var rows := Act(Run(Start(t), before), late).rows;
               Live(rows, a) && Live(rows, b) && rows[a].email == rows[b].email
  {
    OverlapRuns(t, Register(a, p, Some(hash)), Register(b, p, Some(hash)), now);
  }
}
