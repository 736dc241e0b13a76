/** The profile-update RPC (user_handler.go and UpdateFromProto in mappers.go): fetch, overlay, update. */
module UserHandler {
  import opened Base
  import opened Domain
  import opened UserStore
  import opened UserService
  import opened CallLaws

  /** Status and role carry the domain names; UNSPECIFIED means absent, as an empty text does. */
  datatype UpdateRequest = UpdateRequest(
    id: string, name: string, email: string, password: string, phone: string, serviceEmail: string,
    status: string, role: string)

  function OrElse(given: string, current: string): string {
    if given != "" then given else current
  }

  /** The request laid over the fetched user. */
  function Overlaid(u: UserData, req: UpdateRequest): UserData {
    u.(name := OrElse(req.name, u.name), email := OrElse(req.email, u.email),
       password := OrElse(req.password, u.password), phone := OrElse(req.phone, u.phone),
       serviceEmail := OrElse(req.serviceEmail, u.serviceEmail),
       status := if req.status != STATUS_UNSPECIFIED then req.status else u.status,
       role := if req.role != ROLE_UNSPECIFIED then req.role else u.role)
  }

  function ProfileOf(u: UserData): Profile {
    Profile(u.name, u.email, u.password, u.phone, u.serviceEmail)
  }

  method UpdateFromProto(user: User, req: UpdateRequest)
    modifies user
    ensures user.View() == Overlaid(old(user.View()), req)
  {
    UpdateContacts(user, req);
    if req.password != "" {
      user.password := req.password;
    }
    if req.status != STATUS_UNSPECIFIED {
      user.status := req.status;
    }
    if req.role != ROLE_UNSPECIFIED {
      user.role := req.role;
    }
  }

  method UpdateContacts(user: User, req: UpdateRequest)
    modifies user
    ensures user.View() == old(user.View()).(
              name := OrElse(req.name, old(user.name)), email := OrElse(req.email, old(user.email)),
              phone := OrElse(req.phone, old(user.phone)),
              serviceEmail := OrElse(req.serviceEmail, old(user.serviceEmail)))
  {
    if req.name != "" {
      user.name := req.name;
    }
    if req.email != "" {
      user.email := req.email;
    }
    if req.phone != "" {
      user.phone := req.phone;
    }
    if req.serviceEmail != "" {
      user.serviceEmail := req.serviceEmail;
    }
  }

  /** Two service calls: the fetch under `first`, the update under `second`. */
  function RpcServed(t: Table, history: seq<HistoryEntry>, req: UpdateRequest, hashed: Option<string>,
                     first: Env, second: Env): Outcome {
    match Served(t, history, GetUser(req.id), first).reply
    case Success(Some(u)) =>
      var o := Served(t, history, Op.UpdateUser(u.id, ProfileOf(Overlaid(u, req)), hashed), second);
      if o.reply.Success? then o else o.(reply := Failure(Internal))
    case _ => Outcome(t, history, Failure(NotFound))
  }

  method UpdateUserRpc(service: Service, req: UpdateRequest, hashed: Option<string>, first: Env, second: Env)
    returns (r: Result<User, ServiceError>)
    modifies service.repo
    ensures var o := RpcServed(old(service.repo.rows), old(service.audit.history), req, hashed, first, second);
            service.repo.rows == o.rows && service.audit.history == o.history && Reports(r, o.reply)
  {
    var found := service.GetUser(req.id, first);
    if found.Failure? {
      return Failure(NotFound);
    }
    var user := found.value;
    UpdateFromProto(user, req);
    var profile := Profile(user.name, user.email, user.password, user.phone, user.serviceEmail);
    var updated := service.UpdateUser(user.id, profile, hashed, second);
    r := if updated.Failure? then Failure(Internal) else updated;
  }

  /** What a request gives is taken, what it leaves out stays; a status or role of UNSPECIFIED leaves it out. */
  lemma OverlayTakesWhatIsGiven(u: UserData, req: UpdateRequest)
    ensures var o := Overlaid(u, req);
            && (if req.name == "" then o.name == u.name else o.name == req.name)
            && (if req.email == "" then o.email == u.email else o.email == req.email)
            && (if req.password == "" then o.password == u.password else o.password == req.password)
            && (if req.phone == "" then o.phone == u.phone else o.phone == req.phone)
            && (if req.serviceEmail == "" then o.serviceEmail == u.serviceEmail else o.serviceEmail == req.serviceEmail)
            && (if req.status == "UNSPECIFIED" then o.status == u.status else o.status == req.status)
            && (if req.role == "UNSPECIFIED" then o.role == u.role else o.role == req.role)
            && o == u.(name := o.name, email := o.email, password := o.password, phone := o.phone,
                       serviceEmail := o.serviceEmail, status := o.status, role := o.role)
  {
  }

  /** The RPC succeeds exactly when both calls find the database answering and the user live, the user is not
      banned at the fetch, and a password that does not look hashed can be hashed; if the fetch fails, for
      whatever reason, the answer is NotFound, and if the update does, Internal. */
  lemma RpcSucceedsIff(t: Table, history: seq<HistoryEntry>, req: UpdateRequest, hashed: Option<string>,
                       first: Env, second: Env)
    requires KeyedById(t) && TableCoherent(t)
    ensures var reply := RpcServed(t, history, req, hashed, first, second).reply;
            var fetched := first.readOk && Live(t, req.id) && !BanInForce(t[req.id].banInfo, first.now);
            && (reply.Success? <==>
                  fetched && second.readOk && second.writeOk
                  && (req.password == "" || IsHashedPassword(req.password) || hashed.Some?))
            && (!fetched ==> reply == Failure(NotFound))
            && (fetched && reply.Failure? ==> reply == Failure(Internal))
  {
    GetUserLaw(t, history, req.id, first);
    var fetched := Served(t, history, GetUser(req.id), first).reply;
    if fetched.Success? {
      var p := ProfileOf(Overlaid(fetched.value.value, req));
      UpdateUserLaw(t, history, req.id, p, hashed, second);
    }
  }

  /** What the fetch hands to the overlay: the row without its password. */
  lemma FetchedUser(t: Table, history: seq<HistoryEntry>, id: string, env: Env)
    requires KeyedById(t)
    ensures var reply := Served(t, history, GetUser(id), env).reply;
            reply.Success? ==>
              && Live(t, id)
              && reply.value ==
                 Some(ToDomain(t[id]).(password := "", banInfo := ClearedIfExpired(t[id].banInfo, env.now)))
  {
  }

  /** What the update then writes. */
  lemma UpdatedProfile(t: Table, history: seq<HistoryEntry>, id: string, p: Profile, hashed: Option<string>, env: Env)
    requires KeyedById(t) && Live(t, id) && Coherent(t[id])
    requires Served(t, history, Op.UpdateUser(id, p, hashed), env).reply.Success?
    ensures var replaced := p.password != "" && !IsHashedPassword(p.password);
            (replaced ==> hashed.Some?) &&
            Served(t, history, Op.UpdateUser(id, p, hashed), env).rows ==
              t[id := t[id].(name := p.name, email := p.email, phone := p.phone, serviceEmail := p.serviceEmail,
                             password := if replaced then hashed.value else t[id].password, updatedAt := env.now)]
  {
    LoadStoreIsIdentityIffCoherent(t[id]);
  }

  lemma FailedUpdateChangesNothing(t: Table, history: seq<HistoryEntry>, id: string, p: Profile,
                                   hashed: Option<string>, env: Env)
    requires KeyedById(t) && Served(t, history, Op.UpdateUser(id, p, hashed), env).reply.Failure?
    ensures Served(t, history, Op.UpdateUser(id, p, hashed), env).rows == t
  {
  }

  /** A successful update RPC changes the named profile columns and `updated_at` and nothing else: a status
      or role in the request is dropped, and so is a password that already looks hashed. */
  lemma RpcChangesOnlyTheProfile(t: Table, history: seq<HistoryEntry>, req: UpdateRequest, hashed: Option<string>,
                                 first: Env, second: Env)
    requires KeyedById(t) && TableCoherent(t) && HashForm(hashed)
    requires RpcServed(t, history, req, hashed, first, second).reply.Success?
    ensures Live(t, req.id)
    ensures var row := t[req.id];
            var replaced := req.password != "" && !IsHashedPassword(req.password);
            (replaced ==> hashed.Some?) &&
            RpcServed(t, history, req, hashed, first, second).rows ==
              t[req.id := row.(name := OrElse(req.name, row.name), email := OrElse(req.email, row.email),
                               phone := OrElse(req.phone, row.phone),
                               serviceEmail := OrElse(req.serviceEmail, row.serviceEmail),
                               password := if replaced then hashed.value else row.password,
                               updatedAt := second.now)]
    ensures var o := RpcServed(t, history, req, hashed, first, second);
            req.id in o.rows && o.reply.value == Some(ToDomain(o.rows[req.id]).(password := "")) && o.history == history
  {
    FetchedUser(t, history, req.id, first);
    var u := Served(t, history, GetUser(req.id), first).reply.value.value;
    UpdatedProfile(t, history, req.id, ProfileOf(Overlaid(u, req)), hashed, second);
  }

  /** A failed one changes nothing. */
  lemma FailedRpcChangesNothing(t: Table, history: seq<HistoryEntry>, req: UpdateRequest, hashed: Option<string>,
                                first: Env, second: Env)
    requires KeyedById(t) && RpcServed(t, history, req, hashed, first, second).reply.Failure?
    ensures RpcServed(t, history, req, hashed, first, second).rows == t
  {
    FetchedUser(t, history, req.id, first);
    var fetched := Served(t, history, GetUser(req.id), first).reply;
    if fetched.Success? {
      FailedUpdateChangesNothing(t, history, req.id, ProfileOf(Overlaid(fetched.value.value, req)), hashed, second);
    }
  }
}
