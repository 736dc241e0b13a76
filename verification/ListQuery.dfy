/** PostgresUserRepository.List: a filter becomes numbered-placeholder SQL and an argument list,
    which runs once as a COUNT and once as a LIMIT/OFFSET query. */
module ListQuery {
  import opened Base
  import opened Domain
  import opened Ilike
  import opened SqlText

  datatype Value = Text(text: string) | Flag(flag: bool) | Num(num: int)

  // ----- what a condition means to the database -----

  function Column(row: Row, name: string): Option<Value> {
    if name == "status" then Some(Text(row.status))
    else if name == "role" then Some(Text(row.role))
    else if name == "is_banned" then Some(Flag(row.isBanned))
    else if name == "subscription_status" then Some(Text(row.subscriptionStatus))
    else if name == "subscription_level" then Some(Text(row.subscriptionLevel))
    else if name == "name" then Some(Text(row.name))
    else if name == "email" then Some(Text(row.email))
    else if name == "phone" then Some(Text(row.phone))
    else None
  }

  /** None is a type error. */
  function Compare(op: Op, left: Value, right: Value, fold: CaseFold): Option<bool> {
    match (left, right)
    case (Text(a), Text(b)) =>
      Some(match op
           case Eq => a == b
           case Ne => a != b
           case ILikeOp => ILike(fold, a, b))
    case (Flag(a), Flag(b)) =>
      (match op
       case Eq => Some(a == b)
       case Ne => Some(a != b)
       case ILikeOp => None)
    case _ => None
  }

  /** None is a query the database rejects: an unknown column, a missing argument or a type error. */
  function Eval(c: Cond, row: Row, args: seq<Value>, fold: CaseFold): Option<bool> {
    match c
    case Cmp(name, op, k) =>
      var column := Column(row, name);
      if column.None? || !(1 <= k <= |args|) then None else Compare(op, column.value, args[k - 1], fold)
    case And(l, r) =>
      var a, b := Eval(l, row, args, fold), Eval(r, row, args, fold);
      if a.None? || b.None? then None else Some(a.value && b.value)
    case Or(l, r) =>
      var a, b := Eval(l, row, args, fold), Eval(r, row, args, fold);
      if a.None? || b.None? then None else Some(a.value || b.value)
  }

  lemma {:induction false} MoreArgumentsChangeNothing(
    c: Cond, row: Row, args: seq<Value>, extra: seq<Value>, fold: CaseFold)
    requires Eval(c, row, args, fold).Some?
    ensures Eval(c, row, args + extra, fold) == Eval(c, row, args, fold)
  {
    if !c.Cmp? {
      MoreArgumentsChangeNothing(c.left, row, args, extra, fold);
      MoreArgumentsChangeNothing(c.right, row, args, extra, fold);
    }
  }

  // ----- filters -----

  /** The value of a UserFilter. An empty text or an absent option asks for nothing. */
  datatype FilterData = FilterData(
    page: int, pageSize: int, search: string, status: string, role: string,
    isBanned: Option<bool>, subStatus: Option<string>, subLevel: Option<string>)

  predicate Asked(text: string) {
    text != "" && text != STATUS_UNSPECIFIED
  }

  predicate AskedOption(text: Option<string>) {
    text.Some? && text.value != ""
  }

  predicate SearchHit(search: string, row: Row, fold: CaseFold) {
    var p := SearchPattern(search);
    ILike(fold, row.name, p) || ILike(fold, row.email, p) || ILike(fold, row.phone, p)
  }

  /** The plain meaning of a filter. */
  predicate Wanted(f: FilterData, row: Row, fold: CaseFold) {
    && row.status != STATUS_DELETED
    && (f.search != "" ==> SearchHit(f.search, row, fold))
    && (Asked(f.status) ==> row.status == f.status)
    && (Asked(f.role) ==> row.role == f.role)
    && (f.isBanned.Some? ==> row.isBanned == f.isBanned.value)
    && (AskedOption(f.subStatus) ==> row.subscriptionStatus == f.subStatus.value)
    && (AskedOption(f.subLevel) ==> row.subscriptionLevel == f.subLevel.value)
  }

  /** Empty texts, UNSPECIFIED and absent options ask for nothing: such a filter wants every live row. */
  lemma NothingAskedWantsEveryLiveRow(f: FilterData, row: Row, fold: CaseFold)
    requires f.search == "" && f.status in ["", "UNSPECIFIED"] && f.role in ["", "UNSPECIFIED"] && f.isBanned.None?
    requires f.subStatus in [None, Some("")] && f.subLevel in [None, Some("")]
    ensures Wanted(f, row, fold) <==> row.status != "DELETED"
  {
  }

  // ----- the conditions List appends -----

  datatype Clause = Clause(conds: seq<Cond>, args: seq<Value>)

  function SearchCond(k: nat): Cond {
    Or(Cmp("name", ILikeOp, k), Or(Cmp("email", ILikeOp, k), Cmp("phone", ILikeOp, k)))
  }

  function With(b: Clause, c: Cond, v: Value): Clause {
    Clause(b.conds + [c], b.args + [v])
  }

  function WithSearch(b: Clause, search: string): Clause {
    if search != "" then With(b, SearchCond(|b.args| + 1), Text(SearchPattern(search))) else b
  }

  function WithText(b: Clause, asked: bool, column: string, text: string): Clause {
    if asked then With(b, Cmp(column, Eq, |b.args| + 1), Text(text)) else b
  }

  function WithFlag(b: Clause, flag: Option<bool>): Clause {
    if flag.Some? then With(b, Cmp("is_banned", Eq, |b.args| + 1), Flag(flag.value)) else b
  }

  function OrEmpty(text: Option<string>): string {
    if text.Some? then text.value else ""
  }

  const LIVE_ONLY := Clause([Cmp("status", Ne, 1)], [Text(STATUS_DELETED)])

  function Compiled(f: FilterData): Clause {
    var b1 := WithSearch(LIVE_ONLY, f.search);
    var b2 := WithText(b1, Asked(f.status), "status", f.status);
    var b3 := WithText(b2, Asked(f.role), "role", f.role);
    var b4 := WithFlag(b3, f.isBanned);
    var b5 := WithText(b4, AskedOption(f.subStatus), "subscription_status", OrEmpty(f.subStatus));
    WithText(b5, AskedOption(f.subLevel), "subscription_level", OrEmpty(f.subLevel))
  }

  /** The conditions joined by AND. */
  function Conjoined(cs: seq<Cond>): Cond
    requires cs != []
  {
    if |cs| == 1 then cs[0] else And(cs[0], Conjoined(cs[1..]))
  }

  /** The clause is accepted by the database and selects a row exactly when `m` holds. */
  ghost predicate Selects(b: Clause, row: Row, fold: CaseFold, m: bool) {
    b.conds != [] && Eval(Conjoined(b.conds), row, b.args, fold) == Some(m)
  }

  lemma {:induction false} ConjoinedLast(
    cs: seq<Cond>, c: Cond, row: Row, args: seq<Value>, fold: CaseFold, m: bool, n: bool)
    requires cs != []
    requires Eval(Conjoined(cs), row, args, fold) == Some(m)
    requires Eval(c, row, args, fold) == Some(n)
    ensures Eval(Conjoined(cs + [c]), row, args, fold) == Some(m && n)
  {
    if |cs| == 1 {
      assert (cs + [c])[1..] == [c];
    } else {
      assert (cs + [c])[1..] == cs[1..] + [c];
      ConjoinedLast(cs[1..], c, row, args, fold, Eval(Conjoined(cs[1..]), row, args, fold).value, n);
    }
  }

  lemma WithSelects(b: Clause, c: Cond, v: Value, row: Row, fold: CaseFold, m: bool, n: bool)
    requires Selects(b, row, fold, m)
    requires Eval(c, row, b.args + [v], fold) == Some(n)
    ensures Selects(With(b, c, v), row, fold, m && n)
  {
    MoreArgumentsChangeNothing(Conjoined(b.conds), row, b.args, [v], fold);
    ConjoinedLast(b.conds, c, row, b.args + [v], fold, m, n);
  }

  lemma SearchSelects(b: Clause, search: string, row: Row, fold: CaseFold, m: bool)
    requires Selects(b, row, fold, m)
    ensures Selects(WithSearch(b, search), row, fold, m && (search != "" ==> SearchHit(search, row, fold)))
  {
    if search != "" {
      var k, v := |b.args| + 1, Text(SearchPattern(search));
      NameColumns(row);
      var args := b.args + [v];
      assert args[k - 1] == v;
      assert Eval(SearchCond(k).right, row, args, fold) ==
             Some(ILike(fold, row.email, v.text) || ILike(fold, row.phone, v.text));
      WithSelects(b, SearchCond(k), v, row, fold, m, SearchHit(search, row, fold));
    }
  }

  lemma NameColumns(row: Row)
    ensures Column(row, "name") == Some(Text(row.name))
    ensures Column(row, "email") == Some(Text(row.email))
    ensures Column(row, "phone") == Some(Text(row.phone))
  {
    assert "name"[0] != "role"[0] && "email"[0] != "phone"[0];
  }

  lemma TextSelects(b: Clause, asked: bool, column: string, text: string, row: Row, fold: CaseFold, m: bool)
    requires Selects(b, row, fold, m)
    requires Column(row, column).Some? && Column(row, column).value.Text?
    ensures Selects(WithText(b, asked, column, text), row, fold,
                    m && (asked ==> Column(row, column).value.text == text))
  {
    if asked {
      var k, v := |b.args| + 1, Text(text);
      assert (b.args + [v])[k - 1] == v;
      WithSelects(b, Cmp(column, Eq, k), v, row, fold, m, Column(row, column).value.text == text);
    }
  }

  lemma FlagSelects(b: Clause, flag: Option<bool>, row: Row, fold: CaseFold, m: bool)
    requires Selects(b, row, fold, m)
    ensures Selects(WithFlag(b, flag), row, fold, m && (flag.Some? ==> row.isBanned == flag.value))
  {
    if flag.Some? {
      var k, v := |b.args| + 1, Flag(flag.value);
      assert (b.args + [v])[k - 1] == v;
      WithSelects(b, Cmp("is_banned", Eq, k), v, row, fold, m, row.isBanned == flag.value);
    }
  }

  /** The compiled clause selects exactly the wanted rows, whatever arguments follow its own. */
  lemma CompiledMeansWanted(f: FilterData, row: Row, fold: CaseFold, extra: seq<Value>)
    ensures Compiled(f).conds != []
    ensures Eval(Conjoined(Compiled(f).conds), row, Compiled(f).args + extra, fold) == Some(Wanted(f, row, fold))
  {
    FirstSelects(f, row, fold);
    RestSelects(f, FirstHalf(f), row, fold, WantedFirst(f, row, fold));
    MoreArgumentsChangeNothing(Conjoined(Compiled(f).conds), row, Compiled(f).args, extra, fold);
  }

  function FirstHalf(f: FilterData): Clause {
    var b1 := WithSearch(LIVE_ONLY, f.search);
    var b2 := WithText(b1, Asked(f.status), "status", f.status);
    var b3 := WithText(b2, Asked(f.role), "role", f.role);
    WithFlag(b3, f.isBanned)
  }

  predicate WantedFirst(f: FilterData, row: Row, fold: CaseFold) {
    && row.status != STATUS_DELETED
    && (f.search != "" ==> SearchHit(f.search, row, fold))
    && (Asked(f.status) ==> row.status == f.status)
    && (Asked(f.role) ==> row.role == f.role)
    && (f.isBanned.Some? ==> row.isBanned == f.isBanned.value)
  }

  lemma FirstSelects(f: FilterData, row: Row, fold: CaseFold)
    ensures Selects(FirstHalf(f), row, fold, WantedFirst(f, row, fold))
  {
    var m0 := row.status != STATUS_DELETED;
    assert Selects(LIVE_ONLY, row, fold, m0);
    var b1 := WithSearch(LIVE_ONLY, f.search);
    SearchSelects(LIVE_ONLY, f.search, row, fold, m0);
    var m1 := m0 && (f.search != "" ==> SearchHit(f.search, row, fold));
    var b2 := WithText(b1, Asked(f.status), "status", f.status);
    TextSelects(b1, Asked(f.status), "status", f.status, row, fold, m1);
    var m2 := m1 && (Asked(f.status) ==> row.status == f.status);
    var b3 := WithText(b2, Asked(f.role), "role", f.role);
    TextSelects(b2, Asked(f.role), "role", f.role, row, fold, m2);
    var m3 := m2 && (Asked(f.role) ==> row.role == f.role);
    FlagSelects(b3, f.isBanned, row, fold, m3);
  }

  lemma RestSelects(f: FilterData, b: Clause, row: Row, fold: CaseFold, m: bool)
    requires Selects(b, row, fold, m)
    ensures var b5 := WithText(b, AskedOption(f.subStatus), "subscription_status", OrEmpty(f.subStatus));
            Selects(WithText(b5, AskedOption(f.subLevel), "subscription_level", OrEmpty(f.subLevel)), row, fold,
                    m && (AskedOption(f.subStatus) ==> row.subscriptionStatus == f.subStatus.value)
                      && (AskedOption(f.subLevel) ==> row.subscriptionLevel == f.subLevel.value))
  {
    var b5 := WithText(b, AskedOption(f.subStatus), "subscription_status", OrEmpty(f.subStatus));
    TextSelects(b, AskedOption(f.subStatus), "subscription_status", OrEmpty(f.subStatus), row, fold, m);
    var m5 := m && (AskedOption(f.subStatus) ==> row.subscriptionStatus == f.subStatus.value);
    TextSelects(b5, AskedOption(f.subLevel), "subscription_level", OrEmpty(f.subLevel), row, fold, m5);
  }

  /** With every part asked for: the seven conditions, their columns and their arguments, in order. */
  lemma AllPartsAsked(f: FilterData)
    requires f.search != "" && Asked(f.status) && Asked(f.role) && f.isBanned.Some?
    requires AskedOption(f.subStatus) && AskedOption(f.subLevel)
    ensures Compiled(f).conds ==
            [Cmp("status", Ne, 1), Or(Cmp("name", ILikeOp, 2), Or(Cmp("email", ILikeOp, 2), Cmp("phone", ILikeOp, 2))),
             Cmp("status", Eq, 3), Cmp("role", Eq, 4), Cmp("is_banned", Eq, 5),
             Cmp("subscription_status", Eq, 6), Cmp("subscription_level", Eq, 7)]
    ensures Compiled(f).args ==
            [Text("DELETED"), Text("%" + f.search + "%"), Text(f.status), Text(f.role), Flag(f.isBanned.value),
             Text(f.subStatus.value), Text(f.subLevel.value)]
  {
  }

  // ----- placeholders -----

  function Params(c: Cond): set<nat> {
    match c
    case Cmp(_, _, k) => {k}
    case And(l, r) => Params(l) + Params(r)
    case Or(l, r) => Params(l) + Params(r)
  }

  ghost predicate OwnPlaceholders(b: Clause) {
    |b.conds| == |b.args| && forall i | 0 <= i < |b.conds| :: Params(b.conds[i]) == {i + 1}
  }

  /** Condition number k reads argument number k and no other, so no two conditions share one. */
  lemma EachPlaceholderNamesItsOwnArgument(f: FilterData)
    ensures OwnPlaceholders(Compiled(f))
  {
    SearchKeepsOwn(f.search);
    var b1 := WithSearch(LIVE_ONLY, f.search);
    TextKeepsOwn(b1, Asked(f.status), "status", f.status);
    var b2 := WithText(b1, Asked(f.status), "status", f.status);
    TextKeepsOwn(b2, Asked(f.role), "role", f.role);
    var b3 := WithText(b2, Asked(f.role), "role", f.role);
    FlagKeepsOwn(b3, f.isBanned);
    var b4 := WithFlag(b3, f.isBanned);
    TextKeepsOwn(b4, AskedOption(f.subStatus), "subscription_status", OrEmpty(f.subStatus));
    var b5 := WithText(b4, AskedOption(f.subStatus), "subscription_status", OrEmpty(f.subStatus));
    TextKeepsOwn(b5, AskedOption(f.subLevel), "subscription_level", OrEmpty(f.subLevel));
  }

  lemma SearchKeepsOwn(search: string)
    ensures OwnPlaceholders(WithSearch(LIVE_ONLY, search))
  {
    assert OwnPlaceholders(LIVE_ONLY);
    assert Params(SearchCond(2).right) == {2};
    WithKeepsOwn(LIVE_ONLY, SearchCond(2), Text(SearchPattern(search)));
  }

  lemma TextKeepsOwn(b: Clause, asked: bool, column: string, text: string)
    requires OwnPlaceholders(b)
    ensures OwnPlaceholders(WithText(b, asked, column, text))
  {
    WithKeepsOwn(b, Cmp(column, Eq, |b.args| + 1), Text(text));
  }

  lemma FlagKeepsOwn(b: Clause, flag: Option<bool>)
    requires OwnPlaceholders(b)
    ensures OwnPlaceholders(WithFlag(b, flag))
  {
    if flag.Some? {
      WithKeepsOwn(b, Cmp("is_banned", Eq, |b.args| + 1), Flag(flag.value));
    }
  }

  lemma WithKeepsOwn(b: Clause, c: Cond, v: Value)
    requires OwnPlaceholders(b)
    requires Params(c) == {|b.args| + 1}
    ensures OwnPlaceholders(With(b, c, v))
  {
  }

  // ----- the text of the conditions -----

  function Join(parts: seq<string>, separator: string): string {
    if parts == [] then ""
    else if |parts| == 1 then parts[0]
    else parts[0] + separator + Join(parts[1..], separator)
  }

  function PrimText(c: Cond): string {
    Render(PrimTokens(c))
  }

  lemma CmpTextIs(column: string, op: Op, k: nat)
    ensures PrimText(Cmp(column, op, k)) == column + (" " + (TokenText(OpSign(op)) + (" " + ("$" + Itoa(k)))))
  {
    RenderCons(OpSign(op), [Param(k)]);
    RenderCons(Word(column), [OpSign(op), Param(k)]);
    assert [Word(column)] + ([OpSign(op)] + [Param(k)]) == PrimTokens(Cmp(column, op, k));
  }

  lemma EqTextIs(column: string, k: nat)
    ensures PrimText(Cmp(column, Eq, k)) == column + " = $" + Itoa(k)
  {
    CmpTextIs(column, Eq, k);
  }

  lemma ILikeTextIs(column: string, k: nat)
    ensures PrimText(Cmp(column, ILikeOp, k)) == column + " ILIKE $" + Itoa(k)
  {
    CmpTextIs(column, ILikeOp, k);
  }

  lemma OrText(left: Cond, right: Cond)
    requires left.Cmp?
    ensures Render(OrTokens(Or(left, right))) == PrimText(left) + (" OR " + Render(OrTokens(right)))
  {
    assert OrTokens(right) != [];
    assert !OrTokens(right)[0].RParen? by { NoLeadingParen(right); }
    RenderJoin(PrimTokens(left), KwOr, OrTokens(right));
    SpacedOr(Render(OrTokens(right)));
  }

  lemma {:induction false} NoLeadingParen(c: Cond)
    ensures PrimTokens(c) != [] && !PrimTokens(c)[0].RParen?
    ensures AndTokens(c) != [] && !AndTokens(c)[0].RParen?
    ensures OrTokens(c) != [] && !OrTokens(c)[0].RParen?
  {
    if !c.Cmp? {
      NoLeadingParen(c.left);
    }
  }

  /** The OR group of the search, with its parentheses. */
  lemma SearchTextIs(k: nat)
    ensures PrimText(SearchCond(k)) ==
            "(name ILIKE $" + Itoa(k) + " OR email ILIKE $" + Itoa(k) + " OR phone ILIKE $" + Itoa(k) + ")"
  {
    var n, e, p := Cmp("name", ILikeOp, k), Cmp("email", ILikeOp, k), Cmp("phone", ILikeOp, k);
    ParenthesesAround(SearchCond(k));
    OrText(n, Or(e, p));
    OrText(e, p);
    GroupText(Itoa(k), PrimText(n), PrimText(e), PrimText(p)) by {
      ILikeTextIs("name", k);
      ILikeTextIs("email", k);
      ILikeTextIs("phone", k);
    }
  }

  lemma GroupText(k: string, n: string, e: string, p: string)
    requires n == "name" + " ILIKE $" + k && e == "email" + " ILIKE $" + k && p == "phone" + " ILIKE $" + k
    ensures "(" + (n + (" OR " + (e + (" OR " + p)))) + ")" ==
            "(name ILIKE $" + k + " OR email ILIKE $" + k + " OR phone ILIKE $" + k + ")"
  {
    assert "(" + n == "(name ILIKE $" + k;
    assert " OR " + e == " OR email ILIKE $" + k;
    assert " OR " + p == " OR phone ILIKE $" + k;
  }

  lemma ParenthesesAround(c: Cond)
    requires !c.Cmp?
    ensures PrimText(c) == "(" + Render(OrTokens(c)) + ")"
  {
    var inner := OrTokens(c);
    assert inner != [] by { NoLeadingParen(c); }
    assert PrimTokens(c) == [LParen] + (inner + [RParen]);
    Opened(inner + [RParen]);
    Closed(inner);
    Associate("(", Render(inner), ")");
  }

  lemma Opened(ts: seq<Token>)
    requires ts != []
    ensures Render([LParen] + ts) == "(" + Render(ts)
  {
    RenderCons(LParen, ts);
    assert Gap(LParen, ts[0]) + Render(ts) == Render(ts);
  }

  lemma Closed(ts: seq<Token>)
    requires ts != []
    ensures Render(ts + [RParen]) == Render(ts) + ")"
  {
    RenderAppend(ts, [RParen]);
    assert Gap(ts[|ts| - 1], RParen) + Render([RParen]) == ")";
  }

  ghost predicate TextsOf(parts: seq<string>, cs: seq<Cond>) {
    |parts| == |cs| && forall i | 0 <= i < |cs| :: !cs[i].And? && WellNamed(cs[i]) && parts[i] == PrimText(cs[i])
  }

  /** The AND join keeps each condition whole, the OR group included. */
  lemma {:induction false} JoinTextIs(parts: seq<string>, cs: seq<Cond>)
    requires cs != [] && TextsOf(parts, cs)
    ensures Join(parts, " AND ") == Render(AndTokens(Conjoined(cs)))
    ensures WellNamed(Conjoined(cs))
  {
    if |cs| > 1 {
      var c, rest := cs[0], Conjoined(cs[1..]);
      JoinTextIs(parts[1..], cs[1..]);
      AndText(c, rest);
      Associate(PrimText(c), " AND ", Render(AndTokens(rest)));
    }
  }

  lemma AndText(left: Cond, right: Cond)
    ensures Render(AndTokens(And(left, right))) == PrimText(left) + (" AND " + Render(AndTokens(right)))
  {
    NoLeadingParen(left);
    NoLeadingParen(right);
    RenderJoin(PrimTokens(left), KwAnd, AndTokens(right));
    SpacedAnd(Render(AndTokens(right)));
  }

  lemma SpacedAnd(rest: string)
    ensures " " + (TokenText(KwAnd) + (" " + rest)) == " AND " + rest
  {
  }

  lemma SpacedOr(rest: string)
    ensures " " + (TokenText(KwOr) + (" " + rest)) == " OR " + rest
  {
  }

  /** What List hands to the database is the text of the compiled condition. */
  lemma WhereTextIs(parts: seq<string>, f: FilterData)
    requires TextsOf(parts, Compiled(f).conds)
    ensures Join(parts, " AND ") == CondText(Conjoined(Compiled(f).conds))
    ensures WellNamed(Conjoined(Compiled(f).conds))
  {
    var cs := Compiled(f).conds;
    FirstCondition(f);
    JoinTextIs(parts, cs);
    assert cs[0].Cmp? && !Conjoined(cs).Or?;
  }

  lemma FirstCondition(f: FilterData)
    ensures Compiled(f).conds != [] && Compiled(f).conds[0] == Cmp("status", Ne, 1)
  {
  }

  const FLAT := Or(And(Cmp("status", Ne, 1), Cmp("name", ILikeOp, 2)), Cmp("email", ILikeOp, 2))

  /** Without its parentheses the OR group would not survive the join: the flat text reads as
      `(status AND name) OR email`, and a deleted row with a matching email passes. */
  lemma FlatSearchLeaksDeletedRows(row: Row, search: string, fold: CaseFold)
    requires row.status == STATUS_DELETED && ILike(fold, row.email, SearchPattern(search))
    ensures ParseCond("status != $1" + (" AND " + "name ILIKE $2") + (" OR " + "email ILIKE $2")) == Some(FLAT)
    ensures Eval(FLAT, row, [Text(STATUS_DELETED), Text(SearchPattern(search))], fold) == Some(true)
  {
    FlatTextParses();
    NameColumns(row);
    assert Eval(FLAT.left, row, [Text(STATUS_DELETED), Text(SearchPattern(search))], fold) == Some(false);
  }

  lemma FlatTextParses()
    ensures ParseCond("status != $1" + (" AND " + "name ILIKE $2") + (" OR " + "email ILIKE $2")) == Some(FLAT)
  {
    FlatTextIs();
    FlatNames();
    CondRoundTrip(FLAT);
  }

  lemma FlatTextIs()
    ensures CondText(FLAT) == "status != $1" + (" AND " + "name ILIKE $2") + (" OR " + "email ILIKE $2")
  {
    FlatText(FLAT.left.left, FLAT.left.right, FLAT.right);
    StatusText();
    SearchTexts();
  }

  lemma SearchTexts()
    ensures PrimText(Cmp("name", ILikeOp, 2)) == "name ILIKE $2"
    ensures PrimText(Cmp("email", ILikeOp, 2)) == "email ILIKE $2"
  {
    ILikeTextOfTwo("name");
    ILikeTextOfTwo("email");
  }

  lemma ILikeTextOfTwo(column: string)
    ensures PrimText(Cmp(column, ILikeOp, 2)) == column + " ILIKE $2"
  {
    ILikeTextIs(column, 2);
    assert Itoa(2) == "2";
  }

  lemma FlatNames()
    ensures WellNamed(FLAT)
  {
    ColumnNames();
    SearchNames(2);
    assert SearchCond(2).left == FLAT.left.right && SearchCond(2).right.left == FLAT.right;
  }

  lemma StatusText()
    ensures PrimText(Cmp("status", Ne, 1)) == "status != $1"
  {
    CmpTextIs("status", Ne, 1);
    assert "status" + (" " + ("!=" + (" " + ("$" + "1")))) == "status != $1";
  }

  lemma FlatText(s: Cond, n: Cond, e: Cond)
    requires s.Cmp? && n.Cmp? && e.Cmp?
    ensures CondText(Or(And(s, n), e)) == PrimText(s) + (" AND " + PrimText(n)) + (" OR " + PrimText(e))
  {
    AndText(s, n);
    NoLeadingParen(e);
    RenderJoin(AndTokens(And(s, n)), KwOr, PrimTokens(e));
    SpacedOr(PrimText(e));
  }

  /** A search free of pattern characters selects the rows that contain it, up to case, in their name,
      email or phone. */
  lemma PlainSearchHits(search: string, row: Row, fold: CaseFold)
    requires KeepsWildcards(fold) && NoWildcards(search)
    ensures SearchHit(search, row, fold) <==>
            || Contains(Folded(fold, row.name), Folded(fold, search))
            || Contains(Folded(fold, row.email), Folded(fold, search))
            || Contains(Folded(fold, row.phone), Folded(fold, search))
  {
    PlainSearchIsSubstring(fold, row.name, search);
    PlainSearchIsSubstring(fold, row.email, search);
    PlainSearchIsSubstring(fold, row.phone, search);
  }

  // ----- running the statements -----

  /** The rows the condition accepts, in the order given; None if the database rejects the condition. */
  function SelectRows(c: Cond, db: seq<Row>, args: seq<Value>, fold: CaseFold): Option<seq<Row>> {
    if db == [] then Some([])
    else
      var keep, rest := Eval(c, db[0], args, fold), SelectRows(c, db[1..], args, fold);
      if keep.None? || rest.None? then None
      else Some((if keep.value then [db[0]] else []) + rest.value)
  }

  function Slice<T>(xs: seq<T>, offset: int, limit: nat): seq<T> {
    if offset < 0 || offset >= |xs| then []
    else if offset + limit >= |xs| then xs[offset..]
    else xs[offset..offset + limit]
  }

  // ORDER BY: a stable sort on one time column.

  predicate IsTimeColumn(column: string) {
    column == "created_at" || column == "updated_at"
  }

  function SortKey(row: Row, column: string): Time {
    if column == "updated_at" then row.updatedAt else row.createdAt
  }

  predicate Before(a: Row, b: Row, column: string, descending: bool) {
    if descending then SortKey(a, column) > SortKey(b, column) else SortKey(a, column) < SortKey(b, column)
  }

  function Inserted(row: Row, rows: seq<Row>, column: string, descending: bool): (r: seq<Row>)
    ensures |r| == |rows| + 1
    ensures multiset(r) == multiset(rows) + multiset{row}
  {
    if rows != [] && Before(rows[0], row, column, descending) then
      assert rows == [rows[0]] + rows[1..];
      [rows[0]] + Inserted(row, rows[1..], column, descending)
    else [row] + rows
  }

  function Sorted(rows: seq<Row>, column: string, descending: bool): (r: seq<Row>)
    ensures |r| == |rows|
    ensures multiset(r) == multiset(rows)
  {
    if rows == [] then []
    else
      assert rows == [rows[0]] + rows[1..];
      Inserted(rows[0], Sorted(rows[1..], column, descending), column, descending)
  }

  predicate IsSorted(rows: seq<Row>, column: string, descending: bool) {
    forall i, j | 0 <= i < j < |rows| :: !Before(rows[j], rows[i], column, descending)
  }

  lemma {:induction false} InsertedMembers(x: Row, row: Row, rows: seq<Row>, column: string, descending: bool)
    ensures x in Inserted(row, rows, column, descending) <==> x == row || x in rows
  {
    if rows != [] && Before(rows[0], row, column, descending) {
      InsertedMembers(x, row, rows[1..], column, descending);
    }
  }

  lemma SortedCons(first: Row, rest: seq<Row>, column: string, descending: bool)
    requires IsSorted(rest, column, descending)
    requires forall x | x in rest :: !Before(x, first, column, descending)
    ensures IsSorted([first] + rest, column, descending)
  {
  }

  lemma {:induction false} InsertedIsSorted(row: Row, rows: seq<Row>, column: string, descending: bool)
    requires IsSorted(rows, column, descending)
    ensures IsSorted(Inserted(row, rows, column, descending), column, descending)
  {
    if rows != [] && Before(rows[0], row, column, descending) {
      var rest := Inserted(row, rows[1..], column, descending);
      InsertedIsSorted(row, rows[1..], column, descending);
      forall x | x in rest
        ensures !Before(x, rows[0], column, descending)
      {
        InsertedMembers(x, row, rows[1..], column, descending);
      }
      SortedCons(rows[0], rest, column, descending);
    } else {
      SortedCons(row, rows, column, descending);
    }
  }

  lemma {:induction false} SortedIsSorted(rows: seq<Row>, column: string, descending: bool)
    ensures IsSorted(Sorted(rows, column, descending), column, descending)
  {
    if rows != [] {
      SortedIsSorted(rows[1..], column, descending);
      InsertedIsSorted(rows[0], Sorted(rows[1..], column, descending), column, descending);
    }
  }

  /** The rows of one key, in the order given. */
  function WithKey(rows: seq<Row>, key: Time, column: string): seq<Row> {
    if rows == [] then []
    else (if SortKey(rows[0], column) == key then [rows[0]] else []) + WithKey(rows[1..], key, column)
  }

  lemma WithKeyCons(row: Row, rows: seq<Row>, key: Time, column: string)
    ensures WithKey([row] + rows, key, column) ==
            (if SortKey(row, column) == key then [row] else []) + WithKey(rows, key, column)
  {
    assert ([row] + rows)[1..] == rows;
  }

  lemma {:induction false} InsertedIsStable(row: Row, rows: seq<Row>, key: Time, column: string, descending: bool)
    ensures WithKey(Inserted(row, rows, column, descending), key, column) == WithKey([row] + rows, key, column)
  {
    if rows != [] && Before(rows[0], row, column, descending) {
      InsertedIsStable(row, rows[1..], key, column, descending);
      Passed(row, rows[0], rows[1..], Inserted(row, rows[1..], column, descending), key, column);
      assert rows == [rows[0]] + rows[1..];
    }
  }

  /** Passing a row of another key is invisible among the rows of one key. */
  lemma Passed(row: Row, first: Row, tail: seq<Row>, inserted: seq<Row>, key: Time, column: string)
    requires SortKey(row, column) != SortKey(first, column)
    requires WithKey(inserted, key, column) == WithKey([row] + tail, key, column)
    ensures WithKey([first] + inserted, key, column) == WithKey([row] + ([first] + tail), key, column)
  {
    WithKeyCons(first, inserted, key, column);
    WithKeyCons(row, tail, key, column);
    WithKeyCons(row, [first] + tail, key, column);
    WithKeyCons(first, tail, key, column);
  }

  /** Rows of equal time stay in the order in which the table is read. */
  lemma {:induction false} SortedIsStable(rows: seq<Row>, key: Time, column: string, descending: bool)
    ensures WithKey(Sorted(rows, column, descending), key, column) == WithKey(rows, key, column)
  {
    if rows != [] {
      var rest := Sorted(rows[1..], column, descending);
      SortedIsStable(rows[1..], key, column, descending);
      InsertedIsStable(rows[0], rest, key, column, descending);
      WithKeyCons(rows[0], rest, key, column);
    }
  }

  /** `db` holds the rows in the order in which the database reads the table. */
  function RunCount(text: string, args: seq<Value>, db: seq<Row>, fold: CaseFold): Option<nat> {
    match ParseQuery(text)
    case Some(Count(c)) =>
      (match SelectRows(c, db, args, fold)
       case Some(rows) => Some(|rows|)
       case None => None)
    case _ => None
  }

  predicate IsCount(k: nat, args: seq<Value>) {
    1 <= k <= |args| && args[k - 1].Num? && args[k - 1].num >= 0
  }

  function RunPage(text: string, args: seq<Value>, db: seq<Row>, fold: CaseFold): Option<seq<Row>> {
    match ParseQuery(text)
    case Some(Page(c, column, descending, l, o)) =>
      if IsTimeColumn(column) && IsCount(l, args) && IsCount(o, args) then
        (match SelectRows(c, db, args, fold)
         case Some(rows) => Some(Slice(Sorted(rows, column, descending), args[o - 1].num, args[l - 1].num))
         case None => None)
      else None
    case _ => None
  }

  /** The wanted rows in the order in which the table is read. */
  function Filtered(f: FilterData, db: seq<Row>, fold: CaseFold): (r: seq<Row>)
    ensures forall row :: row in r <==> row in db && Wanted(f, row, fold)
  {
    if db == [] then []
    else (if Wanted(f, db[0], fold) then [db[0]] else []) + Filtered(f, db[1..], fold)
  }

  /** The wanted rows, newest first. */
  function WantedRows(f: FilterData, db: seq<Row>, fold: CaseFold): (r: seq<Row>)
    ensures |r| == |Filtered(f, db, fold)|
    ensures forall row :: row in r <==> row in db && Wanted(f, row, fold)
  {
    var rows := Filtered(f, db, fold);
    var sorted := Sorted(rows, "created_at", true);
    assert forall row :: row in sorted <==> row in multiset(sorted);
    assert forall row :: row in rows <==> row in multiset(rows);
    sorted
  }

  lemma {:induction false} SelectsWantedRows(f: FilterData, db: seq<Row>, extra: seq<Value>, fold: CaseFold)
    ensures Compiled(f).conds != []
    ensures SelectRows(Conjoined(Compiled(f).conds), db, Compiled(f).args + extra, fold) == Some(Filtered(f, db, fold))
  {
    FirstCondition(f);
    if db != [] {
      CompiledMeansWanted(f, db[0], fold, extra);
      SelectsWantedRows(f, db[1..], extra, fold);
    }
  }

  // ----- the repository method -----

  const INT64_SPAN := 0x1_0000_0000_0000_0000
  const INT64_TOP := 0x8000_0000_0000_0000

  /** Two's complement wrap-around of a 64-bit `int`. */
  function Int64(x: int): int {
    (x + INT64_TOP) % INT64_SPAN - INT64_TOP
  }

  /** The result is the number of that range with the same low bits. */
  lemma Int64KeepsLowBits(x: int)
    ensures -INT64_TOP <= Int64(x) < INT64_TOP && (x - Int64(x)) % INT64_SPAN == 0
  {
  }

  function ClampedPage(page: int): int {
    if page < 1 then 1 else page
  }

  function ClampedSize(size: int): int {
    if size < 1 then 20 else if size > 100 then 100 else size
  }

  function Offset(page: int, size: int): int {
    Int64((ClampedPage(page) - 1) * ClampedSize(size))
  }

  class UserFilter {
    var page: int
    var pageSize: int
    var search: string
    var status: string
    var role: string
    var isBanned: Option<bool>
    var subStatus: Option<string>
    var subLevel: Option<string>

    function View(): FilterData
      reads this
    {
      FilterData(page, pageSize, search, status, role, isBanned, subStatus, subLevel)
    }

    constructor (page: int, pageSize: int, search: string, status: string, role: string)
      ensures View() == FilterData(page, pageSize, search, status, role, None, None, None)
    {
      this.page, this.pageSize, this.search, this.status, this.role := page, pageSize, search, status, role;
      isBanned, subStatus, subLevel := None, None, None;
    }
  }

  datatype ListResult = ListResult(users: seq<UserData>, total: nat)

  datatype QueryFailed = QueryFailed

  function Converted(rows: seq<Row>): (r: seq<UserData>)
    ensures |r| == |rows|
    ensures forall i | 0 <= i < |r| :: r[i] == ToDomain(rows[i])
  {
    seq(|rows|, i requires 0 <= i < |rows| => ToDomain(rows[i]))
  }

  /** The page of users that List returns for a filter. */
  function ListedPage(f: FilterData, db: seq<Row>, fold: CaseFold): seq<UserData> {
    Converted(Slice(WantedRows(f, db, fold), Offset(f.page, f.pageSize), ClampedSize(f.pageSize)))
  }

  lemma ColumnNames()
    ensures IsName("status") && IsName("role") && IsName("is_banned")
  {
  }

  lemma SubscriptionStatusIsName()
    ensures IsName("subscription_status")
  {
    assert WordToken("subscription_status") == Word("subscription_status");
  }

  lemma SubscriptionLevelIsName()
    ensures IsName("subscription_level")
  {
    assert WordToken("subscription_level") == Word("subscription_level");
  }

  lemma SearchNames(k: nat)
    ensures WellNamed(SearchCond(k))
  {
    assert IsName("name") && IsName("email") && IsName("phone");
    var n, e, p := Cmp("name", ILikeOp, k), Cmp("email", ILikeOp, k), Cmp("phone", ILikeOp, k);
    assert WellNamed(n) && WellNamed(e) && WellNamed(p) && WellNamed(Or(e, p));
  }

  /** One more condition text and its argument. */
  lemma Appended(parts: seq<string>, b: Clause, text: string, c: Cond, v: Value)
    requires TextsOf(parts, b.conds)
    requires WellNamed(c) && !c.And? && text == PrimText(c)
    ensures TextsOf(parts + [text], With(b, c, v).conds)
  {
  }

  method AppendEquals(conditions: seq<string>, args: seq<Value>, asked: bool, column: string, text: string,
                      ghost b: Clause)
    returns (conditions': seq<string>, args': seq<Value>)
    requires TextsOf(conditions, b.conds) && args == b.args && IsName(column)
    ensures TextsOf(conditions', WithText(b, asked, column, text).conds)
    ensures args' == WithText(b, asked, column, text).args
  {
    conditions', args' := conditions, args;
    if asked {
      var argPos := |args| + 1;
      conditions' := conditions + [column + " = $" + Itoa(argPos)];
      args' := args + [Text(text)];
      EqTextIs(column, argPos);
      Appended(conditions, b, column + " = $" + Itoa(argPos), Cmp(column, Eq, argPos), Text(text));
    }
  }

  method AppendSearch(conditions: seq<string>, args: seq<Value>, search: string, ghost b: Clause)
    returns (conditions': seq<string>, args': seq<Value>)
    requires TextsOf(conditions, b.conds) && args == b.args
    ensures TextsOf(conditions', WithSearch(b, search).conds)
    ensures args' == WithSearch(b, search).args
  {
    conditions', args' := conditions, args;
    if search != "" {
      var k := Itoa(|args| + 1);
      var text := "(name ILIKE $" + k + " OR email ILIKE $" + k + " OR phone ILIKE $" + k + ")";
      conditions' := conditions + [text];
      args' := args + [Text(SearchPattern(search))];
      SearchTextIs(|args| + 1);
      SearchNames(|args| + 1);
      Appended(conditions, b, text, SearchCond(|args| + 1), Text(SearchPattern(search)));
    }
  }

  method AppendFlag(conditions: seq<string>, args: seq<Value>, flag: Option<bool>, ghost b: Clause)
    returns (conditions': seq<string>, args': seq<Value>)
    requires TextsOf(conditions, b.conds) && args == b.args
    ensures TextsOf(conditions', WithFlag(b, flag).conds)
    ensures args' == WithFlag(b, flag).args
  {
    conditions', args' := conditions, args;
    if flag.Some? {
      var text := "is_banned = $" + Itoa(|args| + 1);
      conditions' := conditions + [text];
      args' := args + [Flag(flag.value)];
      ColumnNames();
      EqTextIs("is_banned", |args| + 1);
      Appended(conditions, b, text, Cmp("is_banned", Eq, |args| + 1), Flag(flag.value));
    }
  }

  lemma LiveOnlyText()
    ensures TextsOf(["status != $1"], LIVE_ONLY.conds)
  {
    StatusText();
    ColumnNames();
  }

  /** The WHERE text and the arguments of a filter. */
  method BuildWhere(filter: UserFilter) returns (where: string, args: seq<Value>, ghost c: Cond)
    ensures where == CondText(c) && IsCompiled(filter.View(), c, args)
    ensures args == Compiled(filter.View()).args
    ensures Compiled(filter.View()).conds != [] && where == CondText(Conjoined(Compiled(filter.View()).conds))
  {
    ghost var b := LIVE_ONLY;
    var conditions := ["status != $1"];
    args := [Text(STATUS_DELETED)];
    LiveOnlyText();
    ColumnNames();
    SubscriptionStatusIsName();
    SubscriptionLevelIsName();

    conditions, args := AppendSearch(conditions, args, filter.search, b);
    b := WithSearch(b, filter.search);
    conditions, args := AppendEquals(conditions, args, Asked(filter.status), "status", filter.status, b);
    b := WithText(b, Asked(filter.status), "status", filter.status);
    conditions, args := AppendEquals(conditions, args, Asked(filter.role), "role", filter.role, b);
    b := WithText(b, Asked(filter.role), "role", filter.role);
    conditions, args := AppendFlag(conditions, args, filter.isBanned, b);
    b := WithFlag(b, filter.isBanned);
    conditions, args := AppendEquals(conditions, args, AskedOption(filter.subStatus),
                                     "subscription_status", OrEmpty(filter.subStatus), b);
    b := WithText(b, AskedOption(filter.subStatus), "subscription_status", OrEmpty(filter.subStatus));
    conditions, args := AppendEquals(conditions, args, AskedOption(filter.subLevel),
                                     "subscription_level", OrEmpty(filter.subLevel), b);

    where := Join(conditions, " AND ");
    FirstCondition(filter.View());
    c := Conjoined(Compiled(filter.View()).conds);
    WhereTextIs(conditions, filter.View());
  }

  /** What BuildWhere produced for a filter. */
  ghost predicate IsCompiled(f: FilterData, c: Cond, args: seq<Value>) {
    Compiled(f).conds != [] && c == Conjoined(Compiled(f).conds) && args == Compiled(f).args && WellNamed(c)
  }

  lemma CountRuns(text: string, c: Cond, args: seq<Value>, db: seq<Row>, fold: CaseFold)
    requires ParseQuery(text) == Some(Count(c))
    requires SelectRows(c, db, args + [], fold).Some?
    ensures RunCount(text, args, db, fold) == Some(|SelectRows(c, db, args + [], fold).value|)
  {
    assert args + [] == args;
  }

  lemma PageRuns(text: string, c: Cond, args: seq<Value>, db: seq<Row>, fold: CaseFold, limit: nat, offset: int)
    requires ParseQuery(text) == Some(Page(c, "created_at", true, |args| + 1, |args| + 2))
    requires SelectRows(c, db, args + [Num(limit), Num(offset)], fold).Some?
    ensures var all := args + [Num(limit), Num(offset)];
            RunPage(text, all, db, fold) ==
            if offset < 0 then None
            else Some(Slice(Sorted(SelectRows(c, db, all, fold).value, "created_at", true), offset, limit))
  {
    var all := args + [Num(limit), Num(offset)];
    assert all[|args|] == Num(limit) && all[|args| + 1] == Num(offset);
  }

  /** The COUNT statement, run as text, counts the wanted rows. */
  method QueryCount(where: string, args: seq<Value>, db: seq<Row>, fold: CaseFold, ghost f: FilterData, ghost c: Cond)
    returns (total: Option<nat>)
    requires where == CondText(c) && IsCompiled(f, c, args)
    ensures total == Some(|WantedRows(f, db, fold)|)
  {
    var text := CountText(where);
    QueryRoundTrip(c, 0, 0);
    SelectsWantedRows(f, db, [], fold);
    CountRuns(text, c, args, db, fold);
    total := RunCount(text, args, db, fold);
  }

  /** The LIMIT/OFFSET statement, run as text with its two arguments appended, cuts a slice of them. */
  method QueryPage(where: string, args: seq<Value>, limit: nat, offset: int, db: seq<Row>, fold: CaseFold,
                   ghost f: FilterData, ghost c: Cond)
    returns (rows: Option<seq<Row>>)
    requires where == CondText(c) && IsCompiled(f, c, args)
    ensures rows == if offset < 0 then None else Some(Slice(WantedRows(f, db, fold), offset, limit))
  {
    var argPos := |args| + 1;
    var all := args + [Num(limit), Num(offset)];
    var text := PageText(where, argPos, argPos + 1);
    QueryRoundTrip(c, argPos, argPos + 1);
    SelectsWantedRows(f, db, [Num(limit), Num(offset)], fold);
    PageRuns(text, c, args, db, fold, limit, offset);
    rows := RunPage(text, all, db, fold);
  }

  /** Page and size, clamped in place. */
  method Clamp(filter: UserFilter)
    modifies filter
    ensures filter.View() == Clamped(old(filter.View()))
  {
    if filter.page < 1 {
      filter.page := 1;
    }
    if filter.pageSize < 1 {
      filter.pageSize := 20;
    }
    if filter.pageSize > 100 {
      filter.pageSize := 100;
    }
  }

  function Clamped(f: FilterData): FilterData {
    f.(page := ClampedPage(f.page), pageSize := ClampedSize(f.pageSize))
  }

  /** What List answers when the database answers both queries. */
  function Listed(f: FilterData, db: seq<Row>, fold: CaseFold): Result<ListResult, QueryFailed> {
    if Offset(f.page, f.pageSize) < 0 then Failure(QueryFailed)
    else Success(ListResult(ListedPage(f, db, fold), |WantedRows(f, db, fold)|))
  }

  /** `countOk` and `pageOk` say whether the database answers the two queries. A filter is clamped only
      after the count. */
  method List(filter: UserFilter, db: seq<Row>, fold: CaseFold, countOk: bool, pageOk: bool)
    returns (r: Result<ListResult, QueryFailed>)
    modifies filter
    ensures filter.View() == if countOk then Clamped(old(filter.View())) else old(filter.View())
    ensures r == if countOk && pageOk then Listed(old(filter.View()), db, fold) else Failure(QueryFailed)
  {
    ghost var f := filter.View();
    var where, args, c := BuildWhere(filter);
    if !countOk {
      return Failure(QueryFailed);
    }
    var total := QueryCount(where, args, db, fold, f, c);
    Clamp(filter);
    if !pageOk {
      return Failure(QueryFailed);
    }
    var offset := Int64((filter.page - 1) * filter.pageSize);
    var dbUsers := QueryPage(where, args, filter.pageSize, offset, db, fold, f, c);
    if dbUsers.None? {
      return Failure(QueryFailed);
    }
    var users := ConvertAll(dbUsers.value);
    assert users == ListedPage(f, db, fold);
    r := Success(ListResult(users, total.value));
  }

  method ConvertAll(rows: seq<Row>) returns (users: seq<UserData>)
    ensures |users| == |rows| && forall i | 0 <= i < |rows| :: users[i] == ToDomain(rows[i])
  {
    users := [];
    for i := 0 to |rows|
      invariant |users| == i && forall k | 0 <= k < i :: users[k] == ToDomain(rows[k])
    {
      users := users + [ToDomain(rows[i])];
    }
  }
}
