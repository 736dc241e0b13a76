/** The ListUsers call end to end: request to filter (user_handler.go), page arithmetic of the response
    (mappers.go), and how the pages of successive calls fit together. */
module Paging {
  import opened Base
  import opened Domain
  import opened Ilike
  import opened ListQuery
  import UserStore

  /** An enumeration field as it arrives: unspecified, a known value by its domain name, or a number outside
      the enumeration, which the open wire format lets through. */
  datatype WireEnum = Unspecified | Named(name: string) | Unknown(number: int)

  datatype ListRequest = ListRequest(
    page: int, pageSize: int, search: string, status: WireEnum, role: WireEnum,
    isBanned: bool, subStatus: WireEnum, subLevel: WireEnum)

  datatype ListResponse = ListResponse(users: seq<UserData>, total: int, page: int, pageSize: int, totalPages: int)

  const INT32_SPAN := 0x1_0000_0000
  const INT32_TOP := 0x8000_0000

  predicate IsInt32(x: int) {
    -INT32_TOP <= x < INT32_TOP
  }

  /** Conversion to a 32-bit integer keeps the low bits. */
  function Int32(x: int): (r: int)
    ensures IsInt32(r)
    ensures r == x <==> IsInt32(x)
  {
    (x + INT32_TOP) % INT32_SPAN - INT32_TOP
  }

  lemma Int32KeepsLowBits(x: int)
    ensures IsInt32(Int32(x)) && (x - Int32(x)) % INT32_SPAN == 0
  {
  }

  function Ceiling(total: nat, size: int): int
    requires size > 0
  {
    (total + size - 1) / size
  }

  function TotalPages(total: nat, pageSize: int): int {
    if pageSize > 0 then Int32(Ceiling(total, pageSize)) else 0
  }

  /** `n` pages of `size` rows cover `total` rows and no fewer do. */
  predicate IsLeastCover(n: int, total: nat, size: int) {
    0 <= n && total <= n * size && (n > 0 ==> (n - 1) * size < total)
  }

  lemma MultiplyMonotone(a: int, b: int, size: int)
    requires a <= b && size >= 0
    ensures a * size <= b * size
  {
  }

  lemma LeastCoverIsUnique(n: int, m: int, total: nat, size: int)
    requires size > 0 && IsLeastCover(n, total, size) && IsLeastCover(m, total, size)
    ensures n == m
  {
    if n < m {
      MultiplyMonotone(n, m - 1, size);
    } else if m < n {
      MultiplyMonotone(m, n - 1, size);
    }
  }

  lemma CeilingCovers(total: nat, size: int)
    requires size > 0
    ensures IsLeastCover(Ceiling(total, size), total, size)
    ensures Ceiling(total, size) <= total
  {
    var c, rest := Ceiling(total, size), (total + size - 1) % size;
    assert total + size - 1 == c * size + rest;
    assert (c - 1) * size == c * size - size;
    if c > total {
      MultiplyMonotone(total, c - 1, size);
      MultiplyMonotone(1, size, total);
    }
  }

  lemma LeastCoverIsCeiling(n: int, total: nat, size: int)
    requires size > 0
    ensures IsLeastCover(n, total, size) <==> n == Ceiling(total, size)
  {
    CeilingCovers(total, size);
    if IsLeastCover(n, total, size) {
      LeastCoverIsUnique(n, Ceiling(total, size), total, size);
    }
  }

  /** The response reports the least number of pages covering the total exactly when that number fits
      32 bits; in particular whenever the total does. */
  lemma TotalPagesIsLeastCover(total: nat, pageSize: int)
    requires pageSize > 0
    ensures IsLeastCover(TotalPages(total, pageSize), total, pageSize) <==> Ceiling(total, pageSize) < INT32_TOP
    ensures total < INT32_TOP ==> Ceiling(total, pageSize) < INT32_TOP
  {
    LeastCoverIsCeiling(TotalPages(total, pageSize), total, pageSize);
    CeilingCovers(total, pageSize);
  }

  /** The 64-bit offset does not wrap for any 32-bit page number. */
  lemma OffsetFits(page: int, pageSize: int)
    requires IsInt32(page)
    ensures 0 <= Offset(page, pageSize) == (ClampedPage(page) - 1) * ClampedSize(pageSize) < INT64_TOP
  {
    var p, s := ClampedPage(page) - 1, ClampedSize(pageSize);
    assert 0 <= p < INT32_TOP && 1 <= s <= 100;
    assert 0 <= p * s <= p * 100;
  }

  /** The mappers turn every number they do not know into the text UNSPECIFIED. */
  function DomainName(e: WireEnum): string {
    if e.Named? then e.name else STATUS_UNSPECIFIED
  }

  function AsOption(e: WireEnum): Option<string> {
    if e.Unspecified? then None else Some(DomainName(e))
  }

  function FilterOf(req: ListRequest): FilterData {
    FilterData(req.page, req.pageSize, req.search, DomainName(req.status), DomainName(req.role),
               if req.isBanned then Some(true) else None, AsOption(req.subStatus), AsOption(req.subLevel))
  }

  method BuildFilter(req: ListRequest) returns (filter: UserFilter)
    ensures fresh(filter) && filter.View() == FilterOf(req)
  {
    filter := new UserFilter(req.page, req.pageSize, req.search, DomainName(req.status), DomainName(req.role));
    if req.isBanned {
      filter.isBanned := Some(true);
    }
    if !req.subStatus.Unspecified? {
      filter.subStatus := Some(DomainName(req.subStatus));
    }
    if !req.subLevel.Unspecified? {
      filter.subLevel := Some(DomainName(req.subLevel));
    }
  }

  /** Known values have names of their own. */
  predicate WellNamedEnum(e: WireEnum) {
    e.Named? ==> e.name != "" && e.name != STATUS_UNSPECIFIED
  }

  predicate AsksFor(e: WireEnum, text: string) {
    e.Named? ==> text == e.name
  }

  /** What a request asks for: unset fields, a false ban flag and unknown status or role numbers ask nothing,
      while an unknown subscription number asks for rows whose column says UNSPECIFIED. */
  lemma RequestMeans(req: ListRequest, row: Row, fold: CaseFold)
    requires WellNamedEnum(req.status) && WellNamedEnum(req.role)
    requires WellNamedEnum(req.subStatus) && WellNamedEnum(req.subLevel)
    ensures Wanted(FilterOf(req), row, fold) <==>
            && row.status != STATUS_DELETED
            && (req.search != "" ==> SearchHit(req.search, row, fold))
            && AsksFor(req.status, row.status) && AsksFor(req.role, row.role)
            && (req.isBanned ==> row.isBanned)
            && AsksFor(req.subStatus, row.subscriptionStatus)
            && (req.subStatus.Unknown? ==> row.subscriptionStatus == STATUS_UNSPECIFIED)
            && AsksFor(req.subLevel, row.subscriptionLevel)
            && (req.subLevel.Unknown? ==> row.subscriptionLevel == STATUS_UNSPECIFIED)
  {
    assert STATUS_UNSPECIFIED != "";
  }

  method BlankPasswords(users: seq<UserData>) returns (blanked: seq<UserData>)
    ensures blanked == WithoutPasswords(users)
  {
    blanked := users;
    for i := 0 to |users|
      invariant |blanked| == |users|
      invariant forall k | 0 <= k < i :: blanked[k] == users[k].(password := "")
      invariant forall k | i <= k < |users| :: blanked[k] == users[k]
    {
      blanked := blanked[i := blanked[i].(password := "")];
    }
  }

  /** The answer to a request when the database answers. */
  function ResponseTo(req: ListRequest, db: seq<Row>, fold: CaseFold): ListResponse {
    var f := FilterOf(req);
    var total := |WantedRows(f, db, fold)|;
    ListResponse(WithoutPasswords(ListedPage(f, db, fold)), Int32(total),
                 req.page, req.pageSize, TotalPages(total, req.pageSize))
  }

  method ListUsers(req: ListRequest, db: seq<Row>, fold: CaseFold, countOk: bool, pageOk: bool)
    returns (r: Result<ListResponse, QueryFailed>)
    requires IsInt32(req.page) && IsInt32(req.pageSize)
    ensures r == if countOk && pageOk then Success(ResponseTo(req, db, fold)) else Failure(QueryFailed)
  {
    OffsetFits(req.page, req.pageSize);
    var filter := BuildFilter(req);
    var listed := List(filter, db, fold, countOk, pageOk);
    if listed.Failure? {
      return Failure(QueryFailed);
    }
    var total := listed.value.total;
    var users := BlankPasswords(listed.value.users);
    r := Success(ListResponse(users, Int32(total), req.page, req.pageSize, TotalPages(total, req.pageSize)));
  }

  function WithoutPasswords(users: seq<UserData>): (r: seq<UserData>)
    ensures |r| == |users|
    ensures forall i | 0 <= i < |r| :: r[i].password == "" && r[i] == users[i].(password := "")
  {
    seq(|users|, i requires 0 <= i < |users| => users[i].(password := ""))
  }

  // ----- tiling -----

  function Flattened<T>(pages: seq<seq<T>>): seq<T> {
    if pages == [] then [] else Flattened(pages[..|pages| - 1]) + pages[|pages| - 1]
  }

  /** Pages 1 to `n` of something that has pages. */
  function Collected<T>(page: nat -> seq<T>, n: nat): (pages: seq<seq<T>>)
    ensures |pages| == n && forall k | 0 <= k < n :: pages[k] == page(k + 1)
  {
    seq(n, i requires 0 <= i < n => page(i + 1))
  }

  function PageOf(f: FilterData, db: seq<Row>, fold: CaseFold): nat -> seq<UserData> {
    k => ListedPage(f.(page := k), db, fold)
  }

  function FirstPages(f: FilterData, db: seq<Row>, fold: CaseFold, n: nat): seq<seq<UserData>> {
    Collected(PageOf(f, db, fold), n)
  }

  /** The users of pages 1 to `n`, one after the other. */
  function Pages(f: FilterData, db: seq<Row>, fold: CaseFold, n: int): seq<UserData> {
    if n <= 0 then [] else Flattened(FirstPages(f, db, fold, n))
  }

  function Min(a: int, b: int): int {
    if a < b then a else b
  }

  lemma {:induction false} PageNumberDoesNotFilter(f: FilterData, page: int, db: seq<Row>, fold: CaseFold)
    ensures Filtered(f.(page := page), db, fold) == Filtered(f, db, fold)
  {
    if db != [] {
      PageNumberDoesNotFilter(f, page, db[1..], fold);
    }
  }

  lemma PageNumberIsNotACondition(f: FilterData, page: int, db: seq<Row>, fold: CaseFold)
    ensures WantedRows(f.(page := page), db, fold) == WantedRows(f, db, fold)
  {
    PageNumberDoesNotFilter(f, page, db, fold);
  }

  /** Consecutive slices make up a prefix. */
  lemma {:induction false} SlicesArePrefix(pages: seq<seq<UserData>>, rows: seq<Row>, size: nat, end: nat)
    requires IsSlices(pages, rows, size)
    requires end == |pages| * size
    ensures Flattened(pages) == FirstUsers(rows, end)
  {
    if pages != [] {
      var n := |pages| - 1;
      PreviousEnd(|pages|, size);
      assert IsSlice(pages, rows, size, n);
      forall k: nat | k < n
        ensures IsSlice(pages[..n], rows, size, k)
      {
        assert IsSlice(pages, rows, size, k) && pages[..n][k] == pages[k];
      }
      SlicesArePrefix(pages[..n], rows, size, end - size);
      SliceExtendsPrefix(rows, n * size, size);
    }
  }

  lemma PreviousEnd(n: nat, size: nat)
    requires n > 0
    ensures 0 <= (n - 1) * size == n * size - size
  {
  }

  /** The first `n` pages are the first `n * size` rows. */
  lemma PagesArePrefix(f: FilterData, db: seq<Row>, fold: CaseFold, n: nat, end: nat)
    requires n < INT32_TOP && end == n * ClampedSize(f.pageSize)
    ensures Pages(f, db, fold, n) == FirstUsers(WantedRows(f, db, fold), end)
  {
    PagesAreSlices(f, db, fold, n, ClampedSize(f.pageSize));
    SlicesArePrefix(FirstPages(f, db, fold, n), WantedRows(f, db, fold), ClampedSize(f.pageSize), end);
  }

  lemma PagesAreSlices(f: FilterData, db: seq<Row>, fold: CaseFold, n: nat, size: nat)
    requires n < INT32_TOP && size == ClampedSize(f.pageSize)
    ensures IsSlices(FirstPages(f, db, fold, n), WantedRows(f, db, fold), size)
  {
    forall k: nat | k < n
      ensures IsSlice(FirstPages(f, db, fold, n), WantedRows(f, db, fold), size, k)
    {
      FirstPageIsSlice(f, db, fold, n, k, size);
    }
  }

  lemma FirstPageIsSlice(f: FilterData, db: seq<Row>, fold: CaseFold, n: nat, k: nat, size: nat)
    requires k < n < INT32_TOP && size == ClampedSize(f.pageSize)
    ensures IsSlice(FirstPages(f, db, fold, n), WantedRows(f, db, fold), size, k)
  {
    OffsetOfPage(k, f.pageSize, size);
    FirstPageStarts(f, db, fold, n, k);
    SliceAt(FirstPages(f, db, fold, n), WantedRows(f, db, fold), size, k, Offset(k + 1, f.pageSize));
  }

  lemma SliceAt(pages: seq<seq<UserData>>, rows: seq<Row>, size: nat, k: nat, start: int)
    requires k < |pages| && start == k * size && pages[k] == Converted(Slice(rows, start, size))
    ensures IsSlice(pages, rows, size, k)
  {
  }

  lemma OffsetOfPage(k: nat, pageSize: int, size: nat)
    requires k + 1 < INT32_TOP && size == ClampedSize(pageSize)
    ensures Offset(k + 1, pageSize) == k * size
  {
    OffsetFits(k + 1, pageSize);
  }

  lemma FirstPageStarts(f: FilterData, db: seq<Row>, fold: CaseFold, n: nat, k: nat)
    requires k < n
    ensures FirstPages(f, db, fold, n)[k] ==
            Converted(Slice(WantedRows(f, db, fold), Offset(k + 1, f.pageSize), ClampedSize(f.pageSize)))
  {
    ListedPageStarts(f, db, fold, k + 1);
  }

  lemma ListedPageStarts(f: FilterData, db: seq<Row>, fold: CaseFold, page: int)
    ensures ListedPage(f.(page := page), db, fold) ==
            Converted(Slice(WantedRows(f, db, fold), Offset(page, f.pageSize), ClampedSize(f.pageSize)))
  {
    PageNumberIsNotACondition(f, page, db, fold);
    assert f.(page := page).page == page && f.(page := page).pageSize == f.pageSize;
  }

  predicate IsSlice(pages: seq<seq<UserData>>, rows: seq<Row>, size: nat, k: nat)
    requires k < |pages|
  {
    pages[k] == Converted(Slice(rows, k * size, size))
  }

  ghost predicate IsSlices(pages: seq<seq<UserData>>, rows: seq<Row>, size: nat) {
    forall k: nat | k < |pages| :: IsSlice(pages, rows, size, k)
  }

  function FirstUsers(rows: seq<Row>, n: nat): seq<UserData> {
    Converted(rows[..Min(|rows|, n)])
  }

  lemma SliceExtendsPrefix(rows: seq<Row>, done: nat, size: nat)
    ensures Converted(rows[..Min(|rows|, done)]) + Converted(Slice(rows, done, size))
            == Converted(rows[..Min(|rows|, done + size)])
  {
    assert rows[..Min(|rows|, done + size)] == rows[..Min(|rows|, done)] + Slice(rows, done, size);
  }

  /** Reading pages 1 to TotalPages gives the whole result exactly when the clamped page size times
      TotalPages reaches the total. */
  lemma PagesTileIff(f: FilterData, db: seq<Row>, fold: CaseFold)
    ensures var rows := WantedRows(f, db, fold);
            var n := TotalPages(|rows|, f.pageSize);
            Pages(f, db, fold, n) == Converted(rows) <==> |rows| <= n * ClampedSize(f.pageSize)
  {
    var total := |WantedRows(f, db, fold)|;
    var n := TotalPages(total, f.pageSize);
    if n >= 0 {
      FirstPagesTileIff(f, db, fold, n);
    } else {
      WrappedMeansNonEmpty(total, f.pageSize);
      NegativeProduct(n, ClampedSize(f.pageSize));
    }
  }

  lemma NegativeProduct(n: int, size: int)
    requires n < 0 < size
    ensures n * size < 0
  {
  }

  lemma WrappedMeansNonEmpty(total: nat, pageSize: int)
    requires TotalPages(total, pageSize) < 0
    ensures total > 0
  {
    CeilingCovers(total, pageSize);
  }

  lemma FirstPagesTileIff(f: FilterData, db: seq<Row>, fold: CaseFold, n: int)
    requires 0 <= n < INT32_TOP
    ensures Pages(f, db, fold, n) == Converted(WantedRows(f, db, fold))
            <==> |WantedRows(f, db, fold)| <= n * ClampedSize(f.pageSize)
  {
    PagesArePrefix(f, db, fold, n, n * ClampedSize(f.pageSize));
    PrefixIsAllIff(WantedRows(f, db, fold), n * ClampedSize(f.pageSize));
  }

  lemma PrefixIsAllIff(rows: seq<Row>, n: nat)
    ensures Converted(rows[..Min(|rows|, n)]) == Converted(rows) <==> |rows| <= n
  {
    if |rows| <= n {
      assert rows[..Min(|rows|, n)] == rows;
    } else {
      assert |Converted(rows[..n])| == n < |Converted(rows)|;
    }
  }

  /** A page size of 1 to 100 always tiles, and any non-positive one tiles only an empty result. A page
      size above 100 is clamped for the rows but not for TotalPages: then the tail beyond
      100 * TotalPages is on no page. */
  lemma WhichPageSizesTile(f: FilterData, db: seq<Row>, fold: CaseFold)
    requires |WantedRows(f, db, fold)| < INT32_TOP
    ensures var total := |WantedRows(f, db, fold)|;
            var tiles := Pages(f, db, fold, TotalPages(total, f.pageSize)) == Converted(WantedRows(f, db, fold));
            && (1 <= f.pageSize <= 100 ==> tiles)
            && (f.pageSize <= 0 ==> (tiles <==> total == 0))
            && (f.pageSize > 100 ==> (tiles <==> total <= 100 * Ceiling(total, f.pageSize)))
            && (100 < total <= f.pageSize ==> !tiles)
  {
    PagesTileIff(f, db, fold);
    ClampedCover(|WantedRows(f, db, fold)|, f.pageSize);
  }

  /** Whether the clamped pages reach the total is arithmetic on the two numbers. */
  lemma ClampedCover(total: nat, pageSize: int)
    requires total < INT32_TOP
    ensures var covers := total <= TotalPages(total, pageSize) * ClampedSize(pageSize);
            && (1 <= pageSize <= 100 ==> covers)
            && (pageSize <= 0 ==> (covers <==> total == 0))
            && (pageSize > 100 ==> (covers <==> total <= 100 * Ceiling(total, pageSize)))
            && (100 < total <= pageSize ==> !covers)
  {
    if pageSize > 0 {
      CeilingCovers(total, pageSize);
      assert TotalPages(total, pageSize) == Ceiling(total, pageSize);
      if 100 < total <= pageSize {
        LeastCoverIsCeiling(1, total, pageSize);
      }
    }
  }

  // ----- order and multiplicity -----

  /** The database reads the table in some order, each row once. */
  ghost predicate IsScan(scan: seq<string>, t: UserStore.Table) {
    && (forall id :: id in t <==> id in scan)
    && (forall i, j | 0 <= i < j < |scan| :: scan[i] != scan[j])
  }

  function Stored(t: UserStore.Table, scan: seq<string>): seq<Row>
    requires forall id | id in scan :: id in t
  {
    seq(|scan|, i requires 0 <= i < |scan| => t[scan[i]])
  }

  lemma {:induction false} EveryTableHasAScan(t: UserStore.Table)
    ensures exists scan :: IsScan(scan, t)
    decreases |t|
  {
    if t == map[] {
      assert IsScan([], t);
    } else {
      var id :| id in t;
      EveryTableHasAScan(t - {id});
      var scan :| IsScan(scan, t - {id});
      assert forall k :: k in scan + [id] <==> k in scan || k == id;
      assert IsScan(scan + [id], t);
    }
  }

  predicate DistinctIds(rows: seq<Row>) {
    forall i, j | 0 <= i < j < |rows| :: rows[i].id != rows[j].id
  }

  lemma {:induction false} FilteredAreDistinct(f: FilterData, db: seq<Row>, fold: CaseFold)
    requires DistinctIds(db)
    ensures DistinctIds(Filtered(f, db, fold))
  {
    if db != [] {
      FilteredAreDistinct(f, db[1..], fold);
      forall row | row in Filtered(f, db[1..], fold)
        ensures db[0].id != row.id
      {
        var i :| 0 <= i < |db[1..]| && db[1..][i] == row;
        assert db[i + 1] == row;
      }
    }
  }

  lemma DistinctCons(first: Row, rest: seq<Row>)
    requires DistinctIds(rest) && forall x | x in rest :: x.id != first.id
    ensures DistinctIds([first] + rest)
  {
  }

  lemma {:induction false} InsertedAreDistinct(row: Row, rows: seq<Row>, column: string, descending: bool)
    requires DistinctIds(rows) && forall other | other in rows :: other.id != row.id
    ensures DistinctIds(Inserted(row, rows, column, descending))
  {
    if rows != [] && Before(rows[0], row, column, descending) {
      var rest := Inserted(row, rows[1..], column, descending);
      InsertedAreDistinct(row, rows[1..], column, descending);
      forall x | x in rest
        ensures x.id != rows[0].id
      {
        InsertedMembers(x, row, rows[1..], column, descending);
      }
      DistinctCons(rows[0], rest);
    } else {
      DistinctCons(row, rows);
    }
  }

  lemma {:induction false} SortedAreDistinct(rows: seq<Row>, column: string, descending: bool)
    requires DistinctIds(rows)
    ensures DistinctIds(Sorted(rows, column, descending))
  {
    if rows != [] {
      var rest := Sorted(rows[1..], column, descending);
      SortedAreDistinct(rows[1..], column, descending);
      forall x | x in rest
        ensures x.id != rows[0].id
      {
        assert x in multiset(rest);
      }
      InsertedAreDistinct(rows[0], rest, column, descending);
    }
  }

  /** Whatever the order in which the table is read, the wanted rows come newest first and none twice, and
      those of equal time in reading order. */
  lemma WantedRowsAreListed(f: FilterData, db: seq<Row>, fold: CaseFold, time: Time)
    requires DistinctIds(db)
    ensures var rows := WantedRows(f, db, fold);
            && (forall i, j | 0 <= i < j < |rows| :: rows[i].createdAt >= rows[j].createdAt)
            && DistinctIds(rows)
            && WithKey(rows, time, "created_at") == WithKey(Filtered(f, db, fold), time, "created_at")
  {
    var rows := Filtered(f, db, fold);
    FilteredAreDistinct(f, db, fold);
    SortedAreDistinct(rows, "created_at", true);
    SortedIsSorted(rows, "created_at", true);
    SortedIsStable(rows, time, "created_at", true);
  }

  /** For every table, every order in which the database reads it and a page size of 1 to 100: the pages hold
      every wanted user once, newest first, and nobody else. */
  lemma PagesListEveryWantedUserOnce(t: UserStore.Table, scan: seq<string>, f: FilterData, fold: CaseFold)
    requires UserStore.KeyedById(t) && IsScan(scan, t)
    requires 1 <= f.pageSize <= 100
    requires |WantedRows(f, Stored(t, scan), fold)| < INT32_TOP
    ensures var db := Stored(t, scan);
            var all := Pages(f, db, fold, TotalPages(|WantedRows(f, db, fold)|, f.pageSize));
            && (forall i, j | 0 <= i < j < |all| :: all[i].createdAt >= all[j].createdAt && all[i].id != all[j].id)
            && (forall id | id in t && Wanted(f, t[id], fold) :: ToDomain(t[id]) in all)
            && (forall u | u in all :: u.id in t && Wanted(f, t[u.id], fold) && u == ToDomain(t[u.id]))
  {
    var db := Stored(t, scan);
    WhichPageSizesTile(f, db, fold);
    StoredAreDistinct(t, scan);
    WantedRowsAreListed(f, db, fold, 0);
    forall id | id in t && Wanted(f, t[id], fold)
      ensures ToDomain(t[id]) in Converted(WantedRows(f, db, fold))
    {
      WantedIsListed(t, scan, f, fold, id);
    }
    forall u | u in Converted(WantedRows(f, db, fold))
      ensures u.id in t && Wanted(f, t[u.id], fold) && u == ToDomain(t[u.id])
    {
      ListedIsWanted(t, scan, f, fold, u);
    }
  }

  lemma StoredAreDistinct(t: UserStore.Table, scan: seq<string>)
    requires UserStore.KeyedById(t) && IsScan(scan, t)
    ensures DistinctIds(Stored(t, scan))
  {
    assert forall i | 0 <= i < |scan| :: scan[i] in t && t[scan[i]].id == scan[i];
  }

  lemma WantedIsListed(t: UserStore.Table, scan: seq<string>, f: FilterData, fold: CaseFold, id: string)
    requires IsScan(scan, t) && id in t && Wanted(f, t[id], fold)
    ensures ToDomain(t[id]) in Converted(WantedRows(f, Stored(t, scan), fold))
  {
    var rows := WantedRows(f, Stored(t, scan), fold);
    var k :| 0 <= k < |scan| && scan[k] == id;
    assert Stored(t, scan)[k] == t[id];
    var i :| 0 <= i < |rows| && rows[i] == t[id];
    assert Converted(rows)[i] == ToDomain(t[id]);
  }

  lemma ListedIsWanted(t: UserStore.Table, scan: seq<string>, f: FilterData, fold: CaseFold, u: UserData)
    requires UserStore.KeyedById(t) && IsScan(scan, t)
    requires u in Converted(WantedRows(f, Stored(t, scan), fold))
    ensures u.id in t && Wanted(f, t[u.id], fold) && u == ToDomain(t[u.id])
  {
    var db := Stored(t, scan);
    var rows := WantedRows(f, db, fold);
    var i :| 0 <= i < |rows| && Converted(rows)[i] == u;
    assert rows[i] in rows;
    var k :| 0 <= k < |db| && db[k] == rows[i];
    assert scan[k] in t && t[scan[k]].id == scan[k];
  }

  // ----- the answers of successive calls -----

  function AnswerOf(req: ListRequest, db: seq<Row>, fold: CaseFold): nat -> seq<UserData> {
    k => ResponseTo(req.(page := k), db, fold).users
  }

  /** The users of the answers to pages 1 to `n`. */
  function AnsweredUsers(req: ListRequest, db: seq<Row>, fold: CaseFold, n: nat): seq<seq<UserData>> {
    Collected(AnswerOf(req, db, fold), n)
  }

  lemma {:induction false} FlattenedBlank(pages: seq<seq<UserData>>, blanked: seq<seq<UserData>>)
    requires |blanked| == |pages| && forall k | 0 <= k < |pages| :: blanked[k] == WithoutPasswords(pages[k])
    ensures Flattened(blanked) == WithoutPasswords(Flattened(pages))
  {
    if pages != [] {
      var n := |pages| - 1;
      FlattenedBlank(pages[..n], blanked[..n]);
      BlankJoin(Flattened(pages[..n]), pages[n]);
    }
  }

  lemma BlankJoin(a: seq<UserData>, b: seq<UserData>)
    ensures WithoutPasswords(a + b) == WithoutPasswords(a) + WithoutPasswords(b)
  {
  }

  lemma AnswerIsPage(req: ListRequest, db: seq<Row>, fold: CaseFold, page: nat)
    ensures AnswerOf(req, db, fold)(page) == WithoutPasswords(PageOf(FilterOf(req), db, fold)(page))
  {
    assert FilterOf(req.(page := page)) == FilterOf(req).(page := page);
  }

  lemma CollectedBlank(page: nat -> seq<UserData>, answer: nat -> seq<UserData>, n: nat)
    requires forall k: nat :: answer(k) == WithoutPasswords(page(k))
    ensures Flattened(Collected(answer, n)) == WithoutPasswords(Flattened(Collected(page, n)))
  {
    FlattenedBlank(Collected(page, n), Collected(answer, n));
  }

  /** The answers one after the other are the pages without passwords. */
  lemma AnswersAreThePages(req: ListRequest, db: seq<Row>, fold: CaseFold, n: nat)
    ensures Flattened(AnsweredUsers(req, db, fold, n)) == WithoutPasswords(Pages(FilterOf(req), db, fold, n))
  {
    forall k: nat
      ensures AnswerOf(req, db, fold)(k) == WithoutPasswords(PageOf(FilterOf(req), db, fold)(k))
    {
      AnswerIsPage(req, db, fold, k);
    }
    CollectedBlank(PageOf(FilterOf(req), db, fold), AnswerOf(req, db, fold), n);
  }

  /** The users of the table a request asks for. */
  ghost function WantedIds(t: UserStore.Table, req: ListRequest, fold: CaseFold): set<string> {
    set id | id in t && Wanted(FilterOf(req), t[id], fold)
  }

  lemma {:induction false} DistinctIdsCount(rows: seq<Row>, ids: set<string>)
    requires DistinctIds(rows)
    requires forall id :: id in ids <==> exists i :: 0 <= i < |rows| && rows[i].id == id
    ensures |ids| == |rows|
  {
    if rows == [] {
      assert ids == {};
    } else {
      var n := |rows| - 1;
      var last := rows[n].id;
      assert last in ids;
      forall id
        ensures id in ids - {last} <==> exists i :: 0 <= i < |rows[..n]| && rows[..n][i].id == id
      {
        if id in ids - {last} {
          var i :| 0 <= i < |rows| && rows[i].id == id;
          assert rows[..n][i].id == id;
        }
      }
      DistinctIdsCount(rows[..n], ids - {last});
    }
  }

  lemma WantedCount(t: UserStore.Table, scan: seq<string>, req: ListRequest, fold: CaseFold)
    requires UserStore.KeyedById(t) && IsScan(scan, t)
    ensures |WantedRows(FilterOf(req), Stored(t, scan), fold)| == |WantedIds(t, req, fold)|
  {
    var f, db := FilterOf(req), Stored(t, scan);
    var rows := WantedRows(f, db, fold);
    StoredAreDistinct(t, scan);
    WantedRowsAreListed(f, db, fold, 0);
    forall id
      ensures id in WantedIds(t, req, fold) <==> exists i :: 0 <= i < |rows| && rows[i].id == id
    {
      if id in WantedIds(t, req, fold) {
        WantedIsListed(t, scan, f, fold, id);
        var i :| 0 <= i < |Converted(rows)| && Converted(rows)[i] == ToDomain(t[id]);
        assert rows[i].id == id;
      }
      if i :| 0 <= i < |rows| && rows[i].id == id {
        assert Converted(rows)[i] in Converted(rows);
        ListedIsWanted(t, scan, f, fold, Converted(rows)[i]);
      }
    }
    DistinctIdsCount(rows, WantedIds(t, req, fold));
  }

  /** The numbers of every answer, whatever page and size were asked for: the page and size of the request, the
      number of users it asks for, and the least number of pages of that size that covers them. */
  lemma AnswerNumbers(t: UserStore.Table, scan: seq<string>, req: ListRequest, fold: CaseFold, page: int)
    requires UserStore.KeyedById(t) && IsScan(scan, t)
    requires |WantedIds(t, req, fold)| < INT32_TOP
    ensures var answer := ResponseTo(req.(page := page), Stored(t, scan), fold);
            && answer.page == page && answer.pageSize == req.pageSize
            && answer.total == |WantedIds(t, req, fold)|
            && (if req.pageSize > 0 then IsLeastCover(answer.totalPages, answer.total, req.pageSize)
                else answer.totalPages == 0)
  {
    PageDoesNotAsk(t, req, fold, page);
    WantedCount(t, scan, req.(page := page), fold);
    NumbersFor(req.(page := page), Stored(t, scan), fold, |WantedIds(t, req, fold)|);
  }

  lemma PageDoesNotAsk(t: UserStore.Table, req: ListRequest, fold: CaseFold, page: int)
    ensures WantedIds(t, req.(page := page), fold) == WantedIds(t, req, fold)
  {
    forall id | id in t
      ensures Wanted(FilterOf(req.(page := page)), t[id], fold) == Wanted(FilterOf(req), t[id], fold)
    {
    }
  }

  lemma NumbersFor(req: ListRequest, db: seq<Row>, fold: CaseFold, count: nat)
    requires |WantedRows(FilterOf(req), db, fold)| == count < INT32_TOP
    ensures var answer := ResponseTo(req, db, fold);
            && answer.page == req.page && answer.pageSize == req.pageSize && answer.total == count
            && (if req.pageSize > 0 then IsLeastCover(answer.totalPages, count, req.pageSize)
                else answer.totalPages == 0)
  {
    if req.pageSize > 0 {
      TotalPagesIsLeastCover(count, req.pageSize);
    }
  }

  /** How many users one answer holds: pages below 1 count as page 1, sizes below 1 as 20, sizes above 100 as
      100, and the last page holds the rest. */
  lemma AnswerLength(req: ListRequest, db: seq<Row>, fold: CaseFold)
    requires IsInt32(req.page)
    ensures var size := if req.pageSize < 1 then 20 else Min(req.pageSize, 100);
            var before := if req.page < 1 then 0 else (req.page - 1) * size;
            var total := |WantedRows(FilterOf(req), db, fold)|;
            |ResponseTo(req, db, fold).users| ==
            if before >= total then 0 else Min(size, total - before)
  {
    OffsetFits(req.page, req.pageSize);
    var rows := WantedRows(FilterOf(req), db, fold);
    SliceLength(rows, Offset(req.page, req.pageSize), ClampedSize(req.pageSize));
  }

  lemma SliceLength(rows: seq<Row>, start: nat, size: nat)
    ensures |Slice(rows, start, size)| == if start >= |rows| then 0 else Min(size, |rows| - start)
  {
  }

  /** End to end: for every table, every order in which it is read and sizes 1 to 100, the answers to pages 1 to
      the number of pages any answer reports hold, one after the other, every user the request asks for exactly
      once, newest first, with an empty password, and nobody else. */
  lemma AnswersListEveryWantedUserOnce(t: UserStore.Table, scan: seq<string>, req: ListRequest, fold: CaseFold)
    requires UserStore.KeyedById(t) && IsScan(scan, t)
    requires 1 <= req.pageSize <= 100 && |WantedIds(t, req, fold)| < INT32_TOP
    ensures var db := Stored(t, scan);
            var n := ResponseTo(req, db, fold).totalPages;
            n >= 0 &&
            var all := Flattened(AnsweredUsers(req, db, fold, n));
            && (forall i, j | 0 <= i < j < |all| :: all[i].createdAt >= all[j].createdAt && all[i].id != all[j].id)
            && (forall id | id in WantedIds(t, req, fold) :: ToDomain(t[id]).(password := "") in all)
            && (forall u | u in all :: u.id in WantedIds(t, req, fold) && u == ToDomain(t[u.id]).(password := ""))
  {
    var f, db := FilterOf(req), Stored(t, scan);
    WantedCount(t, scan, req, fold);
    AnswerNumbers(t, scan, req, fold, req.page);
    assert req.(page := req.page) == req;
    PagesListEveryWantedUserOnce(t, scan, f, fold);
    var n := ResponseTo(req, db, fold).totalPages;
    AnswersAreThePages(req, db, fold, n);
    BlankedHoldsTheSame(Pages(f, db, fold, n), t, WantedIds(t, req, fold));
  }

  lemma BlankedHoldsTheSame(users: seq<UserData>, t: UserStore.Table, ids: set<string>)
    requires forall id | id in ids :: id in t && ToDomain(t[id]) in users
    requires forall u | u in users :: u.id in ids && u.id in t && u == ToDomain(t[u.id])
    ensures var all := WithoutPasswords(users);
            && (forall id | id in ids :: ToDomain(t[id]).(password := "") in all)
            && (forall u | u in all :: u.id in ids && u == ToDomain(t[u.id]).(password := ""))
  {
    var all := WithoutPasswords(users);
    forall id | id in ids
      ensures ToDomain(t[id]).(password := "") in all
    {
      var i :| 0 <= i < |users| && users[i] == ToDomain(t[id]);
      assert all[i] == ToDomain(t[id]).(password := "");
    }
    forall u | u in all
      ensures u.id in ids && u == ToDomain(t[u.id]).(password := "")
    {
      var i :| 0 <= i < |all| && all[i] == u;
      assert users[i] in users;
    }
  }
}
