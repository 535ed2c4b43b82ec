/** The admin dashboard (client/src/pages/dashboard/AdminDashboard.tsx): one pass over the user
    documents builds the investor count, the overall total, per-project statistics and the flat
    table of investment rows; the table is then filtered by project and shown a page at a time. */
module AdminDashboard {
  import opened Options
  import opened Strings
  import opened ClientTypes

  /** A document of the `users` collection; a missing `investments` field is the empty list. */
  datatype UserDoc = UserDoc(uid: string, name: string, phone: string, email: string, investments: seq<Investment>)

  /** A row of the investments table: the user's details followed by the spread investment. */
  datatype Row = Row(userId: string, userName: string, userPhone: string, userEmail: string, investment: Investment)

  datatype ProjectStats = ProjectStats(totalInvestors: int, totalAmount: int, investments: seq<Investment>)

  /** `Statistics`. `projectOrder` lists the keys of `projectWiseStats` in the order they were
      first set, which is the order in which the page lists the project cards. */
  datatype Statistics = Statistics(
    totalInvestors: int, totalInvestment: int,
    projectWiseStats: map<string, ProjectStats>, projectOrder: seq<string>)

  /** The pushed row. The spread `...investment` comes after `userId: doc.id`, so the row's
      `userId` is the investment's own, not the document id. */
  function MakeRow(user: UserDoc, inv: Investment): (r: Row)
    ensures r.investment == inv && r.userId == inv.userId
    ensures r.userName == user.name && r.userPhone == user.phone && r.userEmail == user.email
  {
    Row(inv.userId, user.name, user.phone, user.email, inv)
  }

  /** Every investment of every user, in user order and then list order. */
  function AllInvestments(users: seq<UserDoc>): seq<Investment> {
    if users == [] then [] else AllInvestments(users[..|users| - 1]) + users[|users| - 1].investments
  }

  /** The rows of one user's investments. */
  function RowsOf(user: UserDoc, invs: seq<Investment>): (rows: seq<Row>)
    ensures |rows| == |invs|
  {
    if invs == [] then [] else RowsOf(user, invs[..|invs| - 1]) + [MakeRow(user, invs[|invs| - 1])]
  }

  /** The flat table: the rows of the first user, then of the second, and so on. */
  function FlattenRows(users: seq<UserDoc>): seq<Row> {
    if users == [] then []
    else FlattenRows(users[..|users| - 1]) + RowsOf(users[|users| - 1], users[|users| - 1].investments)
  }

  /** The number of users with at least one investment. */
  function CountInvestors(users: seq<UserDoc>): (n: nat)
    ensures n <= |users|
  {
    if users == [] then 0
    else CountInvestors(users[..|users| - 1]) + (if |users[|users| - 1].investments| > 0 then 1 else 0)
  }

  /** The sum of the amounts. */
  function Sum(invs: seq<Investment>): int {
    if invs == [] then 0 else Sum(invs[..|invs| - 1]) + invs[|invs| - 1].amount
  }

  /** The investments in one project, in order. */
  function OfProject(invs: seq<Investment>, name: string): (r: seq<Investment>)
    ensures |r| <= |invs|
    ensures forall i :: 0 <= i < |r| ==> r[i].projectName == name
    ensures r == [] <==> forall i :: 0 <= i < |invs| ==> invs[i].projectName != name
  {
    if invs == [] then []
    else
      var init := invs[..|invs| - 1];
      var last := invs[|invs| - 1];
      var r := OfProject(init, name) + (if last.projectName == name then [last] else []);
      assert forall i :: 0 <= i < |init| ==> init[i] == invs[i];
      r
  }

  /** What the statistics hold for one project: the number, the sum and the list of its investments. */
  function Entry(invs: seq<Investment>, name: string): ProjectStats {
    ProjectStats(|OfProject(invs, name)|, Sum(OfProject(invs, name)), OfProject(invs, name))
  }

  /** There is an entry for a project iff one of the investments is in it. */
  ghost predicate KeysExact(per: map<string, ProjectStats>, invs: seq<Investment>) {
    forall k :: k in per <==> OfProject(invs, k) != []
  }

  /** Each entry counts, sums and lists its project's investments. */
  ghost predicate EntriesExact(per: map<string, ProjectStats>, invs: seq<Investment>) {
    forall k :: k in per ==> per[k] == Entry(invs, k)
  }

  /** `order` lists each key once. */
  ghost predicate ListsKeysOnce(order: seq<string>, per: map<string, ProjectStats>) {
    && (forall k :: k in order <==> k in per)
    && (forall a, b :: 0 <= a < b < |order| ==> order[a] != order[b])
  }

  /** The project statistics describe `invs` exactly. */
  ghost predicate StatsOf(per: map<string, ProjectStats>, order: seq<string>, invs: seq<Investment>) {
    KeysExact(per, invs) && EntriesExact(per, invs) && ListsKeysOnce(order, per)
  }

  /** The project totals, added up in card order. */
  function SumOver(order: seq<string>, per: map<string, ProjectStats>): int {
    if order == [] then 0
    else SumOver(order[..|order| - 1], per) + (if order[|order| - 1] in per then per[order[|order| - 1]].totalAmount else 0)
  }

  lemma SumSnoc(invs: seq<Investment>, x: Investment)
    ensures Sum(invs + [x]) == Sum(invs) + x.amount
  {
    assert (invs + [x])[..|invs|] == invs;
  }

  lemma OfProjectSnoc(invs: seq<Investment>, x: Investment, name: string)
    ensures x.projectName == name ==> OfProject(invs + [x], name) == OfProject(invs, name) + [x]
    ensures x.projectName != name ==> OfProject(invs + [x], name) == OfProject(invs, name)
  {
    assert (invs + [x])[..|invs|] == invs;
    assert OfProject(invs, name) + [] == OfProject(invs, name);
  }

  /** Changing an entry that `order` does not list leaves the sum alone. */
  lemma {:induction false} SumOverIgnores(order: seq<string>, per: map<string, ProjectStats>, k: string, v: ProjectStats)
    requires k !in order
    ensures SumOver(order, per[k := v]) == SumOver(order, per)
  {
    if order != [] {
      SumOverIgnores(order[..|order| - 1], per, k, v);
    }
  }

  /** Changing an entry that `order` lists once moves the sum by the change in its amount. */
  lemma {:induction false} SumOverBump(order: seq<string>, per: map<string, ProjectStats>, k: string, v: ProjectStats)
    requires k in order && k in per
    requires forall a, b :: 0 <= a < b < |order| ==> order[a] != order[b]
    ensures SumOver(order, per[k := v]) == SumOver(order, per) - per[k].totalAmount + v.totalAmount
  {
    var init := order[..|order| - 1];
    if order[|order| - 1] == k {
      assert k !in init by {
        forall a | 0 <= a < |init| ensures init[a] != k {
          assert init[a] == order[a];
        }
      }
      SumOverIgnores(init, per, k, v);
    } else {
      assert k in init by {
        var a :| 0 <= a < |order| && order[a] == k;
        assert a < |order| - 1 && init[a] == k;
      }
      SumOverBump(init, per, k, v);
    }
  }

  /** The entries after recording investment `x`: its project's entry is created if missing,
      then counts, sums and lists one more investment. */
  function Record(per: map<string, ProjectStats>, x: Investment): map<string, ProjectStats> {
    var s := if x.projectName in per then per[x.projectName] else ProjectStats(0, 0, []);
    per[x.projectName := ProjectStats(s.totalInvestors + 1, s.totalAmount + x.amount, s.investments + [x])]
  }

  /** The entries built from `invs`, one investment at a time. */
  function StatsMap(invs: seq<Investment>): map<string, ProjectStats> {
    if invs == [] then map[] else Record(StatsMap(invs[..|invs| - 1]), invs[|invs| - 1])
  }

  /** The keys of `StatsMap(invs)` in the order they were created. */
  function KeyOrder(invs: seq<Investment>): seq<string> {
    if invs == [] then []
    else
      var init := invs[..|invs| - 1];
      var name := invs[|invs| - 1].projectName;
      if name in StatsMap(init) then KeyOrder(init) else KeyOrder(init) + [name]
  }

  ghost predicate Recorded(per: map<string, ProjectStats>, order: seq<string>, x: Investment,
                           per': map<string, ProjectStats>, order': seq<string>) {
    && order' == (if x.projectName in per then order else order + [x.projectName])
    && per' == Record(per, x)
  }

  lemma KeysStep(per: map<string, ProjectStats>, order: seq<string>, done: seq<Investment>, x: Investment,
                 per': map<string, ProjectStats>, order': seq<string>)
    requires KeysExact(per, done) && Recorded(per, order, x, per', order')
    ensures KeysExact(per', done + [x])
  {
    forall name
      ensures name in per' <==> OfProject(done + [x], name) != []
    {
      OfProjectSnoc(done, x, name);
    }
  }

  /** The entry `Record` writes for the investment's project is that project's entry after it. */
  lemma RecordedEntry(per: map<string, ProjectStats>, done: seq<Investment>, x: Investment)
    requires KeysExact(per, done) && EntriesExact(per, done)
    ensures Record(per, x)[x.projectName] == Entry(done + [x], x.projectName)
  {
    var k := x.projectName;
    var e := OfProject(done, k);
    OfProjectSnoc(done, x, k);
    SumSnoc(e, x);
    if k !in per {
      assert e == [];
    }
  }

  lemma EntriesStep(per: map<string, ProjectStats>, order: seq<string>, done: seq<Investment>, x: Investment,
                    per': map<string, ProjectStats>, order': seq<string>)
    requires KeysExact(per, done) && EntriesExact(per, done) && Recorded(per, order, x, per', order')
    ensures EntriesExact(per', done + [x])
  {
    var k := x.projectName;
    RecordedEntry(per, done, x);
    forall name | name in per'
      ensures per'[name] == Entry(done + [x], name)
    {
      if name != k {
        OfProjectSnoc(done, x, name);
        assert per'[name] == per[name];
      }
    }
  }

  lemma OrderStep(per: map<string, ProjectStats>, order: seq<string>, x: Investment,
                  per': map<string, ProjectStats>, order': seq<string>)
    requires ListsKeysOnce(order, per) && Recorded(per, order, x, per', order')
    ensures ListsKeysOnce(order', per')
  {
    var k := x.projectName;
    forall a, b | 0 <= a < b < |order'|
      ensures order'[a] != order'[b]
    {
      if k !in per && b == |order| {
        assert order'[a] == order[a] && order[a] in order;
      }
    }
  }

  /** One iteration of the inner loop moves the sum of the project totals by the investment's amount. */
  lemma SumStep(per: map<string, ProjectStats>, order: seq<string>, x: Investment,
                per': map<string, ProjectStats>, order': seq<string>)
    requires ListsKeysOnce(order, per) && Recorded(per, order, x, per', order')
    ensures SumOver(order', per') == SumOver(order, per) + x.amount
  {
    var k := x.projectName;
    if k in per {
      SumOverBump(order, per, k, per'[k]);
    } else {
      SumOverIgnores(order, per, k, per'[k]);
      assert (order + [k])[..|order|] == order;
    }
  }

  /** The entries and their order describe the investments exactly. */
  lemma {:induction false} StatsMapExact(invs: seq<Investment>)
    ensures StatsOf(StatsMap(invs), KeyOrder(invs), invs)
    ensures SumOver(KeyOrder(invs), StatsMap(invs)) == Sum(invs)
  {
    if invs == [] {
      forall k ensures OfProject(invs, k) == [] { }
    } else {
      var init := invs[..|invs| - 1];
      var x := invs[|invs| - 1];
      StatsMapExact(init);
      assert init + [x] == invs;
      var per, order := StatsMap(init), KeyOrder(init);
      assert Recorded(per, order, x, StatsMap(invs), KeyOrder(invs));
      KeysStep(per, order, init, x, StatsMap(invs), KeyOrder(invs));
      EntriesStep(per, order, init, x, StatsMap(invs), KeyOrder(invs));
      OrderStep(per, order, x, StatsMap(invs), KeyOrder(invs));
      SumStep(per, order, x, StatsMap(invs), KeyOrder(invs));
      SumSnoc(init, x);
    }
  }

  lemma RecordSnoc(seen: seq<Investment>, x: Investment)
    ensures StatsMap(seen + [x]) == Record(StatsMap(seen), x)
    ensures KeyOrder(seen + [x]) == if x.projectName in StatsMap(seen) then KeyOrder(seen) else KeyOrder(seen) + [x.projectName]
    ensures Sum(seen + [x]) == Sum(seen) + x.amount
  {
    assert (seen + [x])[..|seen|] == seen;
  }

  /** One step of the inner loop extends the processed investments and the pushed rows by one. */
  lemma PrefixStep(user: UserDoc, done: seq<Investment>, rows: seq<Row>, invs: seq<Investment>, j: nat,
                   seen: seq<Investment>, rows': seq<Row>)
    requires j < |invs| && seen == done + invs[..j] && rows' == rows + RowsOf(user, invs[..j])
    ensures seen + [invs[j]] == done + invs[..j + 1]
    ensures rows' + [MakeRow(user, invs[j])] == rows + RowsOf(user, invs[..j + 1])
  {
    assert invs[..j + 1] == invs[..j] + [invs[j]];
    assert invs[..j + 1][..j] == invs[..j];
  }

  /** The inner `forEach` over one user's investments: each is pushed as a row, recorded in its
      project's entry (created on first sight) and added to the overall total. */
  method RecordInvestments(user: UserDoc, ghost done: seq<Investment>, rows: seq<Row>, total: int,
                           per: map<string, ProjectStats>, order: seq<string>)
    returns (rows': seq<Row>, total': int, per': map<string, ProjectStats>, order': seq<string>)
    requires total == Sum(done) && per == StatsMap(done) && order == KeyOrder(done)
    ensures rows' == rows + RowsOf(user, user.investments)
    ensures total' == Sum(done + user.investments)
    ensures per' == StatsMap(done + user.investments) && order' == KeyOrder(done + user.investments)
  {
    var invs := user.investments;
    rows', total', per', order' := rows, total, per, order;
    ghost var seen := done;
    var j := 0;
    assert invs[..j] == [] && done + [] == done;
    while j < |invs|
      invariant 0 <= j <= |invs|
      invariant seen == done + invs[..j]
      invariant rows' == rows + RowsOf(user, invs[..j])
      invariant total' == Sum(seen)
      invariant per' == StatsMap(seen) && order' == KeyOrder(seen)
    {
      var inv := invs[j];
      PrefixStep(user, done, rows, invs, j, seen, rows');
      RecordSnoc(seen, inv);
      rows' := rows' + [MakeRow(user, inv)];
      if inv.projectName !in per' {
        order' := order' + [inv.projectName];
      }
      per' := Record(per', inv);
      total' := total' + inv.amount;
      seen := seen + [inv];
      j := j + 1;
    }
    assert invs[..j] == invs;
  }

  /** `fetchData`'s loop over the user documents. The rows are the flat table, the counters are
      the investor count and the overall total, and the per-project statistics are exact and
      their totals add up to the overall total. */
  method Aggregate(users: seq<UserDoc>) returns (rows: seq<Row>, stats: Statistics)
    ensures rows == FlattenRows(users)
    ensures stats.totalInvestors == CountInvestors(users)
    ensures stats.totalInvestment == Sum(AllInvestments(users))
    ensures StatsOf(stats.projectWiseStats, stats.projectOrder, AllInvestments(users))
    ensures SumOver(stats.projectOrder, stats.projectWiseStats) == stats.totalInvestment
    ensures stats.projectOrder == KeyOrder(AllInvestments(users))
  {
    rows := [];
    var totalInvestors := 0;
    var totalInvestment := 0;
    var per: map<string, ProjectStats> := map[];
    var order: seq<string> := [];
    var i := 0;
    while i < |users|
      invariant 0 <= i <= |users|
      invariant rows == FlattenRows(users[..i])
      invariant totalInvestors == CountInvestors(users[..i])
      invariant totalInvestment == Sum(AllInvestments(users[..i]))
      invariant per == StatsMap(AllInvestments(users[..i])) && order == KeyOrder(AllInvestments(users[..i]))
    {
      var user := users[i];
      assert users[..i + 1][..i] == users[..i];
      if |user.investments| > 0 {
        totalInvestors := totalInvestors + 1;
        rows, totalInvestment, per, order :=
          RecordInvestments(user, AllInvestments(users[..i]), rows, totalInvestment, per, order);
      } else {
        assert AllInvestments(users[..i + 1]) == AllInvestments(users[..i]);
      }
      i := i + 1;
    }
    assert users[..i] == users;
    stats := Statistics(totalInvestors, totalInvestment, per, order);
    StatsMapExact(AllInvestments(users));
  }

  /** The investments shown in a list of rows. */
  function Investments(rows: seq<Row>): (invs: seq<Investment>)
    ensures |invs| == |rows|
  {
    seq(|rows|, k requires 0 <= k < |rows| => rows[k].investment)
  }

  lemma InvestmentsAppend(a: seq<Row>, b: seq<Row>)
    ensures Investments(a + b) == Investments(a) + Investments(b)
  {
    assert forall k :: 0 <= k < |a + b| ==> Investments(a + b)[k] == (Investments(a) + Investments(b))[k];
  }

  lemma {:induction false} InvestmentsOfRowsOf(user: UserDoc, invs: seq<Investment>)
    ensures Investments(RowsOf(user, invs)) == invs
  {
    if invs != [] {
      var init := invs[..|invs| - 1];
      InvestmentsOfRowsOf(user, init);
      InvestmentsAppend(RowsOf(user, init), [MakeRow(user, invs[|invs| - 1])]);
      assert init + [invs[|invs| - 1]] == invs;
    }
  }

  /** The table has one row per investment, in the order of `AllInvestments`. */
  lemma {:induction false} RowsFollowInvestments(users: seq<UserDoc>)
    ensures Investments(FlattenRows(users)) == AllInvestments(users)
  {
    if users != [] {
      var last := users[|users| - 1];
      RowsFollowInvestments(users[..|users| - 1]);
      InvestmentsAppend(FlattenRows(users[..|users| - 1]), RowsOf(last, last.investments));
      InvestmentsOfRowsOf(last, last.investments);
    }
  }

  /** No investor is counted exactly when there is no investment. */
  lemma {:induction false} NoInvestorsIff(users: seq<UserDoc>)
    ensures CountInvestors(users) == 0 <==> AllInvestments(users) == []
  {
    if users != [] {
      NoInvestorsIff(users[..|users| - 1]);
    }
  }

  /** The rows of one project, in order. */
  function RowsOfProject(rows: seq<Row>, name: string): (r: seq<Row>)
    ensures |r| <= |rows|
    ensures forall x :: x in r ==> x in rows && x.investment.projectName == name
    ensures forall i :: 0 <= i < |rows| && rows[i].investment.projectName == name ==> rows[i] in r
  {
    if rows == [] then []
    else
      var init := rows[..|rows| - 1];
      var last := rows[|rows| - 1];
      var r := RowsOfProject(init, name) + (if last.investment.projectName == name then [last] else []);
      assert forall i :: 0 <= i < |init| ==> init[i] == rows[i];
      r
  }

  /** `filteredInvestments`: every row for "all", otherwise exactly the rows of the selected
      project. */
  function FilteredInvestments(rows: seq<Row>, selectedProject: string): (r: seq<Row>)
    ensures selectedProject == "all" ==> r == rows
    ensures selectedProject != "all" ==>
      && (forall x :: x in r ==> x in rows && x.investment.projectName == selectedProject)
      && (forall i :: 0 <= i < |rows| && rows[i].investment.projectName == selectedProject ==> rows[i] in r)
  {
    if selectedProject == "all" then rows else RowsOfProject(rows, selectedProject)
  }

  lemma {:induction false} InvestmentsOfRowsOfProject(rows: seq<Row>, name: string)
    ensures Investments(RowsOfProject(rows, name)) == OfProject(Investments(rows), name)
  {
    if rows != [] {
      var init := rows[..|rows| - 1];
      var last := rows[|rows| - 1];
      InvestmentsOfRowsOfProject(init, name);
      assert Investments(rows) == Investments(init) + [last.investment] by {
        InvestmentsAppend(init, [last]);
        assert init + [last] == rows;
      }
      OfProjectSnoc(Investments(init), last.investment, name);
      var tail := if last.investment.projectName == name then [last] else [];
      InvestmentsAppend(RowsOfProject(init, name), tail);
      assert Investments(tail) == if last.investment.projectName == name then [last.investment] else [];
    }
  }

  /** Filtering the table by a project shows that project's investments, as many as its card's
      investor count. */
  lemma FilterMatchesProjectStats(users: seq<UserDoc>, stats: Statistics, name: string)
    requires StatsOf(stats.projectWiseStats, stats.projectOrder, AllInvestments(users))
    requires name != "all" && name in stats.projectWiseStats
    ensures Investments(FilteredInvestments(FlattenRows(users), name)) == stats.projectWiseStats[name].investments
    ensures |FilteredInvestments(FlattenRows(users), name)| == stats.projectWiseStats[name].totalInvestors
  {
    InvestmentsOfRowsOfProject(FlattenRows(users), name);
    RowsFollowInvestments(users);
  }

  function Min(a: int, b: int): int {
    if a <= b then a else b
  }

  /** `rows.slice(page * rowsPerPage, (page + 1) * rowsPerPage)`: the slice is clipped to the list,
      so a page holds at most `rowsPerPage` rows and a page past the end is empty. */
  function PageRows<T>(rows: seq<T>, page: nat, rowsPerPage: nat): (r: seq<T>)
    ensures |r| <= rowsPerPage
    ensures forall k :: 0 <= k < |r| ==> page * rowsPerPage + k < |rows| && r[k] == rows[page * rowsPerPage + k]
    ensures (page + 1) * rowsPerPage <= |rows| ==> |r| == rowsPerPage
    ensures page * rowsPerPage <= |rows| <= (page + 1) * rowsPerPage ==> |r| == |rows| - page * rowsPerPage
    ensures |rows| <= page * rowsPerPage ==> r == []
  {
    var start := Min(page * rowsPerPage, |rows|);
    var end := Min((page + 1) * rowsPerPage, |rows|);
    assert (page + 1) * rowsPerPage == page * rowsPerPage + rowsPerPage;
    rows[start..end]
  }

  /** Every row is on exactly the page its index says. */
  lemma PageOfIndex<T>(rows: seq<T>, rowsPerPage: nat, index: nat)
    requires rowsPerPage > 0 && index < |rows|
    ensures index / rowsPerPage * rowsPerPage <= index
    ensures PageRows(rows, index / rowsPerPage, rowsPerPage)[index % rowsPerPage] == rows[index]
  {
    var page := index / rowsPerPage;
    assert page * rowsPerPage + index % rowsPerPage == index;
    assert (page + 1) * rowsPerPage == page * rowsPerPage + rowsPerPage;
  }

  /** The date part of an ISO timestamp: what precedes the first `T`. */
  function DatePart(iso: string): (date: string)
    ensures 'T' !in date && StartsWith(iso, date)
    ensures |date| == |iso| || iso[|date|] == 'T'
  {
    SplitPiecesHaveNoSeparator(iso, 'T');
    SplitFirstPiece(iso, 'T');
    SplitOn(iso, 'T')[0]
  }

  /** The spreadsheet's file name, given the current time as an ISO string. */
  function ExportFileName(selectedProject: string, isoNow: string): (r: string)
    ensures selectedProject == "all" ==> r == "All_Projects_Investments_" + DatePart(isoNow) + ".xlsx"
    ensures selectedProject != "all" ==> r == selectedProject + "_Investments_" + DatePart(isoNow) + ".xlsx"
  {
    var date := DatePart(isoNow);
    if selectedProject == "all" then "All_Projects_Investments_" + date + ".xlsx"
    else selectedProject + "_Investments_" + date + ".xlsx"
  }

  /** The page's state. */
  class Dashboard {
    var loading: bool
    var projects: seq<Project>
    var selectedProject: string
    var investmentData: seq<Row>
    var statistics: Statistics
    var page: nat
    var rowsPerPage: nat
    var lastRefresh: Timestamp

    constructor (now: Timestamp)
      ensures loading && projects == [] && selectedProject == "all" && investmentData == []
      ensures statistics == Statistics(0, 0, map[], []) && page == 0 && rowsPerPage == 10
      ensures lastRefresh == now
    {
      loading := true;
      projects := [];
      selectedProject := "all";
      investmentData := [];
      statistics := Statistics(0, 0, map[], []);
      page := 0;
      rowsPerPage := 10;
      lastRefresh := now;
    }

    /** The rows on screen. */
    function DisplayedRows(): (r: seq<Row>)
      reads this
      ensures |r| <= rowsPerPage
    {
      PageRows(FilteredInvestments(investmentData, selectedProject), page, rowsPerPage)
    }

    /** `fetchData`, given the two collection reads (`None` when a read fails). A failed users read
        fails before anything is set; a failed projects read fails before the projects are set;
        otherwise the projects, rows, statistics and refresh time are replaced. Loading ends
        either way. */
    method FetchData(usersSnapshot: Option<seq<UserDoc>>, projectsSnapshot: Option<seq<Project>>, now: Timestamp)
      modifies this
      ensures !loading
      ensures selectedProject == old(selectedProject) && page == old(page) && rowsPerPage == old(rowsPerPage)
      ensures usersSnapshot.None? || projectsSnapshot.None? ==>
        projects == old(projects) && investmentData == old(investmentData) &&
        statistics == old(statistics) && lastRefresh == old(lastRefresh)
      ensures usersSnapshot.Some? && projectsSnapshot.Some? ==>
        && projects == projectsSnapshot.value
        && investmentData == FlattenRows(usersSnapshot.value)
        && statistics.totalInvestors == CountInvestors(usersSnapshot.value)
        && statistics.totalInvestment == Sum(AllInvestments(usersSnapshot.value))
        && StatsOf(statistics.projectWiseStats, statistics.projectOrder, AllInvestments(usersSnapshot.value))
        && statistics.projectOrder == KeyOrder(AllInvestments(usersSnapshot.value))
        && lastRefresh == now
    {
      loading := true;
      if usersSnapshot.Some? && projectsSnapshot.Some? {
        projects := projectsSnapshot.value;
        var rows, stats := Aggregate(usersSnapshot.value);
        investmentData := rows;
        statistics := stats;
        lastRefresh := now;
      }
      loading := false;
    }

    /** The project filter's `onValueChange`. */
    method SelectProject(name: string)
      modifies this
      ensures selectedProject == name
      ensures investmentData == old(investmentData) && page == old(page) && rowsPerPage == old(rowsPerPage)
      ensures loading == old(loading) && projects == old(projects) && statistics == old(statistics)
      ensures lastRefresh == old(lastRefresh)
    {
      selectedProject := name;
    }
  }
}
