/** Cursor pagination of the compatibility listing: newest first, the cursor being the gid of the
    last transaction of the page before. */
module Pagination {
  import opened Core
  import opened Ordering

  datatype Query = Query(
    gid: Option<string>,
    transType: Option<string>,
    status: Option<string>,
    position: Option<string>,
    limit: Option<nat>,
    createdFrom: Option<nat>,
    createdTo: Option<nat>)

  datatype Response =
    | Page(transactions: seq<Transaction>, nextPosition: string)
    | Invalid(message: string)

  function KindName(kind: TransactionKind): string {
    match kind
    case Saga => "saga"
    case Workflow => "workflow"
    case Message => "msg"
    case Xa => "xa"
    case Tcc => "tcc"
  }

  function StatusName(status: TransactionStatus): string {
    match status
    case Submitted | Trying | Succeeding => "submitted"
    case Prepared => "prepared"
    case Succeeded => "succeed"
    case Aborting => "aborting"
    case Aborted | Failed => "failed"
  }

  predicate Matches(q: Query, tx: Transaction) {
    && (q.gid.Some? ==> tx.gid == q.gid.value)
    && (q.transType.Some? ==>
          KindName(tx.kind) == q.transType.value || (tx.kind.Message? && q.transType.value == "message"))
    && (q.status.Some? ==>
          StatusName(tx.status) == q.status.value || (tx.status.Succeeded? && q.status.value == "succeeded"))
    && (q.createdFrom.Some? ==> tx.createdAt >= q.createdFrom.value)
    && (q.createdTo.Some? ==> tx.createdAt <= q.createdTo.value)
  }

  predicate Newer(a: Transaction, b: Transaction) {
    a.createdAt > b.createdAt || (a.createdAt == b.createdAt && TextLeq(b.gid, a.gid))
  }

  function Clamp(limit: Option<nat>): nat {
    match limit
    case None => 100
    case Some(n) => if n < 1 then 1 else if n > 200 then 200 else n
  }

  lemma NewerIsPreorder()
    ensures TotalPreorder(Newer)
  {
    forall a, b ensures Newer(a, b) || Newer(b, a) { TextTotal(a.gid, b.gid); }
    forall a, b, c | Newer(a, b) && Newer(b, c) ensures Newer(a, c) {
      if TextLeq(c.gid, b.gid) && TextLeq(b.gid, a.gid) { TextTransitive(c.gid, b.gid, a.gid); }
    }
  }

  function Selects(q: Query): Transaction -> bool { tx => Matches(q, tx) }

  /** All matching transactions, newest first. */
  function Matching(all: seq<Transaction>, q: Query): seq<Transaction> {
    Sort(Filter(all, Selects(q)), Newer)
  }

  function IndexOfGid(list: seq<Transaction>, gid: string): (r: Option<nat>)
    ensures r.None? ==> forall i :: 0 <= i < |list| ==> list[i].gid != gid
    ensures r.Some? ==> r.value < |list| && list[r.value].gid == gid && forall i :: 0 <= i < r.value ==> list[i].gid != gid
  {
    if list == [] then None
    else if list[0].gid == gid then Some(0)
    else match IndexOfGid(list[1..], gid)
      case Some(i) => Some(i + 1)
      case None => assert forall i :: 1 <= i < |list| ==> list[i] == list[1..][i - 1]; None
  }

  /** Where the page starts. */
  function Start(list: seq<Transaction>, position: Option<string>): (r: Option<nat>)
    ensures r.Some? ==> r.value <= |list|
  {
    if position.None? || position.value == "" then Some(0)
    else if |position.value| > 128 then None
    else match IndexOfGid(list, position.value)
      case Some(i) => Some(i + 1)
      case None => None
  }

  function Min(a: nat, b: nat): nat { if a < b then a else b }

  /** build_compat_all_response */
  function List(all: seq<Transaction>, q: Query): Response {
    if q.createdFrom.Some? && q.createdTo.Some? && q.createdFrom.value > q.createdTo.value then
      Invalid("createTimeStart must not exceed createTimeEnd")
    else
      PageOf(Matching(all, q), q.position, Clamp(q.limit))
  }

  function PageOf(list: seq<Transaction>, position: Option<string>, limit: nat): Response {
    match Start(list, position)
    case None => Invalid("invalid transaction position")
    case Some(from) =>
      var to := from + Min(limit, |list| - from);
      Page(list[from..to], if to < |list| && to > from then list[to - 1].gid else "")
  }

  // ---------------------------------------------------------------------
  // Following the cursor

  predicate DistinctGids(all: seq<Transaction>) {
    forall i, j :: 0 <= i < j < |all| ==> all[i].gid != all[j].gid
  }

  /** A gid that can serve as a cursor. */
  predicate Addressable(gid: string) { gid != "" && |gid| <= 128 }

  predicate ValidRange(q: Query) {
    q.createdFrom.Some? && q.createdTo.Some? ==> q.createdFrom.value <= q.createdTo.value
  }

  lemma MatchingMembers(all: seq<Transaction>, q: Query)
    ensures forall tx :: tx in Matching(all, q) <==> tx in all && Matches(q, tx)
  {
    NewerIsPreorder();
    SortKeeps(Filter(all, Selects(q)), Newer);
  }

  /** The cursor does not change the listing. */
  lemma SameListing(all: seq<Transaction>, q: Query, position: Option<string>)
    ensures Matching(all, q.(position := position)) == Matching(all, q)
  {
    FilterSame(all, Selects(q.(position := position)), Selects(q));
  }

  lemma MatchingDistinct(all: seq<Transaction>, q: Query)
    requires DistinctGids(all)
    ensures DistinctGids(Matching(all, q))
  {
    NewerIsPreorder();
    var keep := Selects(q);
    assert NoDuplicates(all);
    FilterNoDuplicates(all, keep);
    SortKeeps(Filter(all, keep), Newer);
    MatchingMembers(all, q);
    var list := Matching(all, q);
    forall i, j | 0 <= i < j < |list| ensures list[i].gid != list[j].gid {
      assert list[i] in all && list[j] in all && list[i] != list[j];
    }
  }

  /** The whole listing holds every matching transaction exactly once, by creation time and then gid,
      both strictly descending. */
  lemma ListingIsExact(all: seq<Transaction>, q: Query)
    requires DistinctGids(all)
    ensures forall tx :: tx in all && Matches(q, tx) ==> multiset(Matching(all, q))[tx] == 1
    ensures forall tx :: tx in Matching(all, q) ==> tx in all && Matches(q, tx)
    ensures forall i, j :: 0 <= i < j < |Matching(all, q)| ==>
              var (a, b) := (Matching(all, q)[i], Matching(all, q)[j]);
              a.createdAt > b.createdAt || (a.createdAt == b.createdAt && TextLeq(b.gid, a.gid) && a.gid != b.gid)
  {
    var list := Matching(all, q);
    NewerIsPreorder();
    MatchingMembers(all, q);
    MatchingDistinct(all, q);
    assert NoDuplicates(list);
    NoDuplicatesCount(list);
    SortSorted(Filter(all, Selects(q)), Newer);
    forall tx | tx in all && Matches(q, tx) ensures multiset(list)[tx] == 1 {
      assert tx in list;
      assert multiset(list)[tx] <= 1;
    }
  }

  /** The words that a query can ask for, as a client reads them. */
  function StatusesOf(word: string): set<TransactionStatus> {
    if word == "submitted" then {Submitted, Trying, Succeeding}
    else if word == "prepared" then {Prepared}
    else if word == "succeed" || word == "succeeded" then {TransactionStatus.Succeeded}
    else if word == "aborting" then {Aborting}
    else if word == "failed" then {Aborted, TransactionStatus.Failed}
    else {}
  }

  function KindsOf(word: string): set<TransactionKind> {
    if word == "saga" then {Saga}
    else if word == "workflow" then {Workflow}
    else if word == "msg" || word == "message" then {Message}
    else if word == "xa" then {Xa}
    else if word == "tcc" then {Tcc}
    else {}
  }

  predicate Within(from: Option<nat>, to: Option<nat>, time: nat) {
    match (from, to)
    case (None, None) => true
    case (Some(a), None) => a <= time
    case (None, Some(b)) => time <= b
    case (Some(a), Some(b)) => a <= time <= b
  }

  /** What the listing selects: each filter that the query gives, with both ends of the time range
      included, and a word that names nothing selecting nothing. */
  lemma ListingSelects(all: seq<Transaction>, q: Query, tx: Transaction)
    ensures tx in Matching(all, q) <==>
              && tx in all && Within(q.createdFrom, q.createdTo, tx.createdAt)
              && (q.gid == None || q.gid == Some(tx.gid))
              && (q.transType == None || tx.kind in KindsOf(q.transType.value))
              && (q.status == None || tx.status in StatusesOf(q.status.value))
  {
    MatchingMembers(all, q);
    DistinctWords();
  }

  /** No word stands for two things. */
  lemma DistinctWords()
    ensures forall status, word :: StatusName(status) == word <==> status in StatusesOf(word) && word != "succeeded"
    ensures forall kind, word :: KindName(kind) == word <==> kind in KindsOf(word) && word != "message"
  {
    assert |"submitted"| == 9 && |"prepared"| == 8 && |"succeed"| == 7 && |"succeeded"| == 9 && |"aborting"| == 8;
    assert |"failed"| == 6 && "submitted"[2] != "succeeded"[2] && "prepared"[0] != "aborting"[0];
    assert |"saga"| == 4 && |"workflow"| == 8 && |"msg"| == 3 && |"message"| == 7 && |"xa"| == 2 && |"tcc"| == 3;
    assert "msg"[0] != "tcc"[0];
  }

  /** How much one page holds: 100 transactions unless the query asks for another number, at least 1 and
      at most 200; less only on the last page, which is the one without a cursor. */
  lemma PageSize(all: seq<Transaction>, q: Query)
    requires List(all, q).Page? && forall tx :: tx in all ==> tx.gid != ""
    ensures var page := List(all, q);
            var size: nat := if q.limit.None? then 100 else if q.limit.value == 0 then 1
                             else if q.limit.value <= 200 then q.limit.value else 200;
            if page.nextPosition != "" then |page.transactions| == size else |page.transactions| <= size
  {
    MatchingMembers(all, q);
    var list := Matching(all, q);
    var from := Start(list, q.position).value;
    if from + Clamp(q.limit) < |list| { assert list[from + Clamp(q.limit) - 1] in list; }
  }

  /** Every gid that ends a full page, from index `from` on, can serve as a cursor. */
  predicate EndsAddressable(list: seq<Transaction>, limit: nat, from: nat)
    requires limit > 0
    decreases |list| - from
  {
    from + limit < |list| ==> Addressable(list[from + limit - 1].gid) && EndsAddressable(list, limit, from + limit)
  }

  lemma {:induction false} AllAddressable(list: seq<Transaction>, limit: nat, from: nat)
    requires limit > 0 && forall i :: 0 <= i < |list| ==> Addressable(list[i].gid)
    ensures EndsAddressable(list, limit, from)
    decreases |list| - from
  {
    if from + limit < |list| { AllAddressable(list, limit, from + limit); }
  }

  /** The page after the first n transactions. */
  lemma NextPage(list: seq<Transaction>, position: Option<string>, limit: nat, n: nat)
    requires limit > 0 && Start(list, position) == Some(n)
    ensures PageOf(list, position, limit) ==
            if n + limit < |list| then Page(list[n..n + limit], list[n + limit - 1].gid) else Page(list[n..], "")
  {
  }

  /** Where a client stands after n transactions: its cursor resumes there, or is refused. */
  predicate Standing(list: seq<Transaction>, limit: nat, position: Option<string>, n: nat)
    requires limit > 0
  {
    match Start(list, position)
    case Some(from) => from == n && (EndsAddressable(list, limit, 0) <==> EndsAddressable(list, limit, n))
    case None => !EndsAddressable(list, limit, 0)
  }

  predicate Answers(list: seq<Transaction>, limit: nat, position: Option<string>, n: nat, response: Response)
    requires limit > 0 && n <= |list|
  {
    match response
    case Invalid(_) => !EndsAddressable(list, limit, 0)
    case Page(transactions, next) =>
      var m := n + |transactions|;
      && Start(list, position).Some? && m <= |list| && list[..n] + transactions == list[..m]
      && (if next == "" then m == |list| <==> EndsAddressable(list, limit, 0)
          else n < m && Standing(list, limit, Some(next), m))
  }

  lemma FullPage(list: seq<Transaction>, limit: nat, position: Option<string>, n: nat)
    requires limit > 0 && n + limit < |list| && DistinctGids(list) && Start(list, position) == Some(n)
    requires Addressable(list[n + limit - 1].gid) && Standing(list, limit, position, n)
    ensures Answers(list, limit, position, n, Page(list[n..n + limit], list[n + limit - 1].gid))
  {
  }

  lemma OnePage(list: seq<Transaction>, limit: nat, position: Option<string>, n: nat)
    requires limit > 0 && n <= |list| && DistinctGids(list) && Standing(list, limit, position, n)
    ensures Answers(list, limit, position, n, PageOf(list, position, limit))
  {
    if Start(list, position).Some? {
      NextPage(list, position, limit, n);
      if n + limit < |list| && Addressable(list[n + limit - 1].gid) { FullPage(list, limit, position, n); }
    }
  }

  lemma OneResponse(all: seq<Transaction>, q: Query, position: Option<string>)
    ensures List(all, q.(position := position)) ==
            if ValidRange(q) then PageOf(Matching(all, q), position, Clamp(q.limit))
            else Invalid("createTimeStart must not exceed createTimeEnd")
  {
    SameListing(all, q, position);
  }

  /** Whether following the cursor yields the whole listing. */
  predicate Reachable(list: seq<Transaction>, q: Query) {
    ValidRange(q) && EndsAddressable(list, Clamp(q.limit), 0)
  }

  /** The client: it starts at the first page and follows nextPosition until that is empty. */
  method Follow(serve: Option<string> -> Response, ghost list: seq<Transaction>, ghost limit: nat)
    returns (visited: seq<Transaction>, ok: bool)
    requires limit > 0 && DistinctGids(list)
    requires forall position :: serve(position) == PageOf(list, position, limit)
    ensures visited <= list
    ensures ok && visited == list <==> EndsAddressable(list, limit, 0)
  {
    var position: Option<string> := None;
    visited := [];
    while true
      invariant |visited| <= |list| && visited == list[..|visited|]
      invariant Standing(list, limit, position, |visited|)
      decreases if Start(list, position).None? then 0 else |list| - |visited| + 1
    {
      var response := serve(position);
      OnePage(list, limit, position, |visited|);
      if response.Invalid? { return visited, false; }
      visited := visited + response.transactions;
      if response.nextPosition == "" { return visited, true; }
      position := Some(response.nextPosition);
    }
  }

  /** Following the cursor over an unchanging store always stops, with a prefix of the listing. It
      yields all of it if and only if the time range is valid and every gid that ends a full page is
      non-empty and at most 128 bytes long. */
  method FollowPages(all: seq<Transaction>, q: Query) returns (visited: seq<Transaction>, ok: bool)
    requires DistinctGids(all)
    ensures visited <= Matching(all, q)
    ensures ok && visited == Matching(all, q) <==> Reachable(Matching(all, q), q)
  {
    var serve := position => List(all, q.(position := position));
    OneResponse(all, q, None);
    if serve(None).Invalid? { return [], false; }
    MatchingDistinct(all, q);
    forall position ensures serve(position) == PageOf(Matching(all, q), position, Clamp(q.limit)) {
      OneResponse(all, q, position);
    }
    visited, ok := Follow(serve, Matching(all, q), Clamp(q.limit));
  }
}
