/** The two barrier implementations: the in-memory store checks first and keys by triple, the SQL
    stores insert first and key by one joined text. They agree on ids without a colon. */
module SqlBarriers {
  import opened Core

  datatype Barrier = Barrier(gid: string, branch: string, op: string)

  datatype Request = Enter(barrier: Barrier) | Release(barrier: Barrier)

  // ---------------------------------------------------------------------
  // The in-memory form

  function CancelOf(b: Barrier): Barrier { b.(op := "cancel") }
  function TryOf(b: Barrier): Barrier { b.(op := "try") }

  function MemoryDecision(held: set<Barrier>, b: Barrier): Decision {
    if b in held then SkipDuplicate
    else if b.op == "try" && CancelOf(b) in held then SkipCancelledTry
    else if b.op == "cancel" && TryOf(b) !in held then SkipNullCompensation
    else Execute
  }

  function MemoryAfter(held: set<Barrier>, r: Request): set<Barrier> {
    match r
    case Enter(b) =>
      if MemoryDecision(held, b) == Execute || MemoryDecision(held, b) == SkipNullCompensation
      then held + {b} else held
    case Release(b) => held - {b}
  }

  class MemoryStore {
    var barriers: set<Barrier>

    constructor ()
      ensures barriers == {}
    {
      barriers := {};
    }

    method Enter(b: Barrier) returns (d: Decision)
      modifies this
      ensures d == MemoryDecision(old(barriers), b)
      ensures barriers == MemoryAfter(old(barriers), Request.Enter(b))
    {
      if b in barriers { return SkipDuplicate; }
      if b.op == "try" && CancelOf(b) in barriers { return SkipCancelledTry; }
      if b.op == "cancel" && TryOf(b) !in barriers {
        barriers := barriers + {CancelOf(b)};
        return SkipNullCompensation;
      }
      barriers := barriers + {b};
      return Execute;
    }

    method Release(b: Barrier)
      modifies this
      ensures barriers == MemoryAfter(old(barriers), Request.Release(b))
    {
      barriers := barriers - {b};
    }
  }

  // ---------------------------------------------------------------------
  // The SQL form: rows keyed by "gid:branch:op"

  function KeyText(b: Barrier): string {
    b.gid + ":" + b.branch + ":" + b.op
  }

  /** The rows that stand for a barrier set. */
  function Rows(held: set<Barrier>): set<string> {
    set b | b in held :: KeyText(b)
  }

  predicate ColonFree(s: string) { ':' !in s }

  /** The ids a deployment without colons uses; the operation is unrestricted. */
  predicate Plain(b: Barrier) { ColonFree(b.gid) && ColonFree(b.branch) }

  /** A universe of barriers no two of which share a row. */
  ghost predicate Injective(u: iset<Barrier>) {
    forall b, c :: b in u && c in u && KeyText(b) == KeyText(c) ==> b == c
  }

  /** With a barrier, the universe holds its try and its cancel. */
  ghost predicate Closed(u: iset<Barrier>) {
    forall b :: b in u ==> TryOf(b) in u && CancelOf(b) in u
  }

  ghost predicate Within(u: iset<Barrier>, held: set<Barrier>) {
    forall b :: b in held ==> b in u
  }

  ghost predicate Over(u: iset<Barrier>, rs: seq<Request>) {
    forall k :: 0 <= k < |rs| ==> rs[k].barrier in u
  }

  lemma SplitAtColon(a: string, x: string, b: string, y: string)
    requires ColonFree(a) && ColonFree(b) && a + ":" + x == b + ":" + y
    ensures a == b && x == y
  {
    var s, t := a + ":" + x, b + ":" + y;
    assert s[|a|] == ':' && t[|b|] == ':';
    assert forall k :: 0 <= k < |a| ==> s[k] == a[k] && a[k] in a;
    assert forall k :: 0 <= k < |b| ==> t[k] == b[k] && b[k] in b;
    assert |a| == |b|;
    assert a == s[..|a|] && b == t[..|b|];
    assert x == s[|a| + 1..] && y == t[|b| + 1..];
  }

  lemma KeyTextInjective(b: Barrier, c: Barrier)
    requires Plain(b) && Plain(c) && KeyText(b) == KeyText(c)
    ensures b == c
  {
    assert KeyText(b) == b.gid + ":" + (b.branch + ":" + b.op);
    assert KeyText(c) == c.gid + ":" + (c.branch + ":" + c.op);
    SplitAtColon(b.gid, b.branch + ":" + b.op, c.gid, c.branch + ":" + c.op);
    SplitAtColon(b.branch, b.op, c.branch, c.op);
  }

  lemma InRows(u: iset<Barrier>, held: set<Barrier>, b: Barrier)
    requires Injective(u) && Within(u, held) && b in u
    ensures KeyText(b) in Rows(held) <==> b in held
  {
  }

  lemma RowsRemove(u: iset<Barrier>, held: set<Barrier>, b: Barrier)
    requires Injective(u) && Within(u, held) && b in u
    ensures Rows(held - {b}) == Rows(held) - {KeyText(b)}
  {
    forall t | t in Rows(held) - {KeyText(b)} ensures t in Rows(held - {b}) {
      var c :| c in held && KeyText(c) == t;
      assert c in held - {b};
    }
  }

  /** What the SQL store answers, read off its rows alone. */
  function SqlDecision(rows: set<string>, b: Barrier): Decision {
    if KeyText(b) in rows then SkipDuplicate
    else if b.op == "try" && KeyText(CancelOf(b)) in rows then SkipCancelledTry
    else if b.op == "cancel" && KeyText(TryOf(b)) !in rows then SkipNullCompensation
    else Execute
  }

  function SqlAfter(rows: set<string>, r: Request): set<string> {
    match r
    case Enter(b) =>
      if SqlDecision(rows, b) == Execute || SqlDecision(rows, b) == SkipNullCompensation
      then rows + {KeyText(b)} else rows
    case Release(b) => rows - {KeyText(b)}
  }

  /** The SQL stores insert the row first and look at the other operation afterwards, all inside one
      database transaction. */
  class SqlStore {
    var rows: set<string>

    constructor ()
      ensures rows == {}
    {
      rows := {};
    }

    /** INSERT OR IGNORE */
    method InsertRow(key: string) returns (inserted: bool)
      modifies this
      ensures inserted <==> key !in old(rows)
      ensures rows == old(rows) + {key}
    {
      inserted := key !in rows;
      rows := rows + {key};
    }

    method Enter(b: Barrier) returns (d: Decision)
      modifies this
      ensures d == SqlDecision(old(rows), b)
      ensures rows == SqlAfter(old(rows), Request.Enter(b))
    {
      var key := KeyText(b);
      var inserted := InsertRow(key);
      if !inserted { return SkipDuplicate; }
      if b.op == "try" {
        if KeyText(CancelOf(b)) in rows {
          rows := rows - {key};
          return SkipCancelledTry;
        }
      }
      if b.op == "cancel" {
        if KeyText(TryOf(b)) !in rows { return SkipNullCompensation; }
      }
      return Execute;
    }

    method Release(b: Barrier)
      modifies this
      ensures rows == SqlAfter(old(rows), Request.Release(b))
    {
      rows := rows - {KeyText(b)};
    }
  }

  // ---------------------------------------------------------------------
  // The two forms agree

  lemma StepsAgree(u: iset<Barrier>, held: set<Barrier>, r: Request)
    requires Injective(u) && Closed(u) && Within(u, held) && r.barrier in u
    ensures SqlDecision(Rows(held), r.barrier) == MemoryDecision(held, r.barrier)
    ensures SqlAfter(Rows(held), r) == Rows(MemoryAfter(held, r))
    ensures Within(u, MemoryAfter(held, r))
  {
    var b := r.barrier;
    InRows(u, held, b);
    InRows(u, held, CancelOf(b));
    InRows(u, held, TryOf(b));
    RowsRemove(u, held, b);
  }

  /** The answers to a sequence of requests; a release has none. */
  function MemoryAnswers(held: set<Barrier>, rs: seq<Request>): seq<Option<Decision>>
    decreases |rs|
  {
    if rs == [] then []
    else [if rs[0].Enter? then Some(MemoryDecision(held, rs[0].barrier)) else None]
         + MemoryAnswers(MemoryAfter(held, rs[0]), rs[1..])
  }

  function SqlAnswers(rows: set<string>, rs: seq<Request>): seq<Option<Decision>>
    decreases |rs|
  {
    if rs == [] then []
    else [if rs[0].Enter? then Some(SqlDecision(rows, rs[0].barrier)) else None]
         + SqlAnswers(SqlAfter(rows, rs[0]), rs[1..])
  }

  function MemoryRun(held: set<Barrier>, rs: seq<Request>): set<Barrier>
    decreases |rs|
  {
    if rs == [] then held else MemoryRun(MemoryAfter(held, rs[0]), rs[1..])
  }

  function SqlRun(rows: set<string>, rs: seq<Request>): set<string>
    decreases |rs|
  {
    if rs == [] then rows else SqlRun(SqlAfter(rows, rs[0]), rs[1..])
  }

  lemma {:induction false} InjectiveAgrees(u: iset<Barrier>, held: set<Barrier>, rs: seq<Request>)
    requires Injective(u) && Closed(u) && Within(u, held) && Over(u, rs)
    ensures SqlAnswers(Rows(held), rs) == MemoryAnswers(held, rs)
    ensures SqlRun(Rows(held), rs) == Rows(MemoryRun(held, rs)) && Within(u, MemoryRun(held, rs))
    decreases |rs|
  {
    if rs != [] {
      StepsAgree(u, held, rs[0]);
      InjectiveAgrees(u, MemoryAfter(held, rs[0]), rs[1..]);
    }
  }

  /** Two barriers with one row are always told apart by one form and not by the other. */
  lemma CollisionsDisagree(b: Barrier, c: Barrier)
    requires b != c && KeyText(b) == KeyText(c)
    ensures SqlAnswers({}, [Enter(b), Enter(c)]) != MemoryAnswers({}, [Enter(b), Enter(c)])
  {
    var rs := [Enter(b), Enter(c)];
    assert rs[1..] == [Enter(c)];
    assert MemoryAfter({}, rs[0]) == {b} && SqlAfter({}, rs[0]) == {KeyText(b)};
    assert MemoryAnswers({b}, [Enter(c)])[0] == Some(MemoryDecision({b}, c));
    assert SqlAnswers({KeyText(b)}, [Enter(c)])[0] == Some(SkipDuplicate);
    assert MemoryAnswers({}, rs)[1] == MemoryAnswers({b}, [Enter(c)])[0];
    assert SqlAnswers({}, rs)[1] == SqlAnswers({KeyText(b)}, [Enter(c)])[0];
  }

  /** Exactly when the forms agree: over a universe closed under try and cancel, every sequence of
      requests gets the same answers from both if and only if no two barriers share a row. */
  lemma AgreeIffInjective(u: iset<Barrier>)
    requires Closed(u)
    ensures (forall rs :: Over(u, rs) ==> SqlAnswers({}, rs) == MemoryAnswers({}, rs)) <==> Injective(u)
  {
    if Injective(u) {
      forall rs | Over(u, rs) ensures SqlAnswers({}, rs) == MemoryAnswers({}, rs) {
        InjectiveAgrees(u, {}, rs);
        assert Rows({}) == {};
      }
    } else {
      var b, c :| b in u && c in u && KeyText(b) == KeyText(c) && b != c;
      assert Over(u, [Enter(b), Enter(c)]);
      CollisionsDisagree(b, c);
    }
  }

  ghost function PlainBarriers(): iset<Barrier> { iset b: Barrier | Plain(b) }

  /** On ids without a colon, every sequence of requests gets the same answers from both forms and
      leaves the same barriers. */
  lemma FormsAgree(held: set<Barrier>, rs: seq<Request>)
    requires Within(PlainBarriers(), held) && Over(PlainBarriers(), rs)
    ensures SqlAnswers(Rows(held), rs) == MemoryAnswers(held, rs)
    ensures SqlRun(Rows(held), rs) == Rows(MemoryRun(held, rs))
  {
    PlainIsInjective();
    InjectiveAgrees(PlainBarriers(), held, rs);
  }

  lemma PlainIsInjective()
    ensures Injective(PlainBarriers()) && Closed(PlainBarriers())
  {
    forall b, c | Plain(b) && Plain(c) && KeyText(b) == KeyText(c) ensures b == c { KeyTextInjective(b, c); }
  }

  /** The two stores side by side: serving the same requests, they give the same answers and keep the
      same barriers. */
  method ServeBoth(mem: MemoryStore, sql: SqlStore, rs: seq<Request>, ghost u: iset<Barrier>)
    returns (fromMemory: seq<Option<Decision>>, fromSql: seq<Option<Decision>>)
    requires Injective(u) && Closed(u) && Within(u, mem.barriers) && Over(u, rs)
    requires sql.rows == Rows(mem.barriers)
    modifies mem, sql
    ensures fromMemory == fromSql && |fromSql| == |rs|
    ensures sql.rows == Rows(mem.barriers) && Within(u, mem.barriers)
    ensures mem.barriers == MemoryRun(old(mem.barriers), rs)
  {
    fromMemory, fromSql := [], [];
    for k := 0 to |rs|
      invariant fromMemory == fromSql && |fromSql| == k
      invariant sql.rows == Rows(mem.barriers) && Within(u, mem.barriers)
      invariant MemoryRun(old(mem.barriers), rs) == MemoryRun(mem.barriers, rs[k..])
    {
      StepsAgree(u, mem.barriers, rs[k]);
      match rs[k]
      case Enter(b) =>
        var a := mem.Enter(b);
        var c := sql.Enter(b);
        fromMemory, fromSql := fromMemory + [Some(a)], fromSql + [Some(c)];
      case Release(b) =>
        mem.Release(b);
        sql.Release(b);
        fromMemory, fromSql := fromMemory + [None], fromSql + [None];
    }
  }

  /** With colons the forms can disagree: the second, unrelated action is taken for a duplicate. */
  lemma ColonsCollide()
    ensures var b, c := Barrier("order:1", "pay", "action"), Barrier("order", "1:pay", "action");
            && b != c
            && SqlAnswers({}, [Enter(b), Enter(c)]) != MemoryAnswers({}, [Enter(b), Enter(c)])
  {
    var b, c := Barrier("order:1", "pay", "action"), Barrier("order", "1:pay", "action");
    assert KeyText(b) == "order:1:pay:action" == KeyText(c);
    CollisionsDisagree(b, c);
  }

  // ---------------------------------------------------------------------
  // Null compensation

  /** A cancel that came before its try, and is not released, turns every later try away. */
  lemma {:induction false} NullCompensationBlocksTry(held: set<Barrier>, rs: seq<Request>, cancel: Barrier, k: nat)
    requires cancel.op == "cancel" && cancel in held && TryOf(cancel) !in held
    requires forall j :: 0 <= j < |rs| ==> rs[j] != Release(cancel)
    requires k < |rs| && rs[k] == Enter(TryOf(cancel))
    ensures |MemoryAnswers(held, rs)| == |rs|
    ensures MemoryAnswers(held, rs)[k] == Some(SkipCancelledTry)
    decreases |rs|
  {
    AnswersLength(held, rs);
    if k == 0 {
      assert CancelOf(TryOf(cancel)) == cancel;
    } else {
      var next := MemoryAfter(held, rs[0]);
      assert cancel in next;
      assert TryOf(cancel) !in next by {
        if rs[0] == Enter(TryOf(cancel)) { assert CancelOf(TryOf(cancel)) == cancel; }
      }
      assert rs[1..][k - 1] == rs[k];
      NullCompensationBlocksTry(next, rs[1..], cancel, k - 1);
    }
  }

  lemma {:induction false} AnswersLength(held: set<Barrier>, rs: seq<Request>)
    ensures |MemoryAnswers(held, rs)| == |rs|
    decreases |rs|
  {
    if rs != [] { AnswersLength(MemoryAfter(held, rs[0]), rs[1..]); }
  }

  /** The same, from the cancel's own decision. */
  lemma NullCompensationIsFinal(held: set<Barrier>, rs: seq<Request>, cancel: Barrier, k: nat)
    requires cancel.op == "cancel" && MemoryDecision(held, cancel) == SkipNullCompensation
    requires forall j :: 0 <= j < |rs| ==> rs[j] != Release(cancel)
    requires k < |rs| && rs[k] == Enter(TryOf(cancel))
    ensures var answers := MemoryAnswers(MemoryAfter(held, Enter(cancel)), rs);
            |answers| == |rs| && answers[k] == Some(SkipCancelledTry)
  {
    assert TryOf(cancel) != cancel by { assert |"try"| == 3 && |"cancel"| == 6; }
    NullCompensationBlocksTry(MemoryAfter(held, Enter(cancel)), rs, cancel, k);
  }

  // ---------------------------------------------------------------------
  // The rule that the state machines use

  function OpName(op: Operation): string {
    match op
    case Action => "action"
    case Compensate => "compensate"
    case Try => "try"
    case Confirm => "confirm"
    case Cancel => "cancel"
    case WorkflowStep => "workflow"
    case WorkflowRollback => "workflow_rollback"
    case Deliver => "message"
    case Commit => "commit"
    case Rollback => "rollback"
  }

  function NameOf(gid: string, key: Key): Barrier { Barrier(gid, key.branch, OpName(key.op)) }

  /** `held` is what the store holds for this gid. */
  ghost predicate HoldsFor(all: set<Barrier>, gid: string, held: set<Key>) {
    forall key :: NameOf(gid, key) in all <==> key in held
  }

  /** For one gid, whatever the store holds for others: the in-memory store decides by the rule that
      the state machines use, and holds the same barriers after entering and after releasing. */
  lemma StoreFollowsRule(all: set<Barrier>, gid: string, held: set<Key>, key: Key)
    requires HoldsFor(all, gid, held)
    ensures MemoryDecision(all, NameOf(gid, key)) == Decide(held, key)
    ensures HoldsFor(MemoryAfter(all, Enter(NameOf(gid, key))), gid, Hold(held, key))
    ensures HoldsFor(MemoryAfter(all, Release(NameOf(gid, key))), gid, held - {key})
    ensures forall b: Barrier :: b.gid != gid ==> (b in MemoryAfter(all, Enter(NameOf(gid, key))) <==> b in all)
  {
  }
}
