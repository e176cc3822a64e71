/** The Redis store's optimistic writes. A payload is compared and swapped atomically; a revision is
    checked between an earlier read and that swap. Any number of clients interleave. */
module RedisStore {
  import opened Core
  import opened Edits

  const MUTATION_ATTEMPTS: nat := 16

  /** Where a client is. `base` is the record it loaded or last wrote, `seen` the payload it will compare. */
  datatype Client =
    | Idle
    | Editing(base: Transaction, tx: Transaction)
    | Swapping(base: Transaction, tx: Transaction, seen: Transaction)
    | Retrying(branch: Branch, tries: nat)
    | Mutating(branch: Branch, tries: nat, seen: Transaction, edited: Transaction)

  datatype State = State(stored: Transaction, clients: map<nat, Client>)

  datatype Event =
    | Load(client: nat)
    | Edit(client: nat, tx: Transaction)
    | ReadForUpdate(client: nat)
    | Swap(client: nat, now: nat)
    | Register(client: nat, branch: Branch)
    | ReadForMutation(client: nat, now: nat)
    | SwapMutation(client: nat)
    | Crash(client: nat)

  // ---------------------------------------------------------------------
  // Operations

  /** What a coordinator operation may do to a transaction it loaded: it starts from a non-terminal
      record, and keeps identity, revision and branch ids. */
  predicate CoordinatorEdit(base: Transaction, tx: Transaction) {
    && !base.status.IsTerminal()
    && tx.gid == base.gid && tx.kind == base.kind && tx.revision == base.revision
    && Ids(tx.branches) == Ids(base.branches)
  }

  function ClientAt(s: State, c: nat): Client {
    if c in s.clients then s.clients[c] else Idle
  }

  function Goto(s: State, c: nat, to: Client): State {
    s.(clients := s.clients[c := to])
  }

  function Step(s: State, e: Event): State {
    match e
    case Load(c) =>
      if ClientAt(s, c).Idle? then Goto(s, c, Editing(s.stored, s.stored)) else s
    case Edit(c, tx) =>
      var cl := ClientAt(s, c);
      if cl.Editing? && CoordinatorEdit(cl.base, tx) then Goto(s, c, Editing(cl.base, tx)) else s
    case ReadForUpdate(c) =>
      var cl := ClientAt(s, c);
      if !cl.Editing? || cl.base.status.IsTerminal() then s
      else if s.stored.revision == cl.tx.revision then Goto(s, c, Swapping(cl.base, cl.tx, s.stored))
      else Goto(s, c, Idle)
    case Swap(c, now) =>
      var cl := ClientAt(s, c);
      if !cl.Swapping? then s
      else if s.stored != cl.seen then Goto(s, c, Idle)
      else
        var tx := cl.tx.(revision := Next64(cl.tx.revision));
        Goto(s.(stored := Bumped(cl.tx, now)), c, Editing(tx, tx))
    case Register(c, branch) =>
      if ClientAt(s, c).Idle? then Goto(s, c, Retrying(branch, 0)) else s
    case ReadForMutation(c, now) =>
      var cl := ClientAt(s, c);
      if !cl.Retrying? then s
      else (
        match AppendBranch(s.stored, cl.branch, now)
        case None => Goto(s, c, Idle)
        case Some(edited) => Goto(s, c, Mutating(cl.branch, cl.tries, s.stored, edited)))
    case SwapMutation(c) =>
      var cl := ClientAt(s, c);
      if !cl.Mutating? then s
      else if s.stored == cl.seen then Goto(s.(stored := cl.edited), c, Idle)
      else if cl.tries + 1 < MUTATION_ATTEMPTS then Goto(s, c, Retrying(cl.branch, cl.tries + 1))
      else Goto(s, c, Idle)
    case Crash(c) => Goto(s, c, Idle)
  }

  function Exec(s: State, es: seq<Event>): State
    decreases |es|
  {
    if es == [] then s else Exec(Step(s, es[0]), es[1..])
  }

  // ---------------------------------------------------------------------
  // The invariant

  /** Equal but for the time stamp, which a write replaces anyway. */
  predicate SameRecord(a: Transaction, b: Transaction) {
    a.(updatedAt := 0) == b.(updatedAt := 0)
  }

  predicate EditOf(base: Transaction, tx: Transaction) {
    tx == base || CoordinatorEdit(base, tx)
  }

  predicate BaseOk(stored: Transaction, base: Transaction) {
    && base.revision <= stored.revision
    && (base.revision == stored.revision ==> SameRecord(base, stored))
  }

  /** One accepted change of the stored record. */
  predicate Advances(before: Transaction, after: Transaction) {
    && !before.status.IsTerminal()
    && after.revision == before.revision + 1
    && after.gid == before.gid && after.kind == before.kind
    && Ids(before.branches) <= Ids(after.branches)
  }

  predicate ClientOk(stored: Transaction, cl: Client) {
    match cl
    case Idle => true
    case Retrying(_, _) => true
    case Editing(base, tx) => BaseOk(stored, base) && EditOf(base, tx)
    case Swapping(base, tx, seen) =>
      BaseOk(stored, base) && EditOf(base, tx) && !base.status.IsTerminal() && seen.revision == tx.revision
    case Mutating(_, _, seen, edited) =>
      seen.revision < MAX_U64 ==> edited == seen || Advances(seen, edited)
  }

  ghost predicate Inv(s: State) {
    forall c :: c in s.clients ==> ClientOk(s.stored, s.clients[c])
  }

  lemma StepKeeps(s: State, e: Event)
    requires Inv(s) && s.stored.revision < MAX_U64
    ensures Step(s, e).stored == s.stored || Advances(s.stored, Step(s, e).stored)
    ensures Inv(Step(s, e))
  {
  }

  // ---------------------------------------------------------------------
  // Whole runs

  /** How many steps of the run changed the stored record. */
  function Changes(s: State, es: seq<Event>): nat
    decreases |es|
  {
    if es == [] then 0
    else (if Step(s, es[0]).stored == s.stored then 0 else 1) + Changes(Step(s, es[0]), es[1..])
  }

  /** The revision counter stays below its saturation point throughout the run. */
  predicate Unsaturated(s: State, es: seq<Event>)
    decreases |es|
  {
    s.stored.revision < MAX_U64 && (es != [] ==> Unsaturated(Step(s, es[0]), es[1..]))
  }

  lemma {:induction false} ExecKeeps(s: State, es: seq<Event>)
    requires Inv(s) && Unsaturated(s, es)
    ensures Inv(Exec(s, es))
    ensures Exec(s, es).stored.revision == s.stored.revision + Changes(s, es)
    ensures Ids(s.stored.branches) <= Ids(Exec(s, es).stored.branches)
    ensures Exec(s, es).stored.revision == s.stored.revision ==> Exec(s, es).stored == s.stored
    ensures s.stored.status.IsTerminal() ==> Exec(s, es).stored == s.stored
    decreases |es|
  {
    if es != [] {
      StepKeeps(s, es[0]);
      ExecKeeps(Step(s, es[0]), es[1..]);
    }
  }

  lemma {:induction false} ExecSplit(s: State, es: seq<Event>, k: nat)
    requires k <= |es|
    ensures Exec(s, es) == Exec(Exec(s, es[..k]), es[k..])
    ensures Unsaturated(s, es) ==> Unsaturated(s, es[..k]) && Unsaturated(Exec(s, es[..k]), es[k..])
    decreases k
  {
    if k == 0 {
      assert es[0..] == es;
    } else {
      assert es[..k][1..] == es[1..][..k - 1] && es[1..][k - 1..] == es[k..];
      ExecSplit(Step(s, es[0]), es[1..], k - 1);
    }
  }

  /** Over every interleaving, from any point k of the run on: the revision counts the accepted changes,
      equal revisions mean equal records, registered branches keep their places, and a terminal
      record never changes. */
  lemma RevisionCheckedWrites(s: State, es: seq<Event>, k: nat)
    requires s.clients == map[] && k <= |es| && Unsaturated(s, es)
    ensures Exec(s, es).stored.revision ==
            Exec(s, es[..k]).stored.revision + Changes(Exec(s, es[..k]), es[k..])
    ensures Exec(s, es).stored.revision == Exec(s, es[..k]).stored.revision ==>
              Exec(s, es).stored == Exec(s, es[..k]).stored
    ensures Ids(Exec(s, es[..k]).stored.branches) <= Ids(Exec(s, es).stored.branches)
    ensures Exec(s, es[..k]).stored.status.IsTerminal() ==> Exec(s, es).stored == Exec(s, es[..k]).stored
  {
    ExecSplit(s, es, k);
    ExecKeeps(s, es[..k]);
    ExecKeeps(Exec(s, es[..k]), es[k..]);
  }

  // ---------------------------------------------------------------------
  // The two-step write refines an atomic one

  /** Check the revision and write, in one step. */
  function PersistAtomically(stored: Transaction, tx: Transaction, now: nat): Option<Transaction> {
    if stored.revision == tx.revision then Some(Bumped(tx, now)) else None
  }

  /** A swap that goes through is what the atomic write would have done, on the record the client
      started from; a swap that is refused leaves the store alone. */
  lemma SwapRefinesAtomicWrite(s: State, c: nat, now: nat)
    requires Inv(s) && ClientAt(s, c).Swapping?
    ensures var cl := ClientAt(s, c); var s' := Step(s, Swap(c, now));
            if s.stored == cl.seen
            then PersistAtomically(s.stored, cl.tx, now) == Some(s'.stored) && SameRecord(cl.base, s.stored)
            else s'.stored == s.stored
  {
  }

  /** The bound on the revision is needed: at the saturated revision, a stale client reopens a
      transaction that another client has finished. */
  lemma SaturatedRevisionLosesUpdates(tx: Transaction, now: nat)
    requires tx.revision == MAX_U64 && !tx.status.IsTerminal()
    ensures var done := tx.(status := TransactionStatus.Succeeded);
            var es := [Load(0), Load(1), Edit(0, done), ReadForUpdate(0), Swap(0, now), ReadForUpdate(1), Swap(1, now)];
            && Exec(State(tx, map[]), es[..5]).stored.status == TransactionStatus.Succeeded
            && Exec(State(tx, map[]), es).stored.status == tx.status
  {
    var done := tx.(status := TransactionStatus.Succeeded);
    var es := [Load(0), Load(1), Edit(0, done), ReadForUpdate(0), Swap(0, now), ReadForUpdate(1), Swap(1, now)];
    var s0 := State(tx, map[]);
    var s1 := Step(s0, es[0]);
    var s2 := Step(s1, es[1]);
    var s3 := Step(s2, es[2]);
    assert ClientAt(s3, 0) == Editing(tx, done) && ClientAt(s3, 1) == Editing(tx, tx);
    var s4 := Step(s3, es[3]);
    assert ClientAt(s4, 0) == Swapping(tx, done, tx) && ClientAt(s4, 1) == Editing(tx, tx);
    var s5 := Step(s4, es[4]);
    assert s5.stored == Bumped(done, now) && ClientAt(s5, 1) == Editing(tx, tx);
    var s6 := Step(s5, es[5]);
    var s7 := Step(s6, es[6]);
    assert s7.stored == Bumped(tx, now);
    TraceRuns([s0, s1, s2, s3, s4, s5], es[..5]);
    TraceRuns([s0, s1, s2, s3, s4, s5, s6, s7], es);
  }

  lemma {:induction false} TraceRuns(trace: seq<State>, es: seq<Event>)
    requires |trace| == |es| + 1
    requires forall k :: 0 <= k < |es| ==> trace[k + 1] == Step(trace[k], es[k])
    ensures Exec(trace[0], es) == trace[|es|]
    decreases |es|
  {
    if es != [] {
      assert trace[1] == Step(trace[0], es[0]);
      TraceRuns(trace[1..], es[1..]);
    }
  }

  // ---------------------------------------------------------------------
  // What goes through

  /** A client that comes to write stores its edit exactly when nobody changed the record since it loaded
      or last wrote it. It can then go on from what it stored. */
  lemma WriteGoesThroughIff(s: State, c: nat, now: nat)
    requires Inv(s) && ClientAt(s, c).Editing? && !ClientAt(s, c).base.status.IsTerminal() && s.stored.revision < MAX_U64
    ensures var cl, end := ClientAt(s, c), Exec(s, [ReadForUpdate(c), Swap(c, now)]);
            if SameRecord(s.stored, cl.base)
            then && end.stored == cl.tx.(revision := s.stored.revision + 1, updatedAt := now)
                 && ClientAt(end, c).Editing? && ClientAt(end, c).tx == ClientAt(end, c).base
                 && SameRecord(end.stored, ClientAt(end, c).base)
            else end.stored == s.stored && ClientAt(end, c).Idle?
  {
    var s1 := Step(s, ReadForUpdate(c));
    TraceRuns([s, s1, Step(s1, Swap(c, now))], [ReadForUpdate(c), Swap(c, now)]);
  }

  /** A registration that nobody disturbs leaves what RegistrationOutcome says. */
  lemma RegistrationGoesThrough(s: State, c: nat, b: Branch, now: nat)
    requires ClientAt(s, c).Idle?
    ensures var end := Exec(s, [Register(c, b), ReadForMutation(c, now), SwapMutation(c)]);
            && ClientAt(end, c).Idle?
            && end.stored == if AppendBranch(s.stored, b, now).Some? then AppendBranch(s.stored, b, now).value else s.stored
  {
    var s1 := Step(s, Register(c, b));
    var s2 := Step(s1, ReadForMutation(c, now));
    TraceRuns([s, s1, s2, Step(s2, SwapMutation(c))], [Register(c, b), ReadForMutation(c, now), SwapMutation(c)]);
  }

  /** How many swaps of client c found another record than it had read. */
  function LostSwaps(s: State, es: seq<Event>, c: nat): nat
    decreases |es|
  {
    if es == [] then 0
    else
      var cl := ClientAt(s, c);
      (if es[0] == SwapMutation(c) && cl.Mutating? && s.stored != cl.seen then 1 else 0)
      + LostSwaps(Step(s, es[0]), es[1..], c)
  }

  predicate Tries(cl: Client, lost: nat) {
    match cl
    case Retrying(_, tries) => tries == lost < 16
    case Mutating(_, tries, _, _) => tries == lost < 16
    case _ => true
  }

  lemma {:induction false} TriesCount(s: State, es: seq<Event>, c: nat, lost: nat)
    requires Tries(ClientAt(s, c), lost)
    requires forall k :: 0 <= k < |es| ==> !(es[k].Register? && es[k].client == c)
    ensures Tries(ClientAt(Exec(s, es), c), lost + LostSwaps(s, es, c))
    decreases |es|
  {
    if es != [] {
      var cl := ClientAt(s, c);
      var now := if es[0] == SwapMutation(c) && cl.Mutating? && s.stored != cl.seen then 1 else 0;
      TriesCount(Step(s, es[0]), es[1..], c, lost + now);
    }
  }

  /** A registration is given up to contention on the sixteenth swap that it loses, and not before. */
  lemma GivesUpAfterSixteen(s: State, c: nat, b: Branch, es: seq<Event>)
    requires ClientAt(s, c).Idle? && forall k :: 0 <= k < |es| ==> !(es[k].Register? && es[k].client == c)
    requires var t := Exec(Step(s, Register(c, b)), es);
             ClientAt(t, c).Mutating? && ClientAt(t, c).seen != t.stored
    ensures var t := Exec(Step(s, Register(c, b)), es);
            var lost := LostSwaps(Step(s, Register(c, b)), es, c) + 1;
            && (lost < 16 ==> ClientAt(Step(t, SwapMutation(c)), c).Retrying?)
            && (lost == 16 ==> ClientAt(Step(t, SwapMutation(c)), c).Idle?)
            && lost <= 16
  {
    TriesCount(Step(s, Register(c, b)), es, c, 0);
  }
}
