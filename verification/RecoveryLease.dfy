/** The epoch-fenced recovery lease: acquisition and fenced writes as the server scripts run them,
    for every lease name, over every interleaving of owners. */
module RecoveryLease {
  import opened Core

  const MAX_TTL: nat := 86_400_000
  const MAX_NAME: nat := 128

  /** The three hash fields of one lease; absent fields read as no owner, expiry 0, epoch 0. */
  datatype Lease = Lease(owner: Option<string>, expiry: nat, epoch: nat)

  datatype Fence = Fence(name: string, owner: string, epoch: nat)

  datatype State = State(
    now: nat,                         // server time, in milliseconds
    leases: map<string, Lease>,
    granted: seq<Fence>,              // every fence handed out, in order
    accepted: seq<Fence>)             // the fence of every fenced write let through, in order

  datatype Event =
    | Tick(millis: nat)
    | Acquire(name: string, owner: string, ttl: nat)
    | FencedWrite(fence: Fence)

  const ABSENT: Lease := Lease(None, 0, 0)

  function LeaseAt(s: State, name: string): Lease {
    if name in s.leases then s.leases[name] else ABSENT
  }

  predicate ValidInput(name: string, owner: string, ttl: nat) {
    0 < |name| <= MAX_NAME && 0 < |owner| <= MAX_NAME && 1 <= ttl <= MAX_TTL
  }

  /** The acquisition script: the new lease, and the granted epoch if any. */
  function AcquireScript(l: Lease, owner: string, ttl: nat, now: nat): (Lease, Option<nat>) {
    if l.owner.Some? && l.expiry > now then
      if l.owner.value != owner then (l, None)
      else
        var epoch := if l.epoch < 1 then 1 else l.epoch;
        (Lease(l.owner, now + ttl, epoch), Some(epoch))
    else
      (Lease(Some(owner), now + ttl, l.epoch + 1), Some(l.epoch + 1))
  }

  /** The check that opens every fenced script. */
  predicate FenceHolds(s: State, f: Fence) {
    var l := LeaseAt(s, f.name);
    l.owner == Some(f.owner) && l.expiry > s.now && l.epoch == f.epoch
  }

  function Step(s: State, e: Event): State {
    match e
    case Tick(millis) => s.(now := s.now + millis)
    case Acquire(name, owner, ttl) =>
      if !ValidInput(name, owner, ttl) then s
      else
        var (l, epoch) := AcquireScript(LeaseAt(s, name), owner, ttl, s.now);
        s.(leases := s.leases[name := l],
           granted := if epoch.Some? then s.granted + [Fence(name, owner, epoch.value)] else s.granted)
    case FencedWrite(f) =>
      if ValidInput(f.name, f.owner, 1) && f.epoch > 0 && FenceHolds(s, f)
      then s.(accepted := s.accepted + [f]) else s
  }

  function Exec(s: State, es: seq<Event>): State
    decreases |es|
  {
    if es == [] then s else Exec(Step(s, es[0]), es[1..])
  }

  // ---------------------------------------------------------------------
  // The invariant

  /** Granted fences: at most the stored epoch, and the stored epoch's grantee is the stored owner. */
  ghost predicate GrantsOk(s: State) {
    forall f :: f in s.granted ==>
      && 1 <= f.epoch <= LeaseAt(s, f.name).epoch
      && (f.epoch == LeaseAt(s, f.name).epoch ==> LeaseAt(s, f.name).owner == Some(f.owner))
  }

  ghost predicate OneOwnerPerEpoch(s: State) {
    forall f, g :: f in s.granted && g in s.granted && f.name == g.name && f.epoch == g.epoch ==> f.owner == g.owner
  }

  /** Under one name, epochs never go down. */
  predicate NonDecreasing(writes: seq<Fence>) {
    forall j, k :: 0 <= j < k < |writes| && writes[j].name == writes[k].name ==> writes[j].epoch <= writes[k].epoch
  }

  /** Epochs of accepted writes never go down, nor past the stored epoch. */
  ghost predicate WritesOk(s: State) {
    && (forall k :: 0 <= k < |s.accepted| ==> s.accepted[k].epoch <= LeaseAt(s, s.accepted[k].name).epoch)
    && NonDecreasing(s.accepted)
  }

  ghost predicate Inv(s: State) {
    GrantsOk(s) && OneOwnerPerEpoch(s) && WritesOk(s)
  }

  lemma {:induction false} ExecKeeps(s: State, es: seq<Event>)
    requires Inv(s)
    ensures Inv(Exec(s, es))
    decreases |es|
  {
    if es != [] {
      ExecKeeps(Step(s, es[0]), es[1..]);
    }
  }

  // ---------------------------------------------------------------------
  // Theorems. The lease fields may hold anything at the start, including a live
  // owner with epoch 0 left by an older version.

  ghost predicate Fresh(s: State) {
    s.granted == [] && s.accepted == []
  }

  /** Over every run: no epoch of a lease is granted to two owners, and the epochs of the fenced
      writes let through under one name form a non-decreasing sequence. */
  lemma FencingSafety(s: State, es: seq<Event>)
    requires Fresh(s)
    ensures OneOwnerPerEpoch(Exec(s, es))
    ensures NonDecreasing(Exec(s, es).accepted)
  {
    ExecKeeps(s, es);
  }

  lemma {:induction false} EpochMonotone(s: State, es: seq<Event>, name: string)
    ensures LeaseAt(s, name).epoch <= LeaseAt(Exec(s, es), name).epoch
    ensures s.now <= Exec(s, es).now
    decreases |es|
  {
    if es != [] {
      EpochMonotone(Step(s, es[0]), es[1..], name);
    }
  }

  /** The fence can no longer hold: its epoch was superseded, or it is the current epoch and expired,
      or the current epoch is someone else's. */
  predicate Lost(s: State, f: Fence) {
    var l := LeaseAt(s, f.name);
    f.epoch < l.epoch || (f.epoch == l.epoch && (l.expiry <= s.now || l.owner != Some(f.owner)))
  }

  /** A fence that was granted and does not hold now never holds again. */
  lemma {:induction false} LostForever(s: State, es: seq<Event>, f: Fence)
    requires f.epoch >= 1 && Lost(s, f)
    ensures !FenceHolds(Exec(s, es), f)
    decreases |es|
  {
    if es != [] {
      LostForever(Step(s, es[0]), es[1..], f);
    }
  }

  lemma {:induction false} ExecSplit(s: State, es: seq<Event>, k: nat)
    requires k <= |es|
    ensures Exec(s, es) == Exec(Exec(s, es[..k]), es[k..])
    decreases k
  {
    if k == 0 {
      assert es[0..] == es;
    } else {
      assert es[..k][1..] == es[1..][..k - 1] && es[1..][k - 1..] == es[k..];
      ExecSplit(Step(s, es[0]), es[1..], k - 1);
    }
  }

  /** An expired or superseded fence never becomes valid again: from the first point k of a run at
      which a granted fence fails the check, it fails the check for the rest of the run. */
  lemma DeadFencesStayDead(s: State, es: seq<Event>, k: nat, f: Fence)
    requires Fresh(s) && k <= |es|
    requires f in Exec(s, es[..k]).granted && !FenceHolds(Exec(s, es[..k]), f)
    ensures !FenceHolds(Exec(s, es), f)
  {
    ExecSplit(s, es, k);
    ExecKeeps(s, es[..k]);
    LostForever(Exec(s, es[..k]), es[k..], f);
  }

  // ---------------------------------------------------------------------
  // Mutual exclusion

  /** The owner does not ask for the lease again. */
  predicate Silent(es: seq<Event>, name: string, owner: string) {
    forall k :: 0 <= k < |es| && es[k].Acquire? && es[k].name == name ==> es[k].owner != owner
  }

  predicate GrantedOnly(s: State, name: string, count: nat) {
    count <= |s.granted| && forall k :: count <= k < |s.granted| ==> s.granted[k].name != name
  }

  /** The lease as granted with this expiry, or as taken over since that time. */
  predicate Running(s: State, f: Fence, expiry: nat, count: nat) {
    if s.now < expiry then LeaseAt(s, f.name) == Lease(Some(f.owner), expiry, f.epoch) && GrantedOnly(s, f.name, count)
    else LeaseAt(s, f.name).expiry <= s.now || LeaseAt(s, f.name).epoch > f.epoch
  }

  lemma StepRunning(s: State, e: Event, f: Fence, expiry: nat, count: nat)
    requires Running(s, f, expiry, count) && f.epoch <= LeaseAt(s, f.name).epoch
    requires e.Acquire? && e.name == f.name ==> e.owner != f.owner
    ensures Running(Step(s, e), f, expiry, count) && f.epoch <= LeaseAt(Step(s, e), f.name).epoch
  {
  }

  lemma {:induction false} ExecRunning(s: State, es: seq<Event>, f: Fence, expiry: nat, count: nat)
    requires Running(s, f, expiry, count) && f.epoch <= LeaseAt(s, f.name).epoch && Silent(es, f.name, f.owner)
    ensures Running(Exec(s, es), f, expiry, count)
    decreases |es|
  {
    if es != [] {
      StepRunning(s, es[0], f, expiry, count);
      ExecRunning(Step(s, es[0]), es[1..], f, expiry, count);
    }
  }

  /** A lease excludes others. From a grant at time t with a ttl on, in every run in which its owner
      does not ask again: a write under its fence is let through exactly while the clock is before
      t + ttl, and until then nobody else is granted the lease. */
  lemma LeaseExcludesOthers(s: State, name: string, owner: string, ttl: nat, es: seq<Event>)
    requires |Step(s, Acquire(name, owner, ttl)).granted| > |s.granted| && Silent(es, name, owner)
    ensures var g := Step(s, Acquire(name, owner, ttl));
            var f, end := g.granted[|s.granted|], Exec(g, es);
            && g.granted == s.granted + [f] && f.name == name && f.owner == owner
            && (FencedWrite(f).fence in Step(end, FencedWrite(f)).accepted[|end.accepted|..] <==> end.now < s.now + ttl)
            && (end.now < s.now + ttl ==> GrantedOnly(end, name, |g.granted|))
  {
    var g := Step(s, Acquire(name, owner, ttl));
    var f := g.granted[|s.granted|];
    ExecRunning(g, es, f, s.now + ttl, |g.granted|);
    var end := Exec(g, es);
    assert Step(end, FencedWrite(f)).accepted[|end.accepted|..] == if FenceHolds(end, f) then [f] else [];
  }

  /** Who is granted a lease: a request with a name and an owner of 1 to 128 characters and a ttl of at
      most a day, whenever no one else's grant is running. A running grant is renewed at its epoch; any
      other grant takes the next epoch. Either way it runs for the ttl from now. */
  lemma GrantedIff(s: State, name: string, owner: string, ttl: nat)
    ensures var s' := Step(s, Acquire(name, owner, ttl));
            var l, l' := LeaseAt(s, name), LeaseAt(s', name);
            var live := l.owner.Some? && s.now < l.expiry;
            if 1 <= |name| <= 128 && 1 <= |owner| <= 128 && 1 <= ttl <= 24 * 60 * 60 * 1_000
               && (!live || l.owner == Some(owner))
            then s'.granted == s.granted + [Fence(name, owner, l'.epoch)]
                 && l'.owner == Some(owner) && l'.expiry == s.now + ttl
                 && (if live && l.epoch > 0 then l'.epoch == l.epoch else l'.epoch == l.epoch + 1)
                 && FenceHolds(s', Fence(name, owner, l'.epoch))
            else s'.granted == s.granted && l' == l
  {
  }

  /** Which fenced writes are let through: those of a fence with a name and an owner of 1 to 128 characters
      and an epoch above 0, while the lease of that owner and epoch runs. */
  lemma WriteGoesThroughIff(s: State, f: Fence)
    ensures var l := LeaseAt(s, f.name);
            Step(s, FencedWrite(f)) ==
              if && 1 <= |f.name| <= 128 && 1 <= |f.owner| <= 128 && f.epoch >= 1
                 && l.owner == Some(f.owner) && l.epoch == f.epoch && s.now < l.expiry
              then s.(accepted := s.accepted + [f]) else s
  {
  }
}
