/** Versioned topic subscriptions: any number of clients load a topic, edit its subscriber list and
    write it back under a version check. */
module Topics {
  import opened Core
  import opened Ordering

  datatype Subscriber = Subscriber(url: string, remark: string)

  datatype Entry = Entry(subscribers: seq<Subscriber>, version: nat)

  datatype Change = Add(subscriber: Subscriber) | Remove(url: string)

  predicate HasUrl(list: seq<Subscriber>, url: string) {
    exists i :: 0 <= i < |list| && list[i].url == url
  }

  predicate UniqueUrls(list: seq<Subscriber>) {
    forall i, j :: 0 <= i < j < |list| ==> list[i].url != list[j].url
  }

  predicate Applicable(list: seq<Subscriber>, change: Change) {
    match change
    case Add(subscriber) => !HasUrl(list, subscriber.url)
    case Remove(url) => HasUrl(list, url)
  }

  function OtherThan(url: string): Subscriber -> bool { (s: Subscriber) => s.url != url }

  function Apply(list: seq<Subscriber>, change: Change): seq<Subscriber> {
    match change
    case Add(subscriber) => list + [subscriber]
    case Remove(url) => Filter(list, OtherThan(url))
  }

  /** What a client writes back, given what it loaded: nothing when the change does not apply. */
  function Proposal(loaded: Option<Entry>, change: Change): Option<Entry> {
    match loaded
    case None => if change.Add? then Some(Entry([change.subscriber], 1)) else None
    case Some(e) =>
      if Applicable(e.subscribers, change)
      then Some(Entry(Apply(e.subscribers, change), Next64(e.version))) else None
  }

  /** create_kv and update_kv: the topic is still absent, or still at the loaded version. */
  predicate Accepts(current: Option<Entry>, loaded: Option<Entry>) {
    match loaded
    case None => current.None?
    case Some(e) => current.Some? && current.value.version == e.version
  }

  // ---------------------------------------------------------------------
  // Any number of clients

  datatype Client = Client(change: Change, loaded: Option<Entry>, epoch: nat)

  /** `changes` are the accepted changes since the last deletion, `epoch` counts deletions. */
  datatype State = State(
    entry: Option<Entry>,
    changes: seq<Change>,
    clients: map<nat, Client>,
    epoch: nat)

  datatype Event = Load(client: nat, change: Change) | Write(client: nat) | Delete

  const EMPTY: State := State(None, [], map[], 0)

  predicate WriteAccepted(s: State, c: nat) {
    && c in s.clients
    && Proposal(s.clients[c].loaded, s.clients[c].change).Some?
    && Accepts(s.entry, s.clients[c].loaded)
  }

  function Step(s: State, e: Event): State {
    match e
    case Load(c, change) => s.(clients := s.clients[c := Client(change, s.entry, s.epoch)])
    case Write(c) =>
      if WriteAccepted(s, c) then
        s.(entry := Proposal(s.clients[c].loaded, s.clients[c].change),
           changes := s.changes + [s.clients[c].change],
           clients := s.clients - {c})
      else s.(clients := s.clients - {c})
    case Delete => s.(entry := None, changes := [], epoch := s.epoch + 1)
  }

  function Exec(s: State, es: seq<Event>): State
    decreases |es|
  {
    if es == [] then s else Exec(Step(s, es[0]), es[1..])
  }

  /** The subscriber list after a history of changes. */
  function Replay(changes: seq<Change>): seq<Subscriber> {
    if changes == [] then [] else Apply(Replay(changes[..|changes| - 1]), changes[|changes| - 1])
  }

  /** Every change applied where it was made. */
  ghost predicate Valid(changes: seq<Change>) {
    forall p :: 0 <= p < |changes| ==> Applicable(Replay(changes[..p]), changes[p])
  }

  /** What every valid history leaves: no URL twice, and as many changes as subscribers up to pairs. */
  predicate Sound(loaded: Option<Entry>) {
    loaded.Some? ==>
      UniqueUrls(loaded.value.subscribers) && (|loaded.value.subscribers| + loaded.value.version) % 2 == 0
  }

  ghost predicate ClientOk(s: State, client: Client) {
    client.epoch <= s.epoch && Sound(client.loaded) &&
    (client.epoch == s.epoch && client.loaded.Some? ==>
      && 0 < client.loaded.value.version <= |s.changes|
      && client.loaded.value.subscribers == Replay(s.changes[..client.loaded.value.version]))
  }

  /** The topic is the result of the accepted changes since the last deletion. */
  predicate IsItsHistory(s: State) {
    && (s.entry.None? ==> s.changes == [])
    && (s.entry.Some? ==> s.entry.value == Entry(Replay(s.changes), |s.changes|) && s.changes != [])
  }

  ghost predicate Inv(s: State) {
    && Valid(s.changes) && IsItsHistory(s)
    && forall c :: c in s.clients ==> ClientOk(s, s.clients[c])
  }

  /** An accepted write of something that was loaded before the last deletion. */
  predicate Straddles(s: State, e: Event) {
    e.Write? && WriteAccepted(s, e.client) && s.clients[e.client].epoch != s.epoch
  }

  predicate NeverStraddles(s: State, es: seq<Event>)
    decreases |es|
  {
    es != [] ==> !Straddles(s, es[0]) && NeverStraddles(Step(s, es[0]), es[1..])
  }

  /** An accepted write of something else than the same change of the topic as it stands. */
  predicate OutOfStep(s: State, e: Event) {
    e.Write? && WriteAccepted(s, e.client) &&
    Proposal(s.clients[e.client].loaded, s.clients[e.client].change) != Proposal(s.entry, s.clients[e.client].change)
  }

  predicate NeverOutOfStep(s: State, es: seq<Event>)
    decreases |es|
  {
    es != [] ==> !OutOfStep(s, es[0]) && NeverOutOfStep(Step(s, es[0]), es[1..])
  }

  lemma ValidExtends(changes: seq<Change>, change: Change)
    requires Valid(changes) && Applicable(Replay(changes), change)
    ensures Valid(changes + [change]) && Replay(changes + [change]) == Apply(Replay(changes), change)
  {
    var more := changes + [change];
    forall p | 0 <= p < |more| ensures Applicable(Replay(more[..p]), more[p]) {
      if p < |changes| { assert more[..p] == changes[..p]; } else { assert more[..p] == changes; }
    }
    assert more[..|changes|] == changes;
  }

  /** The version names the content. */
  lemma LoadedIsCurrent(s: State, c: nat)
    requires Inv(s) && WriteAccepted(s, c) && s.clients[c].epoch == s.epoch
    ensures s.clients[c].loaded == s.entry
  {
    assert ClientOk(s, s.clients[c]);
    assert s.changes[..|s.changes|] == s.changes;
  }

  lemma ClientsLater(s: State, change: Change, s': State)
    requires Inv(s) && s'.changes == s.changes + [change] && s'.epoch == s.epoch
    requires forall d :: d in s'.clients ==> d in s.clients && s'.clients[d] == s.clients[d]
    ensures forall d :: d in s'.clients ==> ClientOk(s', s'.clients[d])
  {
    forall d | d in s'.clients ensures ClientOk(s', s'.clients[d]) {
      assert ClientOk(s, s.clients[d]);
      var loaded := s.clients[d].loaded;
      if s.clients[d].epoch == s.epoch && loaded.Some? {
        assert s'.changes[..loaded.value.version] == s.changes[..loaded.value.version];
      }
    }
  }

  lemma WriteKeeps(s: State, c: nat)
    requires Inv(s) && WriteAccepted(s, c) && !OutOfStep(s, Write(c)) && |s.changes| < MAX_U64
    ensures Inv(Step(s, Write(c)))
  {
    var change := s.clients[c].change;
    assert Applicable(Replay(s.changes), change);
    ValidExtends(s.changes, change);
    ClientsLater(s, change, Step(s, Write(c)));
  }

  lemma StepKeeps(s: State, e: Event)
    requires Inv(s) && !OutOfStep(s, e) && |s.changes| < MAX_U64
    ensures Inv(Step(s, e))
  {
    match e
    case Load(c, change) =>
      assert s.changes[..|s.changes|] == s.changes;
      HistoryIsSound(s);
    case Write(c) =>
      if WriteAccepted(s, c) {
        WriteKeeps(s, c);
      } else {
        forall d | d in Step(s, e).clients ensures ClientOk(Step(s, e), s.clients[d]) { assert ClientOk(s, s.clients[d]); }
      }
    case Delete =>
  }

  lemma HistoryIsSound(s: State)
    requires Inv(s)
    ensures Sound(s.entry)
  {
    ReplayUnique(s.changes);
    ReplayParity(s.changes);
  }

  lemma {:induction false} ReplayParity(changes: seq<Change>)
    requires Valid(changes)
    ensures (|Replay(changes)| + |changes|) % 2 == 0
    decreases |changes|
  {
    if changes != [] {
      var n := |changes| - 1;
      ValidPrefix(changes, n);
      ReplayParity(changes[..n]);
      ReplayUnique(changes[..n]);
      var before := Replay(changes[..n]);
      ApplyLength(before, changes[n]);
      assert |Replay(changes)| == |before| + 1 || |Replay(changes)| == |before| - 1;
    }
  }

  lemma ApplyLength(list: seq<Subscriber>, change: Change)
    requires UniqueUrls(list) && Applicable(list, change)
    ensures |Apply(list, change)| == if change.Add? then |list| + 1 else |list| - 1
  {
    if change.Remove? { RemovesOne(list, change.url); }
  }

  lemma ValidPrefix(changes: seq<Change>, n: nat)
    requires Valid(changes) && n <= |changes|
    ensures Valid(changes[..n])
  {
    forall p | 0 <= p < n ensures Applicable(Replay(changes[..n][..p]), changes[..n][p]) {
      assert changes[..n][..p] == changes[..p];
    }
  }

  lemma {:induction false} RemovesOne(list: seq<Subscriber>, url: string)
    requires UniqueUrls(list) && HasUrl(list, url)
    ensures |Filter(list, OtherThan(url))| == |list| - 1
    decreases |list|
  {
    if list[0].url == url {
      LengthTells(list[1..], url);
      assert !HasUrl(list[1..], url);
    } else {
      var i :| 0 <= i < |list| && list[i].url == url;
      assert list[1..][i - 1].url == url;
      RemovesOne(list[1..], url);
    }
  }

  lemma {:induction false} ReplayUnique(changes: seq<Change>)
    requires Valid(changes)
    ensures UniqueUrls(Replay(changes))
    decreases |changes|
  {
    if changes != [] {
      var n := |changes| - 1;
      var before := Replay(changes[..n]);
      ValidPrefix(changes, n);
      ReplayUnique(changes[..n]);
      if changes[n].Remove? { FilterUnique(before, OtherThan(changes[n].url)); }
    }
  }

  lemma {:induction false} FilterUnique(list: seq<Subscriber>, keep: Subscriber -> bool)
    requires UniqueUrls(list)
    ensures UniqueUrls(Filter(list, keep))
    decreases |list|
  {
    if list != [] {
      FilterUnique(list[1..], keep);
      var rest := Filter(list[1..], keep);
      if keep(list[0]) {
        assert Filter(list, keep) == [list[0]] + rest;
        forall i | 0 <= i < |rest| ensures rest[i].url != list[0].url { assert rest[i] in list[1..]; }
      }
    }
  }

  /** Some subscription to url was made, and not undone later. */
  ghost predicate StillSubscribed(changes: seq<Change>, subscriber: Subscriber) {
    exists p :: 0 <= p < |changes| && changes[p] == Add(subscriber)
                && forall q :: p < q < |changes| ==> changes[q] != Remove(subscriber.url)
  }

  lemma StillExtends(before: seq<Change>, last: Change, subscriber: Subscriber)
    ensures StillSubscribed(before + [last], subscriber) <==>
              last == Add(subscriber) || (StillSubscribed(before, subscriber) && last != Remove(subscriber.url))
  {
    var changes, n := before + [last], |before|;
    if StillSubscribed(before, subscriber) && last != Remove(subscriber.url) {
      var p :| 0 <= p < n && before[p] == Add(subscriber)
               && forall q :: p < q < n ==> before[q] != Remove(subscriber.url);
      assert changes[p] == Add(subscriber);
      forall q | p < q < |changes| ensures changes[q] != Remove(subscriber.url) {
        if q < n { assert changes[q] == before[q]; }
      }
    }
    if last == Add(subscriber) { assert changes[n] == last; }
    if StillSubscribed(changes, subscriber) {
      var p :| 0 <= p < |changes| && changes[p] == Add(subscriber)
               && forall q :: p < q < |changes| ==> changes[q] != Remove(subscriber.url);
      if p < n {
        assert before[p] == Add(subscriber) && changes[n] == last;
        forall q | p < q < n ensures before[q] != Remove(subscriber.url) { assert changes[q] == before[q]; }
      }
    }
  }

  /** A history loses a subscription only through its own removal, and makes up none. */
  lemma {:induction false} ReplayMembers(changes: seq<Change>, subscriber: Subscriber)
    ensures subscriber in Replay(changes) <==> StillSubscribed(changes, subscriber)
    decreases |changes|
  {
    if changes != [] {
      var n := |changes| - 1;
      ReplayMembers(changes[..n], subscriber);
      StillExtends(changes[..n], changes[n], subscriber);
      assert changes == changes[..n] + [changes[n]];
    }
  }

  lemma {:induction false} ExecKeeps(s: State, es: seq<Event>)
    requires Inv(s) && NeverOutOfStep(s, es) && |s.changes| + |es| <= MAX_U64
    ensures Inv(Exec(s, es))
    decreases |es|
  {
    if es != [] {
      StepKeeps(s, es[0]);
      ExecKeeps(Step(s, es[0]), es[1..]);
    }
  }

  /** In every interleaving where no accepted write is out of step, the topic is the result of the
      accepted changes since the last deletion: each one counted by the version, URLs unique, and a
      subscription present exactly when it was made and not removed. */
  lemma TopicIsItsHistory(es: seq<Event>, subscriber: Subscriber)
    requires NeverOutOfStep(EMPTY, es) && |es| <= MAX_U64
    ensures var end := Exec(EMPTY, es);
            end.entry.Some? ==>
              && end.entry.value.version == |end.changes|
              && UniqueUrls(end.entry.value.subscribers)
              && (subscriber in end.entry.value.subscribers <==> StillSubscribed(end.changes, subscriber))
  {
    ExecKeeps(EMPTY, es);
    var end := Exec(EMPTY, es);
    ReplayUnique(end.changes);
    ReplayMembers(end.changes, subscriber);
  }

  /** A write out of step breaks the history: the topic is not what its changes make of it. */
  lemma OutOfStepBreaks(s: State, c: nat)
    requires Inv(s) && OutOfStep(s, Write(c)) && |s.changes| < MAX_U64
    ensures !IsItsHistory(Step(s, Write(c)))
  {
    var change, loaded, s' := s.clients[c].change, s.clients[c].loaded, Step(s, Write(c));
    assert ClientOk(s, s.clients[c]);
    var before := Replay(s.changes);
    assert s'.changes[..|s.changes|] == s.changes;
    assert Replay(s'.changes) == Apply(before, change);
    HistoryIsSound(s);
    if !Applicable(before, change) {
      Inapplicable(before, loaded.value.subscribers, change);
    }
  }

  /** Where a change does not apply, its effect differs from that on any list where it does, unless
      their lengths differ by one. */
  lemma Inapplicable(before: seq<Subscriber>, loaded: seq<Subscriber>, change: Change)
    requires !Applicable(before, change) && Applicable(loaded, change) && UniqueUrls(loaded)
    requires (|before| + |loaded|) % 2 == 0
    ensures Apply(before, change) != Apply(loaded, change)
  {
    match change
    case Add(subscriber) =>
      assert before != loaded;
      assert (before + [subscriber])[..|before|] == before && (loaded + [subscriber])[..|loaded|] == loaded;
    case Remove(url) =>
      RemovesOne(loaded, url);
      LengthTells(before, url);
  }

  predicate AlwaysItsHistory(s: State, es: seq<Event>)
    decreases |es|
  {
    IsItsHistory(s) && (es != [] ==> AlwaysItsHistory(Step(s, es[0]), es[1..]))
  }

  lemma {:induction false} HistoryIffInStep(s: State, es: seq<Event>)
    requires Inv(s) && |s.changes| + |es| <= MAX_U64
    ensures AlwaysItsHistory(s, es) <==> NeverOutOfStep(s, es)
    decreases |es|
  {
    if es != [] {
      if OutOfStep(s, es[0]) {
        OutOfStepBreaks(s, es[0].client);
      } else {
        StepKeeps(s, es[0]);
        HistoryIffInStep(Step(s, es[0]), es[1..]);
      }
    }
  }

  /** The condition is exact: over a whole run, the topic is at every point the result of its accepted
      changes if and only if no accepted write is out of step. */
  lemma HistoryHoldsIff(es: seq<Event>)
    requires |es| <= MAX_U64
    ensures AlwaysItsHistory(EMPTY, es) <==> NeverOutOfStep(EMPTY, es)
  {
    HistoryIffInStep(EMPTY, es);
  }

  /** Without a deletion between a load and its write, no write is out of step: the version names the
      content. */
  lemma {:induction false} StraddleFreeIsInStep(s: State, es: seq<Event>)
    requires Inv(s) && NeverStraddles(s, es) && |s.changes| + |es| <= MAX_U64
    ensures NeverOutOfStep(s, es)
    decreases |es|
  {
    if es != [] {
      if es[0].Write? && WriteAccepted(s, es[0].client) { LoadedIsCurrent(s, es[0].client); }
      StepKeeps(s, es[0]);
      StraddleFreeIsInStep(Step(s, es[0]), es[1..]);
    }
  }

  /** So between deletions the topic is its history in every interleaving of subscribers. */
  lemma BetweenDeletions(es: seq<Event>)
    requires NeverStraddles(EMPTY, es) && |es| <= MAX_U64
    ensures AlwaysItsHistory(EMPTY, es)
  {
    StraddleFreeIsInStep(EMPTY, es);
    HistoryHoldsIff(es);
  }

  // ---------------------------------------------------------------------
  // A write that straddles a deletion

  /** Client 0 loads the topic of `a` to add `b`; the topic is deleted and subscribed anew by `c`;
      then client 0 writes. */
  function DeleteBetween(a: Subscriber, b: Subscriber, c: Subscriber): seq<Event> {
    [Load(1, Add(a)), Write(1), Load(0, Add(b)), Delete, Load(2, Add(c)), Write(2), Write(0)]
  }

  /** The versions agree although the topics differ: c's accepted subscription disappears and a's
      deleted one returns. */
  lemma DeletionDefeatsTheVersion(a: Subscriber, b: Subscriber, c: Subscriber)
    requires a.url != b.url && b.url != c.url && a.url != c.url
    ensures var end := Exec(EMPTY, DeleteBetween(a, b, c));
            && end.entry == Some(Entry([a, b], 2)) && end.changes == [Add(c), Add(b)]
            && StillSubscribed(end.changes, c) && c !in end.entry.value.subscribers
  {
    var es := DeleteBetween(a, b, c);
    var s1 := Step(EMPTY, es[0]);
    var s2 := Step(s1, es[1]);
    assert s2 == State(Some(Entry([a], 1)), [Add(a)], map[], 0);
    var s3 := Step(s2, es[2]);
    var s4 := Step(s3, es[3]);
    assert s4 == State(None, [], map[0 := Client(Add(b), Some(Entry([a], 1)), 0)], 1);
    var s5 := Step(s4, es[4]);
    var s6 := Step(s5, es[5]);
    assert s6 == State(Some(Entry([c], 1)), [Add(c)], s4.clients, 1);
    assert !HasUrl([a], b.url) && Apply([a], Add(b)) == [a, b];
    assert Proposal(s6.clients[0].loaded, Add(b)) == Some(Entry([a, b], 2));
    assert WriteAccepted(s6, 0);
    var s7 := Step(s6, es[6]);
    assert s7.entry == Some(Entry([a, b], 2)) && s7.changes == [Add(c), Add(b)];
    TraceRuns([EMPTY, s1, s2, s3, s4, s5, s6, s7], es);
    assert s7.changes[0] == Add(c) && StillSubscribed(s7.changes, c);
  }

  lemma {:induction false} TraceRuns(trace: seq<State>, es: seq<Event>)
    requires |trace| == |es| + 1
    requires forall k :: 0 <= k < |es| ==> trace[k + 1] == Step(trace[k], es[k])
    ensures Exec(trace[0], es) == trace[|es|]
    decreases |es|
  {
    if es != [] {
      assert trace[1] == Step(trace[0], es[0]);
      TraceRuns(trace[1..], es[1..]);
    }
  }

  // ---------------------------------------------------------------------
  // The retry loops

  /** What other clients do to the topic around one attempt. */
  datatype Turn = Turn(beforeLoad: Option<Entry> -> Option<Entry>, beforeWrite: Option<Entry> -> Option<Entry>)

  datatype Outcome = Done(entry: Entry) | Refused | Contended

  class TopicStore {
    var entry: Option<Entry>

    method Create(e: Entry) returns (ok: bool)
      modifies this
      ensures ok <==> old(entry).None?
      ensures entry == if ok then Some(e) else old(entry)
    {
      ok := entry.None?;
      if ok { entry := Some(e); }
    }

    method Update(e: Entry, expected: nat) returns (ok: bool)
      modifies this
      ensures ok <==> old(entry).Some? && old(entry).value.version == expected && e.version == Next64(expected)
      ensures entry == if ok then Some(e) else old(entry)
    {
      ok := entry.Some? && entry.value.version == expected && e.version == Next64(expected);
      if ok { entry := Some(e); }
    }

    method Others(turn: Option<Entry> -> Option<Entry>)
      modifies this
      ensures entry == turn(old(entry))
    {
      entry := turn(entry);
    }
  }

  /** The topic and the outcome after the attempts that the turns allow for. */
  function Attempts(entry: Option<Entry>, change: Change, turns: seq<Turn>): (Option<Entry>, Outcome)
    decreases |turns|
  {
    if turns == [] then (entry, Contended)
    else
      var loaded := turns[0].beforeLoad(entry);
      match Proposal(loaded, change)
      case None => (loaded, Refused)
      case Some(e) =>
        var current := turns[0].beforeWrite(loaded);
        if Accepts(current, loaded) then (Some(e), Done(e)) else Attempts(current, change, turns[1..])
  }

  method Subscribe(store: TopicStore, subscriber: Subscriber, turns: seq<Turn>) returns (r: Outcome)
    requires |turns| == 64
    modifies store
    ensures (store.entry, r) == Attempts(old(store.entry), Add(subscriber), turns)
  {
    for k := 0 to 64
      invariant Attempts(old(store.entry), Add(subscriber), turns) == Attempts(store.entry, Add(subscriber), turns[k..])
    {
      store.Others(turns[k].beforeLoad);
      var loaded := store.entry;
      match loaded
      case None =>
        var e := Entry([subscriber], 1);
        store.Others(turns[k].beforeWrite);
        var ok := store.Create(e);
        if ok { return Done(e); }
      case Some(found) =>
        if HasUrl(found.subscribers, subscriber.url) { return Refused; }
        var e := Entry(found.subscribers + [subscriber], Next64(found.version));
        store.Others(turns[k].beforeWrite);
        var ok := store.Update(e, found.version);
        if ok { return Done(e); }
    }
    return Contended;
  }

  method Unsubscribe(store: TopicStore, url: string, turns: seq<Turn>) returns (r: Outcome)
    requires |turns| == 64
    modifies store
    ensures (store.entry, r) == Attempts(old(store.entry), Remove(url), turns)
  {
    for k := 0 to 64
      invariant Attempts(old(store.entry), Remove(url), turns) == Attempts(store.entry, Remove(url), turns[k..])
    {
      store.Others(turns[k].beforeLoad);
      var loaded := store.entry;
      if loaded.None? { return Refused; }
      var kept := Filter(loaded.value.subscribers, OtherThan(url));
      LengthTells(loaded.value.subscribers, url);
      if |kept| == |loaded.value.subscribers| { return Refused; }
      var e := Entry(kept, Next64(loaded.value.version));
      store.Others(turns[k].beforeWrite);
      var ok := store.Update(e, loaded.value.version);
      if ok { return Done(e); }
    }
    return Contended;
  }

  lemma {:induction false} LengthTells(list: seq<Subscriber>, url: string)
    ensures |Filter(list, OtherThan(url))| == |list| <==> !HasUrl(list, url)
    decreases |list|
  {
    if list != [] {
      LengthTells(list[1..], url);
      assert HasUrl(list, url) <==> list[0].url == url || HasUrl(list[1..], url) by {
        if HasUrl(list[1..], url) {
          var i :| 0 <= i < |list[1..]| && list[1..][i].url == url;
          assert list[i + 1].url == url;
        }
        if HasUrl(list, url) && list[0].url != url {
          var i :| 0 <= i < |list| && list[i].url == url;
          assert list[1..][i - 1].url == url;
        }
      }
    }
  }

  /** The topic that attempt k loads, if none before was accepted, and the topic as it then writes. */
  function LoadedAt(entry: Option<Entry>, turns: seq<Turn>, k: nat): Option<Entry>
    requires k < |turns|
    decreases k
  {
    if k == 0 then turns[0].beforeLoad(entry)
    else LoadedAt(turns[0].beforeWrite(turns[0].beforeLoad(entry)), turns[1..], k - 1)
  }

  function Drift(entry: Option<Entry>, turns: seq<Turn>, k: nat): Option<Entry>
    requires k < |turns|
  {
    turns[k].beforeWrite(LoadedAt(entry, turns, k))
  }

  /** Should the version check pass at an attempt that is reached, then the change makes the same of
      the topic as it stands as of the topic that was loaded. */
  predicate InStep(entry: Option<Entry>, change: Change, turns: seq<Turn>)
    decreases |turns|
  {
    turns != [] ==>
      var loaded := turns[0].beforeLoad(entry);
      var current := turns[0].beforeWrite(loaded);
      Proposal(loaded, change).Some? ==>
        if Accepts(current, loaded) then Proposal(current, change) == Proposal(loaded, change)
        else InStep(current, change, turns[1..])
  }

  lemma Retries(entry: Option<Entry>, change: Change, turns: seq<Turn>, k: nat)
    requires k + 1 < |turns| && Proposal(turns[0].beforeLoad(entry), change).Some?
    requires !Accepts(turns[0].beforeWrite(turns[0].beforeLoad(entry)), turns[0].beforeLoad(entry))
    ensures var current := turns[0].beforeWrite(turns[0].beforeLoad(entry));
            && Attempts(entry, change, turns) == Attempts(current, change, turns[1..])
            && (InStep(entry, change, turns) <==> InStep(current, change, turns[1..]))
            && LoadedAt(entry, turns, k + 1) == LoadedAt(current, turns[1..], k)
            && Drift(entry, turns, k + 1) == Drift(current, turns[1..], k)
  {
  }

  /** A change that reports success was one update, by some attempt k, of the topic that it loaded. It
      was an atomic update of the topic as it stood at the write, so that no change of another client
      is lost, exactly when the attempt was in step. */
  lemma {:induction false} SuccessIsAtomic(entry: Option<Entry>, change: Change, turns: seq<Turn>) returns (k: nat)
    requires Attempts(entry, change, turns).1.Done?
    ensures k < |turns| && Accepts(Drift(entry, turns, k), LoadedAt(entry, turns, k))
    ensures var written := Proposal(LoadedAt(entry, turns, k), change);
            written.Some? && Attempts(entry, change, turns) == (written, Done(written.value))
    ensures InStep(entry, change, turns) <==>
              Attempts(entry, change, turns).0 == Proposal(Drift(entry, turns, k), change)
    decreases |turns|
  {
    var loaded := turns[0].beforeLoad(entry);
    var current := turns[0].beforeWrite(loaded);
    if Accepts(current, loaded) {
      k := 0;
    } else {
      var later := SuccessIsAtomic(current, change, turns[1..]);
      k := later + 1;
      Retries(entry, change, turns, later);
    }
  }

  // ---------------------------------------------------------------------
  // A retry loop among the clients

  /** What other clients do around one attempt. */
  datatype Round = Round(beforeLoad: seq<Event>, beforeWrite: seq<Event>)

  /** No event of client c. */
  predicate Foreign(es: seq<Event>, c: nat) {
    forall i :: 0 <= i < |es| ==> es[i] == Delete || es[i].client != c
  }

  predicate AllForeign(rounds: seq<Round>, c: nat) {
    forall i :: 0 <= i < |rounds| ==> Foreign(rounds[i].beforeWrite, c)
  }

  /** Up to the write of one attempt of client c. */
  function UpToWrite(c: nat, change: Change, round: Round): seq<Event> {
    round.beforeLoad + ([Load(c, change)] + round.beforeWrite)
  }

  /** The events of the loop: attempts of client c until one is refused or accepted. */
  function Schedule(s: State, c: nat, change: Change, rounds: seq<Round>): seq<Event>
    decreases |rounds|
  {
    if rounds == [] then []
    else
      var loaded := Exec(s, rounds[0].beforeLoad).entry;
      var found := Exec(s, UpToWrite(c, change, rounds[0]));
      if Proposal(loaded, change).None? then rounds[0].beforeLoad + [Load(c, change)]
      else if Accepts(found.entry, loaded) then UpToWrite(c, change, rounds[0]) + [Write(c)]
      else UpToWrite(c, change, rounds[0]) + ([Write(c)] + Schedule(Step(found, Write(c)), c, change, rounds[1..]))
  }

  /** What the loop sees of the others. */
  function TurnsOf(s: State, c: nat, change: Change, rounds: seq<Round>): seq<Turn>
    decreases |rounds|
  {
    if rounds == [] then []
    else
      var found := Exec(s, UpToWrite(c, change, rounds[0]));
      [Turn((_: Option<Entry>) => Exec(s, rounds[0].beforeLoad).entry, (_: Option<Entry>) => found.entry)]
      + TurnsOf(Step(found, Write(c)), c, change, rounds[1..])
  }

  lemma {:induction false} ExecAppend(s: State, a: seq<Event>, b: seq<Event>)
    ensures Exec(s, a + b) == Exec(Exec(s, a), b)
    ensures NeverStraddles(s, a + b) <==> NeverStraddles(s, a) && NeverStraddles(Exec(s, a), b)
    decreases |a|
  {
    if a == [] {
      assert a + b == b;
    } else {
      assert (a + b)[1..] == a[1..] + b;
      ExecAppend(Step(s, a[0]), a[1..], b);
    }
  }

  lemma ExecOne(s: State, e: Event)
    ensures Exec(s, [e]) == Step(s, e) && (NeverStraddles(s, [e]) <==> !Straddles(s, e))
  {
    assert [e][1..] == [] && Exec(Step(s, e), []) == Step(s, e);
  }

  lemma {:induction false} ClientStays(s: State, es: seq<Event>, c: nat)
    requires Foreign(es, c) && c in s.clients
    ensures c in Exec(s, es).clients && Exec(s, es).clients[c] == s.clients[c]
    decreases |es|
  {
    if es != [] {
      assert es[0] == Delete || es[0].client != c;
      ClientStays(Step(s, es[0]), es[1..], c);
    }
  }

  /** What the write of an attempt finds. */
  lemma AtWrite(s: State, c: nat, change: Change, round: Round)
    requires Foreign(round.beforeWrite, c)
    ensures var found := Exec(s, UpToWrite(c, change, round));
            var loaded := Exec(s, round.beforeLoad).entry;
            && c in found.clients && found.clients[c].change == change && found.clients[c].loaded == loaded
            && (WriteAccepted(found, c) <==> Proposal(loaded, change).Some? && Accepts(found.entry, loaded))
  {
    var s1 := Exec(s, round.beforeLoad);
    ExecAppend(s, round.beforeLoad, [Load(c, change)] + round.beforeWrite);
    ExecAppend(s1, [Load(c, change)], round.beforeWrite);
    ExecOne(s1, Load(c, change));
    ClientStays(Step(s1, Load(c, change)), round.beforeWrite, c);
  }

  /** The loop is a run of the clients: it leaves the topic that the attempts leave. */
  lemma {:induction false} LoopIsARun(s: State, c: nat, change: Change, rounds: seq<Round>)
    requires AllForeign(rounds, c)
    ensures Exec(s, Schedule(s, c, change, rounds)).entry == Attempts(s.entry, change, TurnsOf(s, c, change, rounds)).0
    decreases |rounds|
  {
    if rounds != [] {
      var before, up := rounds[0].beforeLoad, UpToWrite(c, change, rounds[0]);
      var s1, found := Exec(s, before), Exec(s, up);
      AtWrite(s, c, change, rounds[0]);
      ExecAppend(s, before, [Load(c, change)]);
      ExecOne(s1, Load(c, change));
      ExecAppend(s, up, [Write(c)]);
      ExecOne(found, Write(c));
      if Proposal(s1.entry, change).Some? && !Accepts(found.entry, s1.entry) {
        var rest := Schedule(Step(found, Write(c)), c, change, rounds[1..]);
        ExecAppend(s, up, [Write(c)] + rest);
        ExecAppend(found, [Write(c)], rest);
        LoopIsARun(Step(found, Write(c)), c, change, rounds[1..]);
      }
    }
  }

  /** An attempt that loads after the last deletion is in step. */
  lemma {:induction false} LoopInStep(s: State, c: nat, change: Change, rounds: seq<Round>) returns (es: seq<Event>)
    requires AllForeign(rounds, c) && Inv(s)
    requires var all := Schedule(s, c, change, rounds); NeverStraddles(s, all) && |s.changes| + |all| <= MAX_U64
    requires Attempts(s.entry, change, TurnsOf(s, c, change, rounds)).1.Done?
    ensures Schedule(s, c, change, rounds) == es + [Write(c)] && WriteAccepted(Exec(s, es), c)
    ensures Exec(s, es).clients[c].change == change && Exec(s, es).clients[c].loaded == Exec(s, es).entry
    ensures InStep(s.entry, change, TurnsOf(s, c, change, rounds))
    decreases |rounds|
  {
    var up := UpToWrite(c, change, rounds[0]);
    var loaded, found := Exec(s, rounds[0].beforeLoad).entry, Exec(s, up);
    AtWrite(s, c, change, rounds[0]);
    if Accepts(found.entry, loaded) {
      ExecAppend(s, up, [Write(c)]);
      ReachesInv(s, up);
      ExecOne(found, Write(c));
      LoadedIsCurrent(found, c);
      es := up;
    } else {
      var next := Step(found, Write(c));
      var rest := Schedule(next, c, change, rounds[1..]);
      ExecAppend(s, up, [Write(c)] + rest);
      ExecAppend(found, [Write(c)], rest);
      ExecOne(found, Write(c));
      ReachesInv(s, up);
      ReachesInv(found, [Write(c)]);
      var later := LoopInStep(next, c, change, rounds[1..]);
      es := up + ([Write(c)] + later);
      ExecAppend(s, up, [Write(c)] + later);
      ExecAppend(found, [Write(c)], later);
    }
  }

  lemma ReachesInv(s: State, es: seq<Event>)
    requires Inv(s) && NeverStraddles(s, es) && |s.changes| + |es| <= MAX_U64
    ensures Inv(Exec(s, es)) && |Exec(s, es).changes| <= |s.changes| + |es|
  {
    StraddleFreeIsInStep(s, es);
    ExecKeeps(s, es);
    AtMostOneEach(s, es);
  }

  lemma {:induction false} AtMostOneEach(s: State, es: seq<Event>)
    ensures |Exec(s, es).changes| <= |s.changes| + |es|
    decreases |es|
  {
    if es != [] { AtMostOneEach(Step(s, es[0]), es[1..]); }
  }

  /** Any run of the clients, then the retry loop of client c among the others. As long as no accepted
      write straddles a deletion, a loop that reports success made exactly one change, of the topic as
      it stood at that write, and reports what it left. */
  lemma LoopIsAtomic(run: seq<Event>, c: nat, change: Change, rounds: seq<Round>) returns (es: seq<Event>)
    requires AllForeign(rounds, c)
    requires var s := Exec(EMPTY, run);
             var all := run + Schedule(s, c, change, rounds);
             NeverStraddles(EMPTY, all) && |all| <= MAX_U64
             && Attempts(s.entry, change, TurnsOf(s, c, change, rounds)).1.Done?
    ensures var s := Exec(EMPTY, run);
            var found, end := Exec(s, es), Exec(s, Schedule(s, c, change, rounds));
            && Schedule(s, c, change, rounds) == es + [Write(c)]
            && end.entry == Proposal(found.entry, change) && end.changes == found.changes + [change]
            && end.entry == Some(Attempts(s.entry, change, TurnsOf(s, c, change, rounds)).1.entry)
  {
    var s := Exec(EMPTY, run);
    ExecAppend(EMPTY, run, Schedule(s, c, change, rounds));
    ReachesInv(EMPTY, run);
    es := LoopInStep(s, c, change, rounds);
    ExecAppend(s, es, [Write(c)]);
    ExecOne(Exec(s, es), Write(c));
    LoopIsARun(s, c, change, rounds);
    var k := SuccessIsAtomic(s.entry, change, TurnsOf(s, c, change, rounds));
  }
}
