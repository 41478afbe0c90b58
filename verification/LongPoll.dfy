// The registry of getblocktemplate long polls (node/rpcserver.go; BIP 22, "Long Polling").
// Each waiting client holds a channel that is closed once its template is stale; closing
// a channel twice would panic.

module LongPoll {
  import opened Common

  datatype Hash = Hash(value: int)

  /** A time in whole seconds. */
  datatype Time = Unix(seconds: int)

  predicate Older(a: Time, b: Time) {
    a.seconds < b.seconds
  }

  class Chan {
    var closed: bool

    constructor ()
      ensures !closed
    {
      closed := false;
    }

    method Close()
      requires !closed
      modifies this
      ensures closed
    {
      closed := true;
    }
  }

  type Registry = map<Hash, map<Time, Chan>>

  ghost predicate Registered(m: Registry, hash: Hash, time: Time) {
    hash in m && time in m[hash]
  }

  /** The channels waiting on one block; none is no entry. */
  function Times(m: Registry, hash: Hash): map<Time, Chan> {
    if hash in m then m[hash] else map[]
  }

  function Plus(m: Registry, hash: Hash, time: Time, c: Chan): Registry {
    var times: map<Time, Chan> := Times(m, hash)[time := c];
    m[hash := times]
  }

  ghost function Channels(m: Registry): set<Chan> {
    set hash, time | hash in m && time in m[hash] :: m[hash][time]
  }

  /** Every channel is registered once. */
  ghost predicate Injective(m: Registry) {
    forall h, t, k, u | Registered(m, h, t) && Registered(m, k, u) && m[h][t] == m[k][u] :: h == k && t == u
  }

  ghost predicate NoneEmpty(m: Registry) {
    forall h | h in m :: m[h] != map[]
  }

  /** The entries of `times` that are not older than `time`. */
  ghost function NotOlder(times: map<Time, Chan>, time: Time): map<Time, Chan> {
    map t | t in times && !Older(t, time) :: times[t]
  }

  /** What a notification leaves of the registry: entries for the latest block only, and
      of those the ones not older than the last generated template, if there is one. */
  ghost function Remaining(m: Registry, latest: Hash, lastGenerated: Option<Time>): Registry {
    if latest !in m then map[]
    else
      var kept := if lastGenerated.None? then m[latest] else NotOlder(m[latest], lastGenerated.value);
      if kept == map[] then map[] else map[latest := kept]
  }

  lemma InjectiveWithout(m: Registry, h: Hash)
    requires Injective(m) && h in m
    ensures Injective(Without(m, h))
  {
    var less := Without(m, h);
    forall k, t | Registered(less, k, t)
      ensures Registered(m, k, t) && less[k][t] == m[k][t]
    {
    }
  }

  lemma WhereElse(m: Registry, h: Hash, c: Chan)
    requires Injective(m) && h in m
    ensures c in Channels(Without(m, h)) ==> c in Channels(m) && c !in m[h].Values
    ensures c in Channels(m) && c !in m[h].Values ==> c in Channels(Without(m, h))
  {
    if k, t :| Registered(m, k, t) && m[k][t] == c {
      if k == h {
        forall l, u | Registered(Without(m, h), l, u)
          ensures Without(m, h)[l][u] != c
        {
          assert Registered(m, l, u);
        }
      } else {
        assert Registered(Without(m, h), k, t);
        forall u | u in m[h]
          ensures m[h][u] != c
        {
          assert Registered(m, h, u);
        }
      }
    }
  }

  lemma ChannelsWithout(m: Registry, h: Hash)
    requires Injective(m) && h in m
    ensures Injective(Without(m, h)) && Channels(Without(m, h)) == Channels(m) - m[h].Values
  {
    InjectiveWithout(m, h);
    forall c: Chan
      ensures c in Channels(Without(m, h)) <==> c in Channels(m) - m[h].Values
    {
      WhereElse(m, h, c);
    }
  }

  lemma NoneEmptyPlus(m: Registry, h: Hash, t: Time, c: Chan)
    requires NoneEmpty(m)
    ensures NoneEmpty(Plus(m, h, t, c))
  {
    assert t in Plus(m, h, t, c)[h];
  }

  lemma ChannelsPlus(m: Registry, h: Hash, t: Time, c: Chan)
    requires Injective(m) && c !in Channels(m) && !Registered(m, h, t)
    ensures Injective(Plus(m, h, t, c)) && Channels(Plus(m, h, t, c)) == Channels(m) + {c}
  {
    var more := Plus(m, h, t, c);
    forall k, u
      ensures Registered(more, k, u) <==> Registered(m, k, u) || (k == h && u == t)
      ensures Registered(m, k, u) ==> more[k][u] == m[k][u]
    {
    }
    assert more[h][t] == c;
    forall d | d in Channels(m)
      ensures d in Channels(more)
    {
      var k, u :| k in m && u in m[k] && m[k][u] == d;
      assert Registered(m, k, u) && more[k][u] == d;
    }
    forall d | d in Channels(more)
      ensures d in Channels(m) + {c}
    {
      var k, u :| k in more && u in more[k] && more[k][u] == d;
      assert Registered(more, k, u);
    }
    forall k, u, l, v | Registered(more, k, u) && Registered(more, l, v) && more[k][u] == more[l][v]
      ensures k == l && u == v
    {
      assert Registered(m, k, u) ==> m[k][u] in Channels(m);
      assert Registered(m, l, v) ==> m[l][v] in Channels(m);
    }
  }

  function Minus(m: Registry, hash: Hash, time: Time): Registry
    requires hash in m
  {
    var times: map<Time, Chan> := Without(m[hash], time);
    m[hash := times]
  }

  lemma RegisteredMinus(m: Registry, h: Hash, t: Time, k: Hash, u: Time)
    requires Registered(m, h, t)
    ensures Registered(Minus(m, h, t), k, u) <==> Registered(m, k, u) && !(k == h && u == t)
    ensures Registered(Minus(m, h, t), k, u) ==> Minus(m, h, t)[k][u] == m[k][u]
  {
  }

  lemma InjectiveMinus(m: Registry, h: Hash, t: Time)
    requires Injective(m) && Registered(m, h, t)
    ensures Injective(Minus(m, h, t))
  {
    var less := Minus(m, h, t);
    forall k, u, l, v | Registered(less, k, u) && Registered(less, l, v) && less[k][u] == less[l][v]
      ensures k == l && u == v
    {
      RegisteredMinus(m, h, t, k, u);
      RegisteredMinus(m, h, t, l, v);
    }
  }

  lemma LeftByMinus(m: Registry, h: Hash, t: Time, c: Chan)
    requires Injective(m) && Registered(m, h, t) && c in Channels(Minus(m, h, t))
    ensures c in Channels(m) && c != m[h][t]
  {
    var less := Minus(m, h, t);
    var k, u :| k in less && u in less[k] && less[k][u] == c;
    RegisteredMinus(m, h, t, k, u);
    assert Registered(less, k, u) && Registered(m, k, u) && m[k][u] == c;
  }

  lemma KeptByMinus(m: Registry, h: Hash, t: Time, c: Chan)
    requires Registered(m, h, t) && c in Channels(m) && c != m[h][t]
    ensures c in Channels(Minus(m, h, t))
  {
    var k, u :| k in m && u in m[k] && m[k][u] == c;
    RegisteredMinus(m, h, t, k, u);
    assert Registered(m, k, u);
  }

  lemma ChannelsMinus(m: Registry, h: Hash, t: Time)
    requires Injective(m) && Registered(m, h, t)
    ensures Injective(Minus(m, h, t)) && Channels(Minus(m, h, t)) == Channels(m) - {m[h][t]}
  {
    InjectiveMinus(m, h, t);
    forall c: Chan
      ensures c in Channels(Minus(m, h, t)) <==> c in Channels(m) - {m[h][t]}
    {
      if c in Channels(Minus(m, h, t)) {
        LeftByMinus(m, h, t, c);
      } else if c in Channels(m) && c != m[h][t] {
        KeptByMinus(m, h, t, c);
      }
    }
  }

  method CloseAll(channels: map<Time, Chan>)
    requires forall t | t in channels :: !channels[t].closed
    requires forall t, u | t in channels && u in channels && channels[t] == channels[u] :: t == u
    modifies channels.Values
    ensures forall t | t in channels :: channels[t].closed
  {
    var left := channels.Keys;
    while left != {}
      invariant left <= channels.Keys
      invariant forall t | t in left :: !channels[t].closed
      invariant forall t | t in channels && t !in left :: channels[t].closed
    {
      var t :| t in left;
      channels[t].Close();
      left := left - {t};
    }
  }

  // ---------------------------------------------------------------------------
  // Which polls wait after a run.

  datatype Op = Poll(hash: Hash, time: Time) | Notify(latest: Hash, lastGenerated: Option<Time>)

  ghost function Waiting(m: Registry): set<(Hash, Time)> {
    set h, t | h in m && t in m[h] :: (h, t)
  }

  /** The poll is for the latest block and for a template that is not older. */
  ghost predicate Fresh(poll: (Hash, Time), latest: Hash, lastGenerated: Option<Time>) {
    poll.0 == latest && (lastGenerated.Some? ==> !Older(poll.1, lastGenerated.value))
  }

  ghost function WaitingAfter(waiting: set<(Hash, Time)>, op: Op): set<(Hash, Time)> {
    match op
    case Poll(hash, time) => waiting + {(hash, time)}
    case Notify(latest, lastGenerated) =>
      set w | w in waiting && Fresh(w, latest, lastGenerated)
  }

  ghost function WaitingAtEnd(waiting: set<(Hash, Time)>, ops: seq<Op>): set<(Hash, Time)> {
    if ops == [] then waiting else WaitingAfter(WaitingAtEnd(waiting, ops[..|ops| - 1]), ops[|ops| - 1])
  }

  /** The operation does not make the poll stale: a notification is for the poll's block and
      for a template that is not newer than the poll's. */
  ghost predicate Keeps(op: Op, hash: Hash, time: Time) {
    op.Notify? ==>
      && op.latest == hash
      && (op.lastGenerated.Some? ==> op.lastGenerated.value.seconds <= time.seconds)
  }

  /** None from the i-th on does. */
  ghost predicate NeverStale(ops: seq<Op>, i: nat, hash: Hash, time: Time) {
    forall j | i <= j < |ops| :: Keeps(ops[j], hash, time)
  }

  lemma NeverStaleBefore(ops: seq<Op>, i: nat, hash: Hash, time: Time)
    requires i < |ops|
    ensures NeverStale(ops, i, hash, time)
      <==> NeverStale(ops[..|ops| - 1], i, hash, time) && Keeps(ops[|ops| - 1], hash, time)
  {
    var before := ops[..|ops| - 1];
    forall j | i <= j < |ops| && NeverStale(before, i, hash, time) && Keeps(ops[|ops| - 1], hash, time)
      ensures Keeps(ops[j], hash, time)
    {
      if j < |before| {
        assert Keeps(before[j], hash, time);
      }
    }
  }

  /** A poll waits at the end exactly if it waited at the start, or came, and no
      notification after that has made it stale. */
  lemma {:induction false} WaitsIffNeverStale(waiting: set<(Hash, Time)>, ops: seq<Op>, h: Hash, t: Time)
    ensures (h, t) in WaitingAtEnd(waiting, ops) <==>
              || ((h, t) in waiting && NeverStale(ops, 0, h, t))
              || exists i :: 0 <= i < |ops| && ops[i] == Poll(h, t) && NeverStale(ops, i + 1, h, t)
  {
    if ops != [] {
      var last := |ops| - 1;
      var before := ops[..last];
      WaitsIffNeverStale(waiting, before, h, t);
      forall i: nat | i <= last
        ensures NeverStale(ops, i, h, t) <==> NeverStale(before, i, h, t) && Keeps(ops[last], h, t)
      {
        NeverStaleBefore(ops, i, h, t);
      }
    }
  }

  /** After a notification exactly those wait that wait for the latest block with a
      template that is not older, each on the channel it had. */
  lemma RemainingWaits(m: Registry, latest: Hash, lastGenerated: Option<Time>)
    ensures NoneEmpty(m) ==> NoneEmpty(Remaining(m, latest, lastGenerated))
    ensures Waiting(Remaining(m, latest, lastGenerated)) == WaitingAfter(Waiting(m), Notify(latest, lastGenerated))
    ensures forall h, t | Registered(Remaining(m, latest, lastGenerated), h, t) ::
      Registered(m, h, t) && Remaining(m, latest, lastGenerated)[h][t] == m[h][t]
  {
    var r := Remaining(m, latest, lastGenerated);
    forall h, t
      ensures (h, t) in Waiting(r) <==> (h, t) in WaitingAfter(Waiting(m), Notify(latest, lastGenerated))
    {
      assert (h, t) in Waiting(r) <==> h in r && t in r[h];
      assert (h, t) in Waiting(m) <==> h in m && t in m[h];
      if latest in m {
        var kept := if lastGenerated.None? then m[latest] else NotOlder(m[latest], lastGenerated.value);
        assert t in kept ==> kept != map[];
        assert Registered(r, h, t) <==> h == latest && t in kept;
      }
      assert Registered(r, h, t) <==> Registered(m, h, t) && Fresh((h, t), latest, lastGenerated);
    }
  }

  lemma RemainsRegistered(m: Registry, latest: Hash, lastGenerated: Option<Time>)
    ensures forall h, t ::
              Registered(Remaining(m, latest, lastGenerated), h, t) <==>
                && Registered(m, h, t) && h == latest
                && (lastGenerated.Some? ==> lastGenerated.value.seconds <= t.seconds)
    ensures forall h, t | Registered(Remaining(m, latest, lastGenerated), h, t) ::
              Remaining(m, latest, lastGenerated)[h][t] == m[h][t]
  {
    var r := Remaining(m, latest, lastGenerated);
    forall h, t
      ensures Registered(r, h, t) <==>
                && Registered(m, h, t) && h == latest
                && (lastGenerated.Some? ==> lastGenerated.value.seconds <= t.seconds)
    {
      if latest in m {
        var kept := if lastGenerated.None? then m[latest] else NotOlder(m[latest], lastGenerated.value);
        assert t in kept ==> kept != map[];
        assert Registered(r, h, t) <==> h == latest && t in kept;
      }
    }
  }

  /** The registry once the older entries of a block are gone, but for those in `left`. */
  ghost predicate Thinned(m: Registry, was: Registry, latest: Hash, left: set<Time>, time: Time) {
    && m.Keys == was.Keys && latest in m
    && (forall h | h in m && h != latest :: m[h] == was[h])
    && (forall t :: t in m[latest] <==> t in was[latest] && (t in left || !Older(t, time)))
    && (forall t | t in m[latest] :: m[latest][t] == was[latest][t])
  }

  lemma ThinnedMore(m: Registry, was: Registry, latest: Hash, left: set<Time>, time: Time, t: Time)
    requires Thinned(m, was, latest, left, time) && t in left && left <= was[latest].Keys
    ensures left - {t} <= was[latest].Keys && Registered(m, latest, t)
    ensures Thinned(if Older(t, time) then Minus(m, latest, t) else m, was, latest, left - {t}, time)
  {
  }

  /** What is left when the older entries of a block go, and the block with the last. */
  ghost function DropOlderLeaves(m: Registry, latest: Hash, time: Time): Registry
    requires latest in m
  {
    var kept := NotOlder(m[latest], time);
    if kept == map[] then Without(m, latest) else m[latest := kept]
  }

  lemma ThinnedToTheEnd(m: Registry, was: Registry, latest: Hash, time: Time)
    requires Thinned(m, was, latest, {}, time) && NoneEmpty(was) && latest in was
    ensures (if m[latest] == map[] then Without(m, latest) else m) == DropOlderLeaves(was, latest, time)
    ensures forall h | h in m && h != latest :: m[h] != map[]
  {
    assert m[latest] == NotOlder(was[latest], time);
    assert m == was[latest := NotOlder(was[latest], time)];
    assert Without(m, latest) == Without(was, latest);
  }

  /** The registry once the blocks other than the latest are gone, but for those in `left`. */
  ghost predicate Dropped(m: Registry, was: Registry, latest: Hash, left: set<Hash>) {
    && (forall h :: h in m <==> h in was && (h in left || h == latest))
    && (forall h | h in m :: m[h] == was[h])
  }

  lemma DroppedMore(m: Registry, was: Registry, latest: Hash, left: set<Hash>, h: Hash)
    requires Dropped(m, was, latest, left) && h in left && left <= was.Keys
    ensures left - {h} <= was.Keys && h in m
    ensures Dropped(if h == latest then m else Without(m, h), was, latest, left - {h})
  {
  }

  lemma RemainingInSteps(m: Registry, latest: Hash, lastGenerated: Option<Time>, first: Registry)
    requires NoneEmpty(m) && first == if latest in m then map[latest := m[latest]] else map[]
    ensures Remaining(m, latest, lastGenerated) ==
      if latest !in first || lastGenerated.None? then first else DropOlderLeaves(first, latest, lastGenerated.value)
  {
  }

  lemma DroppedToTheEnd(m: Registry, was: Registry, latest: Hash)
    requires Dropped(m, was, latest, {})
    ensures m == if latest in was then map[latest := was[latest]] else map[]
  {
  }

  class GbtWorkState {
    var notifyMap: Registry
    ghost var issued: set<Chan>

    /** Of all channels ever handed out, exactly the registered ones are open. */
    ghost predicate OpenOk()
      reads this, issued
    {
      forall c | c in issued :: c.closed <==> c !in Channels(notifyMap)
    }

    ghost predicate Consistent()
      reads this, issued
    {
      Injective(notifyMap) && Channels(notifyMap) <= issued && OpenOk()
    }

    ghost predicate Valid()
      reads this, issued
    {
      NoneEmpty(notifyMap) && Consistent()
    }

    constructor ()
      ensures Valid() && notifyMap == map[] && issued == {}
    {
      notifyMap, issued := map[], {};
    }

    /** templateUpdateChan. */
    method TemplateUpdateChan(prevHash: Hash, lastGenerated: Time) returns (c: Chan)
      requires Valid()
      modifies this
      ensures Valid() && Registered(notifyMap, prevHash, lastGenerated) && notifyMap[prevHash][lastGenerated] == c
      ensures old(Registered(notifyMap, prevHash, lastGenerated))
        ==> notifyMap == old(notifyMap) && issued == old(issued)
      ensures old(!Registered(notifyMap, prevHash, lastGenerated)) ==>
        && fresh(c) && issued == old(issued) + {c}
        && notifyMap == Plus(old(notifyMap), prevHash, lastGenerated, c)
    {
      var channels := Times(notifyMap, prevHash);
      if lastGenerated in channels {
        return channels[lastGenerated];
      }
      c := new Chan();
      assert c !in issued;
      Register(prevHash, lastGenerated, c);
    }

    method Register(prevHash: Hash, lastGenerated: Time, c: Chan)
      requires Valid() && !Registered(notifyMap, prevHash, lastGenerated) && c !in issued && !c.closed
      modifies this
      ensures Valid() && issued == old(issued) + {c} && notifyMap == Plus(old(notifyMap), prevHash, lastGenerated, c)
    {
      ChannelsPlus(notifyMap, prevHash, lastGenerated, c);
      NoneEmptyPlus(notifyMap, prevHash, lastGenerated, c);
      notifyMap := Plus(notifyMap, prevHash, lastGenerated, c);
      issued := issued + {c};
      assert Channels(notifyMap) == old(Channels(notifyMap)) + {c};
    }

    lemma WaitingAreOpen(hash: Hash)
      requires Valid() && hash in notifyMap
      ensures forall t | t in notifyMap[hash] :: notifyMap[hash][t] in issued && !notifyMap[hash][t].closed
      ensures forall t, u | t in notifyMap[hash] && u in notifyMap[hash] && notifyMap[hash][t] == notifyMap[hash][u] ::
                t == u
    {
      var channels := notifyMap[hash];
      forall t | t in channels
        ensures channels[t] in issued && !channels[t].closed
      {
        assert channels[t] in Channels(notifyMap);
      }
      forall t, u | t in channels && u in channels && channels[t] == channels[u]
        ensures t == u
      {
        assert Registered(notifyMap, hash, t) && Registered(notifyMap, hash, u);
      }
    }

    /** Closes every channel waiting on a block and drops the block. */
    method DropHash(hash: Hash)
      requires Valid() && hash in notifyMap
      modifies this`notifyMap, notifyMap[hash].Values
      ensures Valid() && notifyMap == Without(old(notifyMap), hash)
      ensures forall c | c in old(issued) && old(c.closed) :: c.closed
    {
      var channels := notifyMap[hash];
      WaitingAreOpen(hash);
      ChannelsWithout(notifyMap, hash);
      CloseAll(channels);
      notifyMap := Without(notifyMap, hash);
    }

    /** First half of notifyLongPollers: drops every block but the latest. */
    method DropOthers(latest: Hash)
      requires Valid()
      modifies this`notifyMap, issued
      ensures Valid() && notifyMap == if latest in old(notifyMap) then map[latest := old(notifyMap)[latest]] else map[]
      ensures forall c | c in old(issued) && old(c.closed) :: c.closed
    {
      var left := notifyMap.Keys;
      while left != {}
        modifies this`notifyMap, issued
        invariant Valid() && left <= old(notifyMap).Keys && Dropped(notifyMap, old(notifyMap), latest, left)
        invariant forall c | c in old(issued) && old(c.closed) :: c.closed
        decreases left
      {
        var hash :| hash in left;
        DroppedMore(notifyMap, old(notifyMap), latest, left, hash);
        left := left - {hash};
        if hash != latest {
          ValuesInChannels(notifyMap, hash);
          DropHash(hash);
        }
      }
      DroppedToTheEnd(notifyMap, old(notifyMap), latest);
    }

    /** Closes and removes the older channels of a block. */
    method ThinOut(latest: Hash, time: Time)
      requires Consistent() && latest in notifyMap
      modifies this`notifyMap, issued
      ensures Consistent() && Thinned(notifyMap, old(notifyMap), latest, {}, time)
      ensures forall c | c in old(issued) && old(c.closed) :: c.closed
    {
      var left := notifyMap[latest].Keys;
      while left != {}
        modifies this`notifyMap, issued
        invariant left <= old(notifyMap)[latest].Keys && Thinned(notifyMap, old(notifyMap), latest, left, time)
        invariant Consistent()
        invariant forall c | c in old(issued) && old(c.closed) :: c.closed
        decreases left
      {
        var lastGen :| lastGen in left;
        ThinnedMore(notifyMap, old(notifyMap), latest, left, time, lastGen);
        left := left - {lastGen};
        if Older(lastGen, time) {
          CloseOne(latest, lastGen);
        }
      }
    }

    /** Second half: drops what waits on the latest block with an older template. */
    method DropOlder(latest: Hash, time: Time)
      requires Valid() && latest in notifyMap
      modifies this`notifyMap, issued
      ensures Valid() && notifyMap == DropOlderLeaves(old(notifyMap), latest, time)
      ensures forall c | c in old(issued) && old(c.closed) :: c.closed
    {
      ThinOut(latest, time);
      ThinnedToTheEnd(notifyMap, old(notifyMap), latest, time);
      Tidy(latest);
    }

    /** Removes the entry of a block when nothing waits on it any more. */
    method Tidy(latest: Hash)
      requires Consistent() && latest in notifyMap
      requires forall h | h in notifyMap && h != latest :: notifyMap[h] != map[]
      modifies this`notifyMap
      ensures Valid()
      ensures notifyMap == if old(notifyMap)[latest] == map[] then Without(old(notifyMap), latest) else old(notifyMap)
    {
      if notifyMap[latest] == map[] {
        ChannelsWithout(notifyMap, latest);
        notifyMap := Without(notifyMap, latest);
      }
    }

    method CloseOne(hash: Hash, time: Time)
      requires Consistent() && Registered(notifyMap, hash, time)
      modifies this`notifyMap, notifyMap[hash][time]
      ensures Consistent()
      ensures notifyMap == Minus(old(notifyMap), hash, time)
      ensures old(notifyMap[hash][time]) in issued && forall c | c in old(issued) && old(c.closed) :: c.closed
    {
      var c := notifyMap[hash][time];
      assert c in Channels(notifyMap);
      ChannelsMinus(notifyMap, hash, time);
      c.Close();
      notifyMap := Minus(notifyMap, hash, time);
    }

    lemma ValuesInChannels(m: Registry, hash: Hash)
      requires hash in m
      ensures m[hash].Values <= Channels(m)
    {
      forall c | c in m[hash].Values
        ensures c in Channels(m)
      {
        var t :| t in m[hash] && m[hash][t] == c;
      }
    }

    /** notifyLongPollers; no time stands for the zero time. */
    method NotifyLongPollers(latest: Hash, lastGenerated: Option<Time>)
      requires Valid()
      modifies this`notifyMap, issued
      ensures Valid() && notifyMap == Remaining(old(notifyMap), latest, lastGenerated)
      ensures forall c | c in old(issued) && old(c.closed) :: c.closed
      ensures forall h, t ::
                Registered(notifyMap, h, t) <==>
                  && Registered(old(notifyMap), h, t) && h == latest
                  && (lastGenerated.Some? ==> lastGenerated.value.seconds <= t.seconds)
      ensures forall h, t | Registered(notifyMap, h, t) ::
                notifyMap[h][t] == old(notifyMap)[h][t] && !notifyMap[h][t].closed
      ensures forall h, t | Registered(old(notifyMap), h, t) && !Registered(notifyMap, h, t) ::
                old(notifyMap)[h][t].closed
    {
      RemainsRegistered(notifyMap, latest, lastGenerated);
      ghost var was := notifyMap;
      Notify(latest, lastGenerated);
      GoneAreClosed(was);
    }

    /** Of the channels of an earlier registry, those registered no more are closed. */
    lemma GoneAreClosed(was: Registry)
      requires Valid() && Injective(was) && Channels(was) <= issued
      requires forall h, t | Registered(notifyMap, h, t) && Registered(was, h, t) :: notifyMap[h][t] == was[h][t]
      requires forall h, t | Registered(notifyMap, h, t) :: Registered(was, h, t)
      ensures forall h, t | Registered(was, h, t) :: Registered(notifyMap, h, t) <==> !was[h][t].closed
    {
      forall h, t | Registered(was, h, t)
        ensures Registered(notifyMap, h, t) <==> !was[h][t].closed
      {
        assert was[h][t] in Channels(was);
        if was[h][t] in Channels(notifyMap) {
          var k, u :| k in notifyMap && u in notifyMap[k] && notifyMap[k][u] == was[h][t];
          assert Registered(notifyMap, k, u) && Registered(was, k, u);
        }
      }
    }

    method Notify(latest: Hash, lastGenerated: Option<Time>)
      requires Valid()
      modifies this`notifyMap, issued
      ensures Valid() && notifyMap == Remaining(old(notifyMap), latest, lastGenerated)
      ensures forall c | c in old(issued) && old(c.closed) :: c.closed
    {
      RemainingInSteps(notifyMap, latest, lastGenerated,
                       if latest in notifyMap then map[latest := notifyMap[latest]] else map[]);
      DropOthers(latest);
      if lastGenerated.None? {
        return;
      }
      if latest !in notifyMap {
        return;
      }
      DropOlder(latest, lastGenerated.value);
    }

    /** Over every run, exactly the polls that no later notification made stale wait; they
        wait on the channel they were given, and all other channels have been closed, each
        once. */
    method Run(ops: seq<Op>)
      requires Valid()
      modifies this, issued
      ensures Valid() && Waiting(notifyMap) == WaitingAtEnd(Waiting(old(notifyMap)), ops)
      ensures old(issued) <= issued && fresh(issued - old(issued))
      ensures forall c | c in old(issued) && old(c.closed) :: c.closed
      ensures forall h, t ::
                Registered(notifyMap, h, t) <==>
                  || (Registered(old(notifyMap), h, t) && NeverStale(ops, 0, h, t))
                  || exists i :: 0 <= i < |ops| && ops[i] == Poll(h, t) && NeverStale(ops, i + 1, h, t)
      ensures forall h, t | Registered(old(notifyMap), h, t) ::
                if NeverStale(ops, 0, h, t) then Listens(h, t, old(notifyMap)[h][t]) else old(notifyMap)[h][t].closed
    {
      forall h, t
        ensures (h, t) in WaitingAtEnd(Waiting(notifyMap), ops) <==>
                  || (Registered(notifyMap, h, t) && NeverStale(ops, 0, h, t))
                  || exists i :: 0 <= i < |ops| && ops[i] == Poll(h, t) && NeverStale(ops, i + 1, h, t)
      {
        WaitsIffNeverStale(Waiting(notifyMap), ops, h, t);
      }
      WaitAll(ops);
    }

    /** A poll waits on an open channel. */
    ghost predicate Listens(hash: Hash, time: Time, c: Chan)
      reads this`notifyMap, c
    {
      Registered(notifyMap, hash, time) && notifyMap[hash][time] == c && !c.closed
    }

    method WaitAll(ops: seq<Op>)
      requires Valid()
      modifies this, issued
      ensures Valid() && Waiting(notifyMap) == WaitingAtEnd(Waiting(old(notifyMap)), ops)
      ensures old(issued) <= issued && fresh(issued - old(issued))
      ensures forall c | c in old(issued) && old(c.closed) :: c.closed
      ensures forall h, t | Registered(old(notifyMap), h, t) ::
                if NeverStale(ops, 0, h, t) then Listens(h, t, old(notifyMap)[h][t]) else old(notifyMap)[h][t].closed
    {
      RegisteredAreOpen();
      for i := 0 to |ops|
        invariant Valid() && Waiting(notifyMap) == WaitingAtEnd(Waiting(old(notifyMap)), ops[..i])
        invariant old(issued) <= issued && fresh(issued - old(issued))
        invariant forall c | c in old(issued) && old(c.closed) :: c.closed
        invariant forall h, t | Registered(old(notifyMap), h, t) ::
                    old(notifyMap)[h][t] in issued
                    && if NeverStale(ops[..i], 0, h, t) then Listens(h, t, old(notifyMap)[h][t])
                       else old(notifyMap)[h][t].closed
      {
        assert ops[..i + 1][..i] == ops[..i];
        forall h, t
          ensures NeverStale(ops[..i + 1], 0, h, t) <==> NeverStale(ops[..i], 0, h, t) && Keeps(ops[i], h, t)
        {
          NeverStaleBefore(ops[..i + 1], 0, h, t);
        }
        Step(ops[i]);
      }
      assert ops[..|ops|] == ops;
    }

    lemma RegisteredAreOpen()
      requires Valid()
      ensures forall h, t | Registered(notifyMap, h, t) :: notifyMap[h][t] in issued && !notifyMap[h][t].closed
    {
      forall h, t | Registered(notifyMap, h, t)
        ensures notifyMap[h][t] in issued && !notifyMap[h][t].closed
      {
        assert notifyMap[h][t] in Channels(notifyMap);
      }
    }

    method Step(op: Op)
      requires Valid()
      modifies this, issued
      ensures Valid() && Waiting(notifyMap) == WaitingAfter(Waiting(old(notifyMap)), op)
      ensures old(issued) <= issued && fresh(issued - old(issued))
      ensures forall c | c in old(issued) && old(c.closed) :: c.closed
      ensures forall h, t | Registered(notifyMap, h, t) && notifyMap[h][t] in old(issued) ::
        Registered(old(notifyMap), h, t) && old(notifyMap)[h][t] == notifyMap[h][t]
      ensures forall h, t | Registered(old(notifyMap), h, t) ::
                if Keeps(op, h, t) then Listens(h, t, old(notifyMap)[h][t]) else old(notifyMap)[h][t].closed
    {
      match op
      case Poll(hash, time) => EnterPoll(hash, time);
      case Notify(latest, lastGenerated) =>
        RemainingWaits(notifyMap, latest, lastGenerated);
        NotifyLongPollers(latest, lastGenerated);
    }

    /** A poll comes in; all that wait go on waiting where they do. */
    method EnterPoll(hash: Hash, time: Time)
      requires Valid()
      modifies this
      ensures Valid() && Waiting(notifyMap) == WaitingAfter(Waiting(old(notifyMap)), Poll(hash, time))
      ensures old(issued) <= issued && fresh(issued - old(issued))
      ensures forall h, t | Registered(notifyMap, h, t) && notifyMap[h][t] in old(issued) ::
        Registered(old(notifyMap), h, t) && old(notifyMap)[h][t] == notifyMap[h][t]
      ensures forall h, t | Registered(old(notifyMap), h, t) :: Listens(h, t, old(notifyMap)[h][t])
    {
      var c := TemplateUpdateChan(hash, time);
      PollWaits(old(notifyMap), hash, time, c);
      RegisteredAreOpen();
    }

    lemma PollWaits(m: Registry, hash: Hash, time: Time, c: Chan)
      ensures Waiting(Plus(m, hash, time, c)) == WaitingAfter(Waiting(m), Poll(hash, time))
      ensures Registered(m, hash, time) ==> Waiting(m) == WaitingAfter(Waiting(m), Poll(hash, time))
    {
      forall h, t
        ensures (h, t) in Waiting(Plus(m, hash, time, c)) <==> (h, t) in Waiting(m) || (h == hash && t == time)
      {
        var more := Plus(m, hash, time, c);
        assert (h, t) in Waiting(more) <==> h in more && t in more[h];
        assert (h, t) in Waiting(m) <==> h in m && t in m[h];
      }
    }

    /** Two polls for the same template share a channel, whatever happens in between,
        unless the first one has been notified by then. */
    method SharedUntilClosed(hash: Hash, time: Time, ops: seq<Op>) returns (first: Chan, second: Chan)
      requires Valid()
      modifies this, issued
      ensures Valid() && (first == second || first.closed) && !second.closed
    {
      first := TemplateUpdateChan(hash, time);
      for i := 0 to |ops|
        invariant Valid() && first in issued && fresh(issued - old(issued))
        invariant first.closed || (Registered(notifyMap, hash, time) && notifyMap[hash][time] == first)
      {
        ghost var before := notifyMap;
        Step(ops[i]);
        if !first.closed {
          assert first in Channels(notifyMap);
          var h, t :| h in notifyMap && t in notifyMap[h] && notifyMap[h][t] == first;
          assert Registered(notifyMap, h, t) && Registered(before, h, t);
        }
      }
      second := TemplateUpdateChan(hash, time);
    }
  }
}
