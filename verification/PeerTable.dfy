// The peer table and the peer lifecycle protocol (node/server.go).
//
// Every peer has one lifecycle goroutine, which sends at most one peerAdd and
// exactly one peerDone into a single FIFO channel; one handler goroutine owns the
// tables.  Each method below is one atomic step of some goroutine or of the
// network, and a run is any schedule of such steps.

module PeerTable {
  import opened Common

  datatype Peer = Peer(id: int, inbound: bool, persistent: bool, group: string)

  /** How far a peer's lifecycle goroutine has got. */
  datatype Stage =
    | Handshake      // waiting for verack or disconnect
    | Announced      // peerAdd sent, the peerAdded flag not stored yet
    | Waiting        // waiting for the disconnect
    | Finished       // peerDone sent

  datatype Event = PeerAdd(peer: Peer) | PeerDone(peer: Peer)

  /** Calls made to the sync manager. */
  datatype SyncCall = NewPeer(peer: Peer) | DonePeer(peer: Peer)

  // ---------------------------------------------------------------------------
  // Which table a peer goes into and is taken out of.

  datatype Table = InboundTable | OutboundTable | PersistentTable

  function InsertTable(p: Peer): Table {
    if p.inbound then InboundTable else if p.persistent then PersistentTable else OutboundTable
  }

  function RemoveTable(p: Peer): Table {
    if p.persistent then PersistentTable else if p.inbound then InboundTable else OutboundTable
  }

  /** Removal looks where insertion put the peer exactly because no inbound peer is
      persistent. */
  lemma SameTableIff(p: Peer)
    ensures InsertTable(p) == RemoveTable(p) <==> !(p.inbound && p.persistent)
  {
  }

  // ---------------------------------------------------------------------------
  // Tables keyed by peer id, and counting by group.

  datatype Tables = Tables(inbound: map<int, Peer>, outbound: map<int, Peer>, persistent: map<int, Peer>)
  {
    function For(kind: Table): map<int, Peer> {
      match kind
      case InboundTable => inbound
      case OutboundTable => outbound
      case PersistentTable => persistent
    }

    /** The tables with one more peer. */
    function With(p: Peer): Tables {
      if p.inbound then this.(inbound := inbound[p.id := p])
      else if p.persistent then this.(persistent := persistent[p.id := p])
      else this.(outbound := outbound[p.id := p])
    }

    /** The tables without a peer. */
    function Less(p: Peer): Tables {
      if p.persistent then this.(persistent := Without(persistent, p.id))
      else if p.inbound then this.(inbound := Without(inbound, p.id))
      else this.(outbound := Without(outbound, p.id))
    }

    function Count(): nat {
      |inbound| + |outbound| + |persistent|
    }

    /** The peer is in the table it belongs in. */
    ghost predicate Has(p: Peer) {
      var table := For(InsertTable(p));
      p.id in table && table[p.id] == p
    }
  }

  ghost predicate Keyed(table: map<int, Peer>) {
    forall id | id in table :: table[id].id == id
  }

  /** A table holds only peers that belong in it, each under its own id. */
  ghost predicate TableOk(table: map<int, Peer>, kind: Table) {
    Keyed(table) && forall id | id in table :: InsertTable(table[id]) == kind
  }

  lemma NothingToTake(table: map<int, Peer>, id: int)
    requires id !in table
    ensures Without(table, id) == table
  {
  }

  lemma WithHas(tables: Tables, p: Peer)
    requires p.id !in tables.For(InsertTable(p))
    ensures forall q :: tables.With(p).Has(q) <==> tables.Has(q) || q == p
  {
  }

  lemma LessHas(tables: Tables, p: Peer)
    requires TableOk(tables.inbound, InboundTable) && TableOk(tables.outbound, OutboundTable)
    requires TableOk(tables.persistent, PersistentTable) && InsertTable(p) == RemoveTable(p)
    requires p.id in tables.For(RemoveTable(p)) ==> tables.Has(p)
    ensures forall q :: tables.Less(p).Has(q) <==> tables.Has(q) && q != p
  {
  }

  /** Peers are told apart by their ids, and inbound ones are never persistent. */
  ghost predicate Identified(peers: set<Peer>) {
    && (forall p, q | p in peers && q in peers && p.id == q.id :: p == q)
    && (forall p | p in peers :: !(p.inbound && p.persistent))
  }

  /** The peers in a table. */
  ghost function Members(table: map<int, Peer>): set<Peer> {
    set id | id in table :: table[id]
  }

  ghost function InGroup(peers: set<Peer>, group: string): set<Peer> {
    set p | p in peers && p.group == group
  }

  lemma ValuesAfterInsert(table: map<int, Peer>, p: Peer)
    requires Keyed(table) && p.id !in table
    ensures Keyed(table[p.id := p]) && Members(table[p.id := p]) == Members(table) + {p} && p !in Members(table)
    ensures |table[p.id := p]| == |table| + 1
  {
    var more := table[p.id := p];
    forall q | q in Members(table) + {p}
      ensures q in Members(more)
    {
      assert q.id in more && more[q.id] == q;
    }
  }

  lemma ValuesAfterRemove(table: map<int, Peer>, id: int)
    requires Keyed(table) && id in table
    ensures Keyed(Without(table, id)) && Members(Without(table, id)) == Members(table) - {table[id]}
    ensures |Without(table, id)| == |table| - 1
  {
    var less := Without(table, id);
    assert less.Keys == table.Keys - {id};
    forall q | q in Members(table) && q != table[id]
      ensures q in Members(less)
    {
      assert q.id in less && less[q.id] == q;
    }
  }

  function GroupCount(groups: map<string, int>, group: string): int {
    if group in groups then groups[group] else 0
  }

  /** The counters agree with the peers they count. */
  ghost predicate CountsMatch(groups: map<string, int>, peers: set<Peer>) {
    forall g :: GroupCount(groups, g) == |InGroup(peers, g)|
  }

  lemma CountsAfterInsert(groups: map<string, int>, peers: set<Peer>, p: Peer)
    requires CountsMatch(groups, peers) && p !in peers
    ensures CountsMatch(groups[p.group := GroupCount(groups, p.group) + 1], peers + {p})
  {
    forall g
      ensures InGroup(peers + {p}, g) == InGroup(peers, g) + if g == p.group then {p} else {}
    {
    }
    assert p !in InGroup(peers, p.group);
  }

  lemma CountsAfterRemove(groups: map<string, int>, peers: set<Peer>, p: Peer)
    requires CountsMatch(groups, peers) && p in peers
    ensures CountsMatch(groups[p.group := GroupCount(groups, p.group) - 1], peers - {p})
  {
    forall g
      ensures InGroup(peers - {p}, g) == InGroup(peers, g) - if g == p.group then {p} else {}
    {
    }
    assert p in InGroup(peers, p.group);
  }

  lemma NotAmong(table: map<int, Peer>, kind: Table, p: Peer)
    requires TableOk(table, kind) && (InsertTable(p) != kind || p.id !in table)
    ensures p !in Members(table)
  {
    forall id | id in table
      ensures table[id] != p
    {
    }
  }

  lemma CountsAfterOutbound(groups: map<string, int>, out: map<int, Peer>, kept: map<int, Peer>, p: Peer)
    requires TableOk(out, OutboundTable) && TableOk(kept, PersistentTable) && InsertTable(p) == OutboundTable
    requires p.id !in out && CountsMatch(groups, Members(out) + Members(kept))
    ensures CountsMatch(groups[p.group := GroupCount(groups, p.group) + 1], Members(out[p.id := p]) + Members(kept))
  {
    NotAmong(out, OutboundTable, p);
    NotAmong(kept, PersistentTable, p);
    ValuesAfterInsert(out, p);
    CountsAfterInsert(groups, Members(out) + Members(kept), p);
    assert Members(out[p.id := p]) + Members(kept) == Members(out) + Members(kept) + {p};
  }

  lemma CountsAfterPersistent(groups: map<string, int>, out: map<int, Peer>, kept: map<int, Peer>, p: Peer)
    requires TableOk(out, OutboundTable) && TableOk(kept, PersistentTable) && InsertTable(p) == PersistentTable
    requires p.id !in kept && CountsMatch(groups, Members(out) + Members(kept))
    ensures CountsMatch(groups[p.group := GroupCount(groups, p.group) + 1], Members(out) + Members(kept[p.id := p]))
  {
    NotAmong(out, OutboundTable, p);
    NotAmong(kept, PersistentTable, p);
    ValuesAfterInsert(kept, p);
    CountsAfterInsert(groups, Members(out) + Members(kept), p);
    assert Members(out) + Members(kept[p.id := p]) == Members(out) + Members(kept) + {p};
  }

  lemma CountsWithout(groups: map<string, int>, table: map<int, Peer>, other: set<Peer>, id: int)
    requires Keyed(table) && id in table && table[id] !in other && CountsMatch(groups, Members(table) + other)
    ensures CountsMatch(groups[table[id].group := GroupCount(groups, table[id].group) - 1],
                        Members(Without(table, id)) + other)
  {
    var p := table[id];
    ValuesAfterRemove(table, id);
    CountsAfterRemove(groups, Members(table) + other, p);
    assert Members(Without(table, id)) + other == Members(table) + other - {p};
  }

  lemma CountsWithoutOutbound(groups: map<string, int>, out: map<int, Peer>, kept: map<int, Peer>, id: int)
    requires TableOk(out, OutboundTable) && TableOk(kept, PersistentTable)
    requires id in out && CountsMatch(groups, Members(out) + Members(kept))
    ensures CountsMatch(groups[out[id].group := GroupCount(groups, out[id].group) - 1],
                        Members(Without(out, id)) + Members(kept))
  {
    NotAmong(kept, PersistentTable, out[id]);
    CountsWithout(groups, out, Members(kept), id);
  }

  lemma CountsWithoutPersistent(groups: map<string, int>, out: map<int, Peer>, kept: map<int, Peer>, id: int)
    requires TableOk(out, OutboundTable) && TableOk(kept, PersistentTable)
    requires id in kept && CountsMatch(groups, Members(out) + Members(kept))
    ensures CountsMatch(groups[kept[id].group := GroupCount(groups, kept[id].group) - 1],
                        Members(out) + Members(Without(kept, id)))
  {
    NotAmong(out, OutboundTable, kept[id]);
    assert Members(out) + Members(kept) == Members(kept) + Members(out);
    CountsWithout(groups, kept, Members(out), id);
    assert Members(out) + Members(Without(kept, id)) == Members(Without(kept, id)) + Members(out);
  }

  // ---------------------------------------------------------------------------
  // Sequences without repetition in which nothing comes after what must follow it.

  ghost predicate Distinct<T(!new)>(s: seq<T>) {
    forall i, j | 0 <= i < j < |s| :: s[i] != s[j]
  }

  /** No NewPeer follows the DonePeer of the same peer. */
  ghost predicate NewFirst(calls: seq<SyncCall>) {
    forall i, j | 0 <= i < j < |calls| && calls[i].DonePeer? :: calls[j] != NewPeer(calls[i].peer)
  }

  /** Nothing is in the channel twice, and no peerAdd follows the peerDone of the same
      peer; told from the head, where the handler takes events. */
  ghost predicate Queued(events: seq<Event>) {
    events != [] ==>
      && events[0] !in events[1..]
      && (events[0].PeerDone? ==> PeerAdd(events[0].peer) !in events[1..])
      && Queued(events[1..])
  }

  /** No call is made twice, and no NewPeer follows the DonePeer of the same peer; told
      from the last call. */
  ghost predicate Told(calls: seq<SyncCall>) {
    calls != [] ==>
      var last := calls[|calls| - 1];
      var before := calls[..|calls| - 1];
      && last !in before
      && (last.NewPeer? ==> DonePeer(last.peer) !in before)
      && Told(before)
  }

  lemma {:induction false} ToldOnceInOrder(calls: seq<SyncCall>)
    requires Told(calls)
    ensures Distinct(calls) && NewFirst(calls)
  {
    if calls != [] {
      ToldOnceInOrder(calls[..|calls| - 1]);
    }
  }

  lemma {:induction false} QueuedAppend(events: seq<Event>, e: Event)
    requires Queued(events) && e !in events && (e.PeerAdd? ==> PeerDone(e.peer) !in events)
    ensures Queued(events + [e])
  {
    if events != [] {
      QueuedAppend(events[1..], e);
      assert (events + [e])[1..] == events[1..] + [e];
    }
  }

  /** What the handler takes from the channel is not left in it, and a peerDone leaves no
      peerAdd of its peer behind. */
  lemma HeadTaken(events: seq<Event>)
    requires events != [] && Queued(events)
    ensures Queued(events[1..])
    ensures forall e :: e in events[1..] <==> e in events && e != events[0]
    ensures events[0].PeerDone? ==> PeerAdd(events[0].peer) !in events
  {
    assert events == [events[0]] + events[1..];
  }

  /** The sync manager hears of a new peer at most once, of its end at most once, and in
      that order; of its coming exactly when its peerAdd was handled and it was not turned
      away, of its end exactly when both its events have been handled. */
  ghost predicate CallsSound(calls: seq<SyncCall>, adds: set<Peer>, dones: set<Peer>, away: set<Peer>) {
    Told(calls) && forall p :: CallsMatch(calls, adds, dones, away, p)
  }

  ghost predicate CallsMatch(calls: seq<SyncCall>, adds: set<Peer>, dones: set<Peer>, away: set<Peer>, p: Peer) {
    && (NewPeer(p) in calls <==> p in adds && p !in away)
    && (DonePeer(p) in calls <==> p in dones && p in adds)
    && (p in away ==> p in adds)
  }

  lemma CallsAfterAdd(calls: seq<SyncCall>, adds: set<Peer>, dones: set<Peer>, away: set<Peer>, p: Peer, added: bool)
    requires CallsSound(calls, adds, dones, away) && p !in adds && p !in dones
    ensures CallsSound(calls + if added then [NewPeer(p)] else [], adds + {p}, dones, away + if added then {} else {p})
  {
    var told := if added then [NewPeer(p)] else [];
    var more := away + if added then {} else {p};
    assert CallsMatch(calls, adds, dones, away, p);
    assert (calls + [NewPeer(p)])[..|calls|] == calls;
    assert calls + [] == calls;
    forall q
      ensures CallsMatch(calls + told, adds + {p}, dones, more, q)
    {
      assert CallsMatch(calls, adds, dones, away, q);
    }
  }

  lemma CallsAfterDone(calls: seq<SyncCall>, adds: set<Peer>, dones: set<Peer>, away: set<Peer>, p: Peer)
    requires CallsSound(calls, adds, dones, away) && p !in dones
    ensures CallsSound(calls + if p in adds then [DonePeer(p)] else [], adds, dones + {p}, away)
  {
    var told := if p in adds then [DonePeer(p)] else [];
    assert CallsMatch(calls, adds, dones, away, p);
    assert (calls + [DonePeer(p)])[..|calls|] == calls;
    assert calls + [] == calls;
    forall q
      ensures CallsMatch(calls + told, adds, dones + {p}, away, q)
    {
      assert CallsMatch(calls, adds, dones, away, q);
    }
  }

  /** A peer in a table was announced to the sync manager and its end was not handled. */
  ghost predicate TrackedSound(peers: Tables, calls: seq<SyncCall>, dones: set<Peer>) {
    forall p :: TrackMatches(peers, calls, dones, p)
  }

  ghost predicate TrackMatches(peers: Tables, calls: seq<SyncCall>, dones: set<Peer>, p: Peer) {
    peers.Has(p) ==> NewPeer(p) in calls && p !in dones
  }

  lemma TrackedAfterAdd(was: Tables, peers: Tables, calls: seq<SyncCall>, dones: set<Peer>, p: Peer, added: bool)
    requires TrackedSound(was, calls, dones) && p !in dones
    requires forall q :: peers.Has(q) <==> was.Has(q) || (added && q == p)
    ensures TrackedSound(peers, calls + if added then [NewPeer(p)] else [], dones)
  {
    var told := if added then [NewPeer(p)] else [];
    forall q
      ensures TrackMatches(peers, calls + told, dones, q)
    {
      assert TrackMatches(was, calls, dones, q);
    }
  }

  lemma TrackedAfterDone(was: Tables, peers: Tables, calls: seq<SyncCall>, more: seq<SyncCall>, dones: set<Peer>,
                         p: Peer)
    requires TrackedSound(was, calls, dones)
    requires forall q :: peers.Has(q) <==> was.Has(q) && q != p
    ensures TrackedSound(peers, calls + more, dones + {p})
  {
    forall q
      ensures TrackMatches(peers, calls + more, dones + {p}, q)
    {
      assert TrackMatches(was, calls, dones, q);
    }
  }

  lemma TrackedLess(was: Tables, calls: seq<SyncCall>, more: seq<SyncCall>, dones: set<Peer>, p: Peer)
    requires TableOk(was.inbound, InboundTable) && TableOk(was.outbound, OutboundTable)
    requires TableOk(was.persistent, PersistentTable) && InsertTable(p) == RemoveTable(p)
    requires p.id in was.For(RemoveTable(p)) ==> was.Has(p)
    requires TrackedSound(was, calls, dones)
    ensures TrackedSound(was.Less(p), calls + more, dones + {p}) && !was.Less(p).Has(p)
  {
    LessHas(was, p);
    TrackedAfterDone(was, was.Less(p), calls, more, dones, p);
  }

  /** Taking peers out of the tables makes nothing untrue. */
  lemma TrackedInFewer(was: Tables, peers: Tables, calls: seq<SyncCall>, dones: set<Peer>)
    requires TrackedSound(was, calls, dones)
    requires forall q | peers.Has(q) :: was.Has(q)
    ensures TrackedSound(peers, calls, dones)
  {
    forall q
      ensures TrackMatches(peers, calls, dones, q)
    {
      assert TrackMatches(was, calls, dones, q);
    }
  }

  // ---------------------------------------------------------------------------
  // Picking peers out of a table.

  ghost predicate Matches(table: map<int, Peer>, cmp: Peer -> bool, id: int) {
    id in table && cmp(table[id])
  }

  ghost function Unmatched(table: map<int, Peer>, cmp: Peer -> bool): map<int, Peer> {
    map id | id in table && !cmp(table[id]) :: table[id]
  }

  ghost function Matched(table: map<int, Peer>, cmp: Peer -> bool): set<Peer> {
    set p | p in Members(table) && cmp(p)
  }

  lemma OneMatchLess(table: map<int, Peer>, cmp: Peer -> bool, id: int)
    requires Keyed(table) && Matches(table, cmp, id)
    ensures Unmatched(Without(table, id), cmp) == Unmatched(table, cmp)
    ensures Matched(table, cmp) == Matched(Without(table, id), cmp) + {table[id]}
  {
    ValuesAfterRemove(table, id);
  }

  lemma NoMatchLeft(table: map<int, Peer>, cmp: Peer -> bool)
    requires forall id :: !Matches(table, cmp, id)
    ensures Unmatched(table, cmp) == table && Matched(table, cmp) == {}
  {
    forall id | id in table
      ensures !cmp(table[id])
    {
      assert !Matches(table, cmp, id);
    }
  }

  // ---------------------------------------------------------------------------

  datatype Action =
    | Connect(peer: Peer)
    | Version(peer: Peer)
    | VerAck(peer: Peer)
    | Drop(peer: Peer)
    | SendAdd(peer: Peer)
    | StoreAdded(peer: Peer)
    | SkipAdd(peer: Peer)
    | SendDone(peer: Peer)
    | HandleEvent(unwanted: bool)
    | RemoveNode(cmp: Peer -> bool)
    | DisconnectNode(cmp: Peer -> bool)

  /** The server, and which events it has handled; group counters follow from the tables. */
  datatype State = State(tables: Tables, stage: map<Peer, Stage>, versionKnown: set<Peer>, verAcked: set<Peer>,
                         disconnected: set<Peer>, peerAdded: set<Peer>, lifecycle: seq<Event>,
                         syncCalls: seq<SyncCall>, addHandled: set<Peer>, doneHandled: set<Peer>,
                         turnedAway: set<Peer>)

  function At(stage: map<Peer, Stage>, p: Peer): Option<Stage> {
    if p in stage then Some(stage[p]) else None
  }

  /** A step of the network or of a goroutine; one that cannot happen changes nothing. */
  ghost predicate Moved(s: State, a: Action, t: State) {
    match a
    case Connect(p) =>
      t == if (forall q | q in s.stage :: q.id != p.id) && !(p.inbound && p.persistent)
        then s.(stage := s.stage[p := Handshake]) else s
    case Version(p) => t == s.(versionKnown := s.versionKnown + {p})
    case VerAck(p) => t == if p in s.versionKnown then s.(verAcked := s.verAcked + {p}) else s
    case Drop(p) => t == s.(disconnected := s.disconnected + {p})
    case SendAdd(p) =>
      t == if At(s.stage, p) == Some(Handshake) && p in s.verAcked
        then s.(stage := s.stage[p := Stage.Announced], lifecycle := s.lifecycle + [PeerAdd(p)]) else s
    case StoreAdded(p) =>
      t == if At(s.stage, p) == Some(Stage.Announced)
        then s.(stage := s.stage[p := Waiting], peerAdded := s.peerAdded + {p}) else s
    case SkipAdd(p) =>
      t == if At(s.stage, p) == Some(Handshake) && p in s.disconnected then s.(stage := s.stage[p := Waiting]) else s
    case SendDone(p) =>
      t == if At(s.stage, p) == Some(Waiting) && p in s.disconnected
        then s.(stage := s.stage[p := Finished], lifecycle := s.lifecycle + [PeerDone(p)]) else s
    case _ => t == s
  }

  /** The handler takes a peerAdd: the peer is added exactly if it is connected, wanted and
      there is room, and is turned away otherwise. */
  ghost predicate AddTaken(s: State, p: Peer, unwanted: bool, maxPeers: nat, t: State)
    requires s.lifecycle != []
  {
    var added := p !in s.disconnected && !unwanted && s.tables.Count() < maxPeers;
    var rest := s.(lifecycle := s.lifecycle[1..], addHandled := s.addHandled + {p});
    t == if added then rest.(tables := s.tables.With(p), syncCalls := s.syncCalls + [NewPeer(p)])
         else rest.(disconnected := s.disconnected + {p}, turnedAway := s.turnedAway + {p})
  }

  /** The handler takes a peerDone. */
  ghost predicate DoneTaken(s: State, p: Peer, t: State)
    requires s.lifecycle != []
  {
    t == s.(lifecycle := s.lifecycle[1..], doneHandled := s.doneHandled + {p}, tables := s.tables.Less(p),
            syncCalls := s.syncCalls + if p in s.addHandled then [DonePeer(p)] else [])
  }

  ghost predicate EventTaken(s: State, unwanted: bool, maxPeers: nat, t: State) {
    if s.lifecycle == [] then t == s
    else
      match s.lifecycle[0]
      case PeerAdd(p) => AddTaken(s, p, unwanted, maxPeers, t)
      case PeerDone(p) => DoneTaken(s, p, t)
  }

  /** One matching persistent peer goes, if there is one. */
  ghost predicate NodeRemoved(s: State, cmp: Peer -> bool, t: State) {
    if exists id :: Matches(s.tables.persistent, cmp, id) then
      exists id :: Matches(s.tables.persistent, cmp, id) && PersistentGone(s, id, t)
    else t == s
  }

  ghost predicate PersistentGone(s: State, id: int, t: State)
    requires id in s.tables.persistent
  {
    var table := s.tables.persistent;
    t == s.(tables := s.tables.(persistent := Without(table, id)), disconnected := s.disconnected + {table[id]})
  }

  /** One matching inbound peer goes, or if there is none all matching outbound ones. */
  ghost predicate NodeDisconnected(s: State, cmp: Peer -> bool, t: State) {
    if exists id :: Matches(s.tables.inbound, cmp, id) then
      exists id :: Matches(s.tables.inbound, cmp, id) && InboundGone(s, id, t)
    else t == s.(tables := s.tables.(outbound := Unmatched(s.tables.outbound, cmp)),
                 disconnected := s.disconnected + Matched(s.tables.outbound, cmp))
  }

  ghost predicate InboundGone(s: State, id: int, t: State)
    requires id in s.tables.inbound
  {
    var table := s.tables.inbound;
    t == s.(tables := s.tables.(inbound := Without(table, id)), disconnected := s.disconnected + {table[id]})
  }

  ghost predicate Stepped(s: State, a: Action, maxPeers: nat, t: State) {
    match a
    case HandleEvent(unwanted) => EventTaken(s, unwanted, maxPeers, t)
    case RemoveNode(cmp) => NodeRemoved(s, cmp, t)
    case DisconnectNode(cmp) => NodeDisconnected(s, cmp, t)
    case _ => Moved(s, a, t)
  }

  /** The states before every step of a schedule and after the last. */
  ghost predicate Trace(states: seq<State>, schedule: seq<Action>, maxPeers: nat) {
    |states| == |schedule| + 1 && forall i | 0 <= i < |schedule| :: SteppedAt(states, schedule, maxPeers, i)
  }

  ghost predicate SteppedAt(states: seq<State>, schedule: seq<Action>, maxPeers: nat, i: nat)
    requires i < |schedule| && i + 1 < |states|
  {
    Stepped(states[i], schedule[i], maxPeers, states[i + 1])
  }

  lemma MovedIs(s: State, a: Action, t: State)
    requires t == s.(stage := t.stage, versionKnown := t.versionKnown, verAcked := t.verAcked,
                     disconnected := t.disconnected, peerAdded := t.peerAdded, lifecycle := t.lifecycle)
    requires a.Connect? ==>
      t.stage == if (forall q | q in s.stage :: q.id != a.peer.id) && !(a.peer.inbound && a.peer.persistent)
        then s.stage[a.peer := Handshake] else s.stage
    requires t.versionKnown == s.versionKnown + if a.Version? then {a.peer} else {}
    requires t.verAcked == s.verAcked + if a.VerAck? && a.peer in s.versionKnown then {a.peer} else {}
    requires t.disconnected == s.disconnected + if a.Drop? then {a.peer} else {}
    requires SendsAdd(s, a) ==>
      t.stage == s.stage[a.peer := Stage.Announced] && t.lifecycle == s.lifecycle + [PeerAdd(a.peer)]
    requires StoresAdded(s, a) ==> t.stage == s.stage[a.peer := Waiting] && t.peerAdded == s.peerAdded + {a.peer}
    requires SkipsAdd(s, a) ==> t.stage == s.stage[a.peer := Waiting]
    requires SendsDone(s, a) ==>
      t.stage == s.stage[a.peer := Finished] && t.lifecycle == s.lifecycle + [PeerDone(a.peer)]
    requires t.lifecycle == s.lifecycle || SendsAdd(s, a) || SendsDone(s, a)
    requires t.peerAdded == s.peerAdded || StoresAdded(s, a)
    requires t.stage == s.stage || a.Connect? || SendsAdd(s, a) || StoresAdded(s, a) || SkipsAdd(s, a)
             || SendsDone(s, a)
    ensures Moved(s, a, t)
  {
  }

  predicate SendsAdd(s: State, a: Action) {
    a.SendAdd? && At(s.stage, a.peer) == Some(Handshake) && a.peer in s.verAcked
  }

  predicate StoresAdded(s: State, a: Action) {
    a.StoreAdded? && At(s.stage, a.peer) == Some(Stage.Announced)
  }

  predicate SkipsAdd(s: State, a: Action) {
    a.SkipAdd? && At(s.stage, a.peer) == Some(Handshake) && a.peer in s.disconnected
  }

  predicate SendsDone(s: State, a: Action) {
    a.SendDone? && At(s.stage, a.peer) == Some(Waiting) && a.peer in s.disconnected
  }

  lemma TraceOn(states: seq<State>, schedule: seq<Action>, maxPeers: nat, i: nat, next: State)
    requires i < |schedule| && Trace(states, schedule[..i], maxPeers)
    requires Stepped(states[i], schedule[i], maxPeers, next)
    ensures Trace(states + [next], schedule[..i + 1], maxPeers)
  {
    var more, longer := states + [next], schedule[..i + 1];
    forall j | 0 <= j < |longer|
      ensures SteppedAt(more, longer, maxPeers, j)
    {
      if j < i {
        assert SteppedAt(states, schedule[..i], maxPeers, j);
      }
    }
  }

  /** What the handler's steps come to: a connected, wanted peer finds its place if there is
      room and is announced, one that is done is reported gone if its announcement was
      handled, and peers that are to be disconnected are, and leave their table. */
  lemma HandlerSteps(s: State, a: Action, maxPeers: nat, t: State)
    requires Stepped(s, a, maxPeers, t)
    ensures a.HandleEvent? && s.lifecycle != [] ==> t.lifecycle == s.lifecycle[1..]
    ensures a.HandleEvent? && !a.unwanted && s.lifecycle != [] && s.lifecycle[0].PeerAdd?
            && s.lifecycle[0].peer !in s.disconnected && s.tables.Count() < maxPeers ==>
      t.tables.Has(s.lifecycle[0].peer) && t.syncCalls == s.syncCalls + [NewPeer(s.lifecycle[0].peer)]
    ensures a.HandleEvent? && s.lifecycle != [] && s.lifecycle[0].PeerDone? && s.lifecycle[0].peer in s.addHandled ==>
      && t.syncCalls == s.syncCalls + [DonePeer(s.lifecycle[0].peer)]
      && (!s.lifecycle[0].peer.inbound || !s.lifecycle[0].peer.persistent ==> !t.tables.Has(s.lifecycle[0].peer))
    ensures a.RemoveNode? && (exists id :: Matches(s.tables.persistent, a.cmp, id)) ==>
      exists id :: Matches(s.tables.persistent, a.cmp, id) && id !in t.tables.persistent
                   && s.tables.persistent[id] in t.disconnected
    ensures a.DisconnectNode? && (exists id :: Matches(s.tables.inbound, a.cmp, id)) ==>
      exists id :: Matches(s.tables.inbound, a.cmp, id) && id !in t.tables.inbound
                   && s.tables.inbound[id] in t.disconnected
    ensures a.DisconnectNode? && (forall id :: !Matches(s.tables.inbound, a.cmp, id)) ==>
      forall id | Matches(s.tables.outbound, a.cmp, id) ::
        id !in t.tables.outbound && s.tables.outbound[id] in t.disconnected
  {
  }

  /** A peer that connects, shakes hands, is announced and disconnects. */
  function Visit(p: Peer): seq<Action> {
    [Connect(p), Version(p), VerAck(p), SendAdd(p), StoreAdded(p), HandleEvent(false), Drop(p), SendDone(p),
     HandleEvent(false)]
  }

  const NOBODY := Tables(map[], map[], map[])

  const EMPTY := State(NOBODY, map[], {}, {}, {}, {}, [], [], {}, {}, {})

  lemma VisitorShakesHands(states: seq<State>, p: Peer, maxPeers: nat)
    requires Trace(states, Visit(p), maxPeers) && states[0] == EMPTY && !(p.inbound && p.persistent)
    ensures states[3] == State(NOBODY, map[p := Handshake], {p}, {p}, {}, {}, [], [], {}, {}, {})
  {
    StepOfTrace(states, Visit(p), maxPeers, 0, Connect(p));
    assert states[1] == EMPTY.(stage := map[p := Handshake]);
    StepOfTrace(states, Visit(p), maxPeers, 1, Version(p));
    assert states[2].versionKnown == {p};
    StepOfTrace(states, Visit(p), maxPeers, 2, VerAck(p));
  }

  lemma StepOfTrace(states: seq<State>, schedule: seq<Action>, maxPeers: nat, i: nat, a: Action)
    requires Trace(states, schedule, maxPeers) && i < |schedule| && schedule[i] == a
    ensures Stepped(states[i], a, maxPeers, states[i + 1])
  {
    assert SteppedAt(states, schedule, maxPeers, i);
  }

  lemma VisitorIsAnnounced(states: seq<State>, p: Peer, maxPeers: nat)
    requires Trace(states, Visit(p), maxPeers) && states[0] == EMPTY && !(p.inbound && p.persistent)
    ensures states[5] == State(NOBODY, map[p := Waiting], {p}, {p}, {}, {p}, [PeerAdd(p)], [], {}, {}, {})
  {
    VisitorShakesHands(states, p, maxPeers);
    StepOfTrace(states, Visit(p), maxPeers, 3, SendAdd(p));
    assert states[4].stage == map[p := Stage.Announced] && states[4].lifecycle == [PeerAdd(p)];
    StepOfTrace(states, Visit(p), maxPeers, 4, StoreAdded(p));
  }

  lemma VisitorIsIn(states: seq<State>, p: Peer, maxPeers: nat)
    requires Trace(states, Visit(p), maxPeers) && states[0] == EMPTY && !(p.inbound && p.persistent) && 0 < maxPeers
    ensures states[6]
         == State(NOBODY.With(p), map[p := Waiting], {p}, {p}, {}, {p}, [], [NewPeer(p)], {p}, {}, {})
  {
    VisitorIsAnnounced(states, p, maxPeers);
    StepOfTrace(states, Visit(p), maxPeers, 5, HandleEvent(false));
  }

  lemma VisitorIsDone(states: seq<State>, p: Peer, maxPeers: nat)
    requires Trace(states, Visit(p), maxPeers) && states[0] == EMPTY && !(p.inbound && p.persistent) && 0 < maxPeers
    ensures states[8] == State(NOBODY.With(p), map[p := Finished], {p}, {p}, {p}, {p}, [PeerDone(p)], [NewPeer(p)],
                               {p}, {}, {})
  {
    VisitorIsIn(states, p, maxPeers);
    StepOfTrace(states, Visit(p), maxPeers, 6, Drop(p));
    StepOfTrace(states, Visit(p), maxPeers, 7, SendDone(p));
  }

  /** On an empty server with room it is in its table once its announcement is handled, and
      gone once its end is, and the sync manager has heard of both. */
  lemma VisitorComesAndGoes(states: seq<State>, p: Peer, maxPeers: nat)
    requires Trace(states, Visit(p), maxPeers) && states[0] == EMPTY && !(p.inbound && p.persistent) && 0 < maxPeers
    ensures states[6].tables == Tables(if p.inbound then map[p.id := p] else map[],
                                       if !p.inbound && !p.persistent then map[p.id := p] else map[],
                                       if p.persistent then map[p.id := p] else map[])
    ensures states[9].tables == Tables(map[], map[], map[]) && states[9].syncCalls == [NewPeer(p), DonePeer(p)]
  {
    VisitorIsIn(states, p, maxPeers);
    VisitorIsDone(states, p, maxPeers);
    StepOfTrace(states, Visit(p), maxPeers, 8, HandleEvent(false));
  }

  lemma {:induction false} NothingIsTakenBack(states: seq<State>, schedule: seq<Action>, maxPeers: nat)
    requires Trace(states, schedule, maxPeers)
    ensures var last := states[|schedule|];
      states[0].doneHandled <= last.doneHandled && states[0].syncCalls <= last.syncCalls
  {
    if schedule != [] {
      var n := |schedule| - 1;
      var fewer, before := states[..n + 1], schedule[..n];
      forall j | 0 <= j < |before|
        ensures SteppedAt(fewer, before, maxPeers, j)
      {
        assert SteppedAt(states, schedule, maxPeers, j);
      }
      NothingIsTakenBack(fewer, before, maxPeers);
      assert SteppedAt(states, schedule, maxPeers, n);
      TakesNothingBack(states[n], schedule[n], maxPeers, states[n + 1]);
    }
  }

  lemma TakesNothingBack(s: State, a: Action, maxPeers: nat, t: State)
    requires Stepped(s, a, maxPeers, t)
    ensures s.doneHandled <= t.doneHandled && s.syncCalls <= t.syncCalls
  {
  }

  class Server {
    const maxPeers: nat

    // The handler's tables.
    var inboundPeers: map<int, Peer>
    var outboundPeers: map<int, Peer>
    var persistentPeers: map<int, Peer>
    var outboundGroups: map<string, int>

    // Peers, their goroutines and the channel.
    var stage: map<Peer, Stage>
    var versionKnown: set<Peer>
    var verAcked: set<Peer>
    var disconnected: set<Peer>
    var peerAdded: set<Peer>
    var lifecycle: seq<Event>

    // What the sync manager has been told, in order.
    var syncCalls: seq<SyncCall>

    // Which events have been handled, and who was turned away at its peerAdd.
    ghost var addHandled: set<Peer>
    ghost var doneHandled: set<Peer>
    ghost var turnedAway: set<Peer>

    function Count(): nat
      reads this`inboundPeers, this`outboundPeers, this`persistentPeers
    {
      |inboundPeers| + |outboundPeers| + |persistentPeers|
    }

    function Peers(): Tables
      reads this`inboundPeers, this`outboundPeers, this`persistentPeers
    {
      Tables(inboundPeers, outboundPeers, persistentPeers)
    }

    ghost function Now(): State
      reads this
    {
      State(Peers(), stage, versionKnown, verAcked, disconnected, peerAdded, lifecycle, syncCalls,
            addHandled, doneHandled, turnedAway)
    }

    ghost predicate Announced(p: Peer)
      reads this`lifecycle, this`addHandled
    {
      PeerAdd(p) in lifecycle || p in addHandled
    }

    ghost predicate Ended(p: Peer)
      reads this`lifecycle, this`doneHandled
    {
      PeerDone(p) in lifecycle || p in doneHandled
    }

    ghost predicate PeersOk()
      reads this`stage
    {
      Identified(stage.Keys)
    }

    ghost predicate TablesOk()
      reads this`inboundPeers, this`outboundPeers, this`persistentPeers
    {
      && TableOk(inboundPeers, InboundTable) && TableOk(outboundPeers, OutboundTable)
      && TableOk(persistentPeers, PersistentTable)
      && Count() <= maxPeers
    }

    /** Every group counter is the number of outbound and persistent peers of the group. */
    ghost predicate GroupsOk()
      reads this`outboundPeers, this`persistentPeers, this`outboundGroups
    {
      CountsMatch(outboundGroups, Members(outboundPeers) + Members(persistentPeers))
    }

    ghost predicate ChannelOk()
      reads this`lifecycle
    {
      Queued(lifecycle)
    }

    /** How far the goroutine of one peer has got tells what it has sent. */
    ghost predicate StageOk(p: Peer)
      reads this`stage, this`lifecycle, this`addHandled, this`doneHandled, this`peerAdded, this`disconnected,
            this`verAcked, this`versionKnown
    {
      && (PeerAdd(p) in lifecycle ==> p !in addHandled && p !in doneHandled)
      && (PeerDone(p) in lifecycle ==> p !in doneHandled)
      && (Announced(p) ==> p in stage && stage[p] != Stage.Handshake && p in verAcked)
      && (p in stage && stage[p] == Stage.Announced ==> Announced(p))
      && (p in peerAdded <==> Announced(p) && stage[p] != Stage.Announced)
      && (Ended(p) <==> p in stage && stage[p] == Finished)
      && (Ended(p) ==> p in disconnected)
      && (p in verAcked ==> p in versionKnown)
    }

    ghost predicate StagesOk()
      reads this`stage, this`lifecycle, this`addHandled, this`doneHandled, this`peerAdded, this`disconnected,
            this`verAcked, this`versionKnown
    {
      forall p :: StageOk(p)
    }

    ghost predicate CallsOk()
      reads this`syncCalls, this`addHandled, this`doneHandled, this`turnedAway
    {
      CallsSound(syncCalls, addHandled, doneHandled, turnedAway)
    }

    ghost predicate TrackedOk()
      reads this`inboundPeers, this`outboundPeers, this`persistentPeers, this`doneHandled, this`syncCalls
    {
      TrackedSound(Peers(), syncCalls, doneHandled)
    }

    ghost predicate Valid()
      reads this
    {
      PeersOk() && TablesOk() && GroupsOk() && ChannelOk() && StagesOk() && CallsOk() && TrackedOk()
    }

    constructor (maxPeers: nat)
      ensures Valid() && this.maxPeers == maxPeers && stage == map[] && syncCalls == [] && lifecycle == []
      ensures versionKnown == verAcked == disconnected == peerAdded == addHandled == doneHandled == turnedAway == {}
      ensures inboundPeers == outboundPeers == persistentPeers == map[]
    {
      this.maxPeers := maxPeers;
      inboundPeers, outboundPeers, persistentPeers, outboundGroups := map[], map[], map[], map[];
      stage, versionKnown, verAcked, disconnected, peerAdded := map[], {}, {}, {}, {};
      lifecycle, syncCalls := [], [];
      addHandled, doneHandled, turnedAway := {}, {}, {};
    }

    // ----- the network

    method Connect(p: Peer)
      requires PeersOk() && StagesOk() && (forall q | q in stage :: q.id != p.id) && !(p.inbound && p.persistent)
      modifies this`stage
      ensures PeersOk() && StagesOk() && stage == old(stage)[p := Handshake]
    {
      label before: assert StageOk(p);
      stage := stage[p := Handshake];
      forall q
        ensures StageOk(q)
      {
        assert old@before(StageOk(q));
      }
    }

    method Version(p: Peer)
      requires StagesOk()
      modifies this`versionKnown
      ensures StagesOk() && versionKnown == old(versionKnown) + {p}
    {
      versionKnown := versionKnown + {p};
      forall q
        ensures StageOk(q)
      {
        assert old(StageOk(q));
      }
    }

    /** The version exchange precedes verack. */
    method VerAck(p: Peer)
      requires StagesOk() && p in versionKnown
      modifies this`verAcked
      ensures StagesOk() && verAcked == old(verAcked) + {p}
    {
      verAcked := verAcked + {p};
      forall q
        ensures StageOk(q)
      {
        assert old(StageOk(q));
      }
    }

    method Drop(p: Peer)
      requires StagesOk()
      modifies this`disconnected
      ensures StagesOk() && disconnected == old(disconnected) + {p}
    {
      disconnected := disconnected + {p};
      forall q
        ensures StageOk(q)
      {
        assert old(StageOk(q));
      }
    }

    // ----- the lifecycle goroutine of one peer

    method SendAdd(p: Peer)
      requires PeersOk() && ChannelOk() && StagesOk() && p in stage && stage[p] == Handshake && p in verAcked
      modifies this`stage, this`lifecycle
      ensures PeersOk() && ChannelOk() && StagesOk()
      ensures stage == old(stage)[p := Stage.Announced] && lifecycle == old(lifecycle) + [PeerAdd(p)]
    {
      assert StageOk(p);
      QueuedAppend(lifecycle, PeerAdd(p));
      lifecycle := lifecycle + [PeerAdd(p)];
      stage := stage[p := Stage.Announced];
      forall q
        ensures StageOk(q)
      {
        assert old(StageOk(q));
      }
    }

    method StoreAdded(p: Peer)
      requires PeersOk() && StagesOk() && p in stage && stage[p] == Stage.Announced
      modifies this`stage, this`peerAdded
      ensures PeersOk() && StagesOk() && stage == old(stage)[p := Waiting] && peerAdded == old(peerAdded) + {p}
    {
      peerAdded := peerAdded + {p};
      stage := stage[p := Waiting];
      forall q
        ensures StageOk(q)
      {
        assert old(StageOk(q));
      }
    }

    method SkipAdd(p: Peer)
      requires PeersOk() && StagesOk() && p in stage && stage[p] == Handshake && p in disconnected
      modifies this`stage
      ensures PeersOk() && StagesOk() && stage == old(stage)[p := Waiting]
    {
      stage := stage[p := Waiting];
      forall q
        ensures StageOk(q)
      {
        assert old(StageOk(q));
      }
    }

    method SendDone(p: Peer)
      requires PeersOk() && ChannelOk() && StagesOk() && p in stage && stage[p] == Waiting && p in disconnected
      modifies this`stage, this`lifecycle
      ensures PeersOk() && ChannelOk() && StagesOk()
      ensures stage == old(stage)[p := Finished] && lifecycle == old(lifecycle) + [PeerDone(p)]
    {
      assert StageOk(p);
      QueuedAppend(lifecycle, PeerDone(p));
      lifecycle := lifecycle + [PeerDone(p)];
      stage := stage[p := Finished];
      forall q
        ensures StageOk(q)
      {
        assert old(StageOk(q));
      }
    }

    // ----- the handler goroutine

    method InsertInbound(p: Peer)
      requires TablesOk() && Count() < maxPeers && InsertTable(p) == InboundTable && p.id !in inboundPeers
      modifies this`inboundPeers
      ensures TablesOk() && inboundPeers == old(inboundPeers)[p.id := p]
    {
      ValuesAfterInsert(inboundPeers, p);
      inboundPeers := inboundPeers[p.id := p];
    }

    method InsertOutbound(p: Peer)
      requires TablesOk() && GroupsOk() && Count() < maxPeers && InsertTable(p) == OutboundTable
      requires p.id !in outboundPeers
      modifies this`outboundPeers, this`outboundGroups
      ensures TablesOk() && GroupsOk() && outboundPeers == old(outboundPeers)[p.id := p]
    {
      CountsAfterOutbound(outboundGroups, outboundPeers, persistentPeers, p);
      ValuesAfterInsert(outboundPeers, p);
      outboundGroups := outboundGroups[p.group := GroupCount(outboundGroups, p.group) + 1];
      outboundPeers := outboundPeers[p.id := p];
    }

    method InsertPersistent(p: Peer)
      requires TablesOk() && GroupsOk() && Count() < maxPeers && InsertTable(p) == PersistentTable
      requires p.id !in persistentPeers
      modifies this`persistentPeers, this`outboundGroups
      ensures TablesOk() && GroupsOk() && persistentPeers == old(persistentPeers)[p.id := p]
    {
      CountsAfterPersistent(outboundGroups, outboundPeers, persistentPeers, p);
      ValuesAfterInsert(persistentPeers, p);
      outboundGroups := outboundGroups[p.group := GroupCount(outboundGroups, p.group) + 1];
      persistentPeers := persistentPeers[p.id := p];
    }

    method DeleteOutbound(id: int)
      requires TablesOk() && GroupsOk() && id in outboundPeers
      modifies this`outboundPeers, this`outboundGroups
      ensures TablesOk() && GroupsOk() && outboundPeers == Without(old(outboundPeers), id)
    {
      CountsWithoutOutbound(outboundGroups, outboundPeers, persistentPeers, id);
      ValuesAfterRemove(outboundPeers, id);
      var g := outboundPeers[id].group;
      outboundGroups := outboundGroups[g := GroupCount(outboundGroups, g) - 1];
      outboundPeers := Without(outboundPeers, id);
    }

    method DeletePersistent(id: int)
      requires TablesOk() && GroupsOk() && id in persistentPeers
      modifies this`persistentPeers, this`outboundGroups
      ensures TablesOk() && GroupsOk() && persistentPeers == Without(old(persistentPeers), id)
    {
      CountsWithoutPersistent(outboundGroups, outboundPeers, persistentPeers, id);
      ValuesAfterRemove(persistentPeers, id);
      var g := persistentPeers[id].group;
      outboundGroups := outboundGroups[g := GroupCount(outboundGroups, g) - 1];
      persistentPeers := Without(persistentPeers, id);
    }

    method DeleteInbound(id: int)
      requires TablesOk() && id in inboundPeers
      modifies this`inboundPeers
      ensures TablesOk() && inboundPeers == Without(old(inboundPeers), id)
    {
      ValuesAfterRemove(inboundPeers, id);
      inboundPeers := Without(inboundPeers, id);
    }

    /** Puts an accepted peer into its table. */
    method InsertPeer(p: Peer)
      requires TablesOk() && GroupsOk() && Count() < maxPeers && p.id !in Peers().For(InsertTable(p))
      modifies this`inboundPeers, this`outboundPeers, this`persistentPeers, this`outboundGroups
      ensures TablesOk() && GroupsOk() && Peers() == old(Peers()).With(p)
      ensures inboundPeers == if p.inbound then old(inboundPeers)[p.id := p] else old(inboundPeers)
      ensures persistentPeers
           == if !p.inbound && p.persistent then old(persistentPeers)[p.id := p] else old(persistentPeers)
      ensures outboundPeers
           == if !p.inbound && !p.persistent then old(outboundPeers)[p.id := p] else old(outboundPeers)
    {
      if p.inbound {
        InsertInbound(p);
      } else if p.persistent {
        InsertPersistent(p);
      } else {
        InsertOutbound(p);
      }
    }

    /** handleAddPeerMsg.  `unwanted` stands for the checks of user agent, shutdown,
        address and ban list. */
    method HandleAddPeerMsg(p: Peer, unwanted: bool) returns (added: bool)
      requires TablesOk() && GroupsOk() && StagesOk() && p.id !in Peers().For(InsertTable(p))
      modifies this`inboundPeers, this`outboundPeers, this`persistentPeers, this`outboundGroups,
               this`disconnected, this`syncCalls
      ensures TablesOk() && GroupsOk() && StagesOk()
      ensures added <==> p !in old(disconnected) && !unwanted && old(Count()) < maxPeers
      ensures Peers() == if added then old(Peers()).With(p) else old(Peers())
      ensures syncCalls == old(syncCalls) + if added then [NewPeer(p)] else []
      ensures disconnected == old(disconnected) + if added then {} else {p}
    {
      if p in disconnected {
        return false;
      }
      if unwanted || Count() >= maxPeers {
        Drop(p);
        return false;
      }
      InsertPeer(p);
      syncCalls := syncCalls + [NewPeer(p)];
      added := true;
    }

    /** Takes a peer out of the table it is looked for in, if its id is there. */
    method RemovePeer(p: Peer)
      requires TablesOk() && GroupsOk()
      requires p.id in Peers().For(RemoveTable(p)) ==> p in versionKnown
      modifies this`inboundPeers, this`outboundPeers, this`persistentPeers, this`outboundGroups
      ensures TablesOk() && GroupsOk() && Peers() == old(Peers()).Less(p)
      ensures persistentPeers == if p.persistent then Without(old(persistentPeers), p.id) else old(persistentPeers)
      ensures inboundPeers
           == if p.inbound && !p.persistent then Without(old(inboundPeers), p.id) else old(inboundPeers)
      ensures outboundPeers
           == if !p.inbound && !p.persistent then Without(old(outboundPeers), p.id) else old(outboundPeers)
    {
      if p.id !in Peers().For(RemoveTable(p)) {
        NothingToTake(Peers().For(RemoveTable(p)), p.id);
        return;
      }
      // The count goes down for a peer that is not inbound and whose version is known,
      // which every peer in a table is.
      assert p in versionKnown;
      if p.persistent {
        DeletePersistent(p.id);
      } else if p.inbound {
        DeleteInbound(p.id);
      } else {
        DeleteOutbound(p.id);
      }
    }

    /** handleDonePeerMsg. */
    method HandleDonePeerMsg(p: Peer)
      requires TablesOk() && GroupsOk()
      requires p.id in Peers().For(RemoveTable(p)) ==> p in versionKnown
      modifies this`inboundPeers, this`outboundPeers, this`persistentPeers, this`outboundGroups, this`syncCalls
      ensures TablesOk() && GroupsOk() && Peers() == old(Peers()).Less(p)
      ensures syncCalls == old(syncCalls) + if p in peerAdded then [DonePeer(p)] else []
    {
      RemovePeer(p);
      if p in peerAdded {
        syncCalls := syncCalls + [DonePeer(p)];
      }
    }

    lemma SlotIsOwn(p: Peer)
      requires PeersOk() && TablesOk() && StagesOk() && TrackedOk() && CallsOk() && p in stage
      requires p.id in Peers().For(InsertTable(p))
      ensures Peers().Has(p)
    {
      var q := Peers().For(InsertTable(p))[p.id];
      assert Peers().Has(q);
      assert TrackMatches(Peers(), syncCalls, doneHandled, q);
      assert CallsMatch(syncCalls, addHandled, doneHandled, turnedAway, q);
      assert StageOk(q);
    }

    lemma HeadIsNew(p: Peer)
      requires PeersOk() && TablesOk() && StagesOk() && TrackedOk() && CallsOk()
      requires lifecycle != [] && lifecycle[0] == PeerAdd(p)
      ensures p !in addHandled && p !in doneHandled && p.id !in Peers().For(InsertTable(p))
    {
      assert StageOk(p);
      assert TrackMatches(Peers(), syncCalls, doneHandled, p);
      assert CallsMatch(syncCalls, addHandled, doneHandled, turnedAway, p);
      if p.id in Peers().For(InsertTable(p)) {
        SlotIsOwn(p);
      }
    }

    lemma HeadIsDone(p: Peer)
      requires PeersOk() && TablesOk() && StagesOk() && TrackedOk() && CallsOk() && ChannelOk()
      requires lifecycle != [] && lifecycle[0] == PeerDone(p)
      ensures p !in doneHandled && InsertTable(p) == RemoveTable(p) && (p in peerAdded <==> p in addHandled)
      ensures p.id in Peers().For(RemoveTable(p)) ==> Peers().Has(p) && p in versionKnown
    {
      assert StageOk(p);
      HeadTaken(lifecycle);
      if p.id in Peers().For(InsertTable(p)) {
        SlotIsOwn(p);
        assert TrackMatches(Peers(), syncCalls, doneHandled, p);
        assert CallsMatch(syncCalls, addHandled, doneHandled, turnedAway, p);
      }
    }

    method TakeAdd(p: Peer)
      requires ChannelOk() && StagesOk() && lifecycle != [] && lifecycle[0] == PeerAdd(p)
      modifies this`lifecycle, this`addHandled
      ensures ChannelOk() && StagesOk()
      ensures lifecycle == old(lifecycle[1..]) && addHandled == old(addHandled) + {p}
    {
      HeadTaken(lifecycle);
      addHandled := addHandled + {p};
      lifecycle := lifecycle[1..];
      forall q
        ensures StageOk(q)
      {
        assert old(StageOk(q));
      }
    }

    method TakeDone(p: Peer)
      requires ChannelOk() && StagesOk() && lifecycle != [] && lifecycle[0] == PeerDone(p)
      modifies this`lifecycle, this`doneHandled
      ensures ChannelOk() && StagesOk()
      ensures lifecycle == old(lifecycle[1..]) && doneHandled == old(doneHandled) + {p}
    {
      HeadTaken(lifecycle);
      doneHandled := doneHandled + {p};
      lifecycle := lifecycle[1..];
      forall q
        ensures StageOk(q)
      {
        assert old(StageOk(q));
      }
    }

    /** The stages do not depend on the tables. */
    twostate lemma StagesStay()
      requires old(StagesOk()) && old(ChannelOk())
      requires stage == old(stage) && lifecycle == old(lifecycle) && peerAdded == old(peerAdded)
      requires addHandled == old(addHandled) && doneHandled == old(doneHandled) && disconnected == old(disconnected)
      requires verAcked == old(verAcked) && versionKnown == old(versionKnown)
      ensures StagesOk() && ChannelOk()
    {
      forall p
        ensures StageOk(p)
      {
        assert old(StageOk(p));
      }
    }

    method TakeAndAdd(p: Peer, unwanted: bool) returns (ghost added: bool)
      requires TablesOk() && GroupsOk() && ChannelOk() && StagesOk() && p.id !in Peers().For(InsertTable(p))
      requires lifecycle != [] && lifecycle[0] == PeerAdd(p)
      modifies this`lifecycle, this`inboundPeers, this`outboundPeers, this`persistentPeers, this`outboundGroups,
               this`disconnected, this`syncCalls, this`addHandled, this`turnedAway
      ensures TablesOk() && GroupsOk() && ChannelOk() && StagesOk()
      ensures lifecycle == old(lifecycle[1..]) && addHandled == old(addHandled) + {p}
      ensures added <==> p !in old(disconnected) && !unwanted && old(Count()) < maxPeers
      ensures Peers() == if added then old(Peers()).With(p) else old(Peers())
      ensures syncCalls == old(syncCalls) + if added then [NewPeer(p)] else []
      ensures disconnected == old(disconnected) + if added then {} else {p}
      ensures turnedAway == old(turnedAway) + if added then {} else {p}
    {
      TakeAdd(p);
      added := HandleAddPeerMsg(p, unwanted);
      turnedAway := turnedAway + if added then {} else {p};
    }

    /** The handler takes the peerAdd of `p` out of the channel. */
    method HandleAdd(p: Peer, unwanted: bool) returns (ghost added: bool)
      requires Valid() && lifecycle != [] && lifecycle[0] == PeerAdd(p)
      modifies this`lifecycle, this`inboundPeers, this`outboundPeers, this`persistentPeers, this`outboundGroups,
               this`disconnected, this`syncCalls, this`addHandled, this`turnedAway
      ensures Valid() && lifecycle == old(lifecycle[1..]) && addHandled == old(addHandled) + {p}
      ensures added <==> p !in old(disconnected) && !unwanted && old(Count()) < maxPeers
      ensures Peers() == if added then old(Peers()).With(p) else old(Peers())
      ensures forall q :: Peers().Has(q) <==> old(Peers()).Has(q) || (added && q == p)
      ensures syncCalls == old(syncCalls) + if added then [NewPeer(p)] else []
      ensures disconnected == old(disconnected) + if added then {} else {p}
      ensures turnedAway == old(turnedAway) + if added then {} else {p}
    {
      HeadIsNew(p);
      WithHas(Peers(), p);
      ghost var room := p !in disconnected && !unwanted && Count() < maxPeers;
      CallsAfterAdd(syncCalls, addHandled, doneHandled, turnedAway, p, room);
      TrackedAfterAdd(Peers(), if room then Peers().With(p) else Peers(), syncCalls, doneHandled, p, room);
      added := TakeAndAdd(p, unwanted);
    }

    method HandleAddEvent(p: Peer, unwanted: bool) returns (ghost added: bool)
      requires Valid() && lifecycle != [] && lifecycle[0] == PeerAdd(p)
      modifies this`lifecycle, this`inboundPeers, this`outboundPeers, this`persistentPeers, this`outboundGroups,
               this`disconnected, this`syncCalls, this`addHandled, this`turnedAway
      ensures Valid() && AddTaken(old(Now()), p, unwanted, maxPeers, Now())
      ensures added <==> p !in old(disconnected) && !unwanted && old(Count()) < maxPeers
      ensures added ==> Peers().Has(p)
    {
      added := HandleAdd(p, unwanted);
    }

    method HandleDoneEvent(p: Peer)
      requires Valid() && lifecycle != [] && lifecycle[0] == PeerDone(p)
      modifies this`lifecycle, this`inboundPeers, this`outboundPeers, this`persistentPeers, this`outboundGroups,
               this`syncCalls, this`doneHandled
      ensures Valid() && DoneTaken(old(Now()), p, Now()) && !Peers().Has(p)
    {
      HandleDone(p);
    }

    method TakeAndRemove(p: Peer)
      requires TablesOk() && GroupsOk() && ChannelOk() && StagesOk()
      requires p.id in Peers().For(RemoveTable(p)) ==> p in versionKnown
      requires lifecycle != [] && lifecycle[0] == PeerDone(p)
      modifies this`lifecycle, this`inboundPeers, this`outboundPeers, this`persistentPeers, this`outboundGroups,
               this`syncCalls, this`doneHandled
      ensures TablesOk() && GroupsOk() && ChannelOk() && StagesOk()
      ensures lifecycle == old(lifecycle[1..]) && doneHandled == old(doneHandled) + {p}
      ensures Peers() == old(Peers()).Less(p)
      ensures syncCalls == old(syncCalls) + if p in peerAdded then [DonePeer(p)] else []
    {
      TakeDone(p);
      label taken:
      HandleDonePeerMsg(p);
      StagesStay@taken();
    }

    /** The handler takes the peerDone of `p` out of the channel. */
    method HandleDone(p: Peer)
      requires Valid() && lifecycle != [] && lifecycle[0] == PeerDone(p)
      modifies this`lifecycle, this`inboundPeers, this`outboundPeers, this`persistentPeers, this`outboundGroups,
               this`syncCalls, this`doneHandled
      ensures Valid() && lifecycle == old(lifecycle[1..]) && doneHandled == old(doneHandled) + {p}
      ensures Peers() == old(Peers()).Less(p) && !Peers().Has(p)
      ensures syncCalls == old(syncCalls) + if p in addHandled then [DonePeer(p)] else []
    {
      HeadIsDone(p);
      TakeAndRemove(p);
      DoneIsSound(p);
    }

    twostate lemma DoneIsSound(p: Peer)
      requires old(CallsOk()) && old(TrackedOk()) && old(TablesOk()) && p !in old(doneHandled)
      requires InsertTable(p) == RemoveTable(p)
      requires p.id in old(Peers()).For(RemoveTable(p)) ==> old(Peers()).Has(p)
      requires addHandled == old(addHandled) && turnedAway == old(turnedAway) && doneHandled == old(doneHandled) + {p}
      requires Peers() == old(Peers()).Less(p)
      requires syncCalls == old(syncCalls) + if p in addHandled then [DonePeer(p)] else []
      ensures CallsOk() && TrackedOk() && !Peers().Has(p)
    {
      CallsAfterDone(old(syncCalls), old(addHandled), old(doneHandled), old(turnedAway), p);
      TrackedLess(old(Peers()), old(syncCalls), if p in addHandled then [DonePeer(p)] else [], old(doneHandled), p);
    }

    // ----- disconnecting by hand

    /** disconnectPeer on the persistent peers: drops one peer that matches, whichever
        the map iteration meets first. */
    method RemoveNode(cmp: Peer -> bool) returns (found: bool, ghost gone: int)
      requires TablesOk() && GroupsOk() && StagesOk()
      modifies this`persistentPeers, this`outboundGroups, this`disconnected
      ensures TablesOk() && GroupsOk() && StagesOk() && forall q | Peers().Has(q) :: old(Peers()).Has(q)
      ensures found <==> exists id :: Matches(old(persistentPeers), cmp, id)
      ensures found ==>
        && Matches(old(persistentPeers), cmp, gone)
        && persistentPeers == Without(old(persistentPeers), gone)
        && disconnected == old(disconnected) + {old(persistentPeers)[gone]}
      ensures !found ==> persistentPeers == old(persistentPeers) && disconnected == old(disconnected)
    {
      if id :| id in persistentPeers && cmp(persistentPeers[id]) {
        assert Matches(persistentPeers, cmp, id);
        var sp := persistentPeers[id];
        DeletePersistent(id);
        Drop(sp);
        return true, id;
      }
      return false, 0;
    }

    /** disconnectPeer on the inbound peers. */
    method DisconnectInbound(cmp: Peer -> bool) returns (found: bool, ghost gone: int)
      requires TablesOk() && StagesOk()
      modifies this`inboundPeers, this`disconnected
      ensures TablesOk() && StagesOk() && forall q | Peers().Has(q) :: old(Peers()).Has(q)
      ensures found <==> exists id :: Matches(old(inboundPeers), cmp, id)
      ensures found ==>
        && Matches(old(inboundPeers), cmp, gone)
        && inboundPeers == Without(old(inboundPeers), gone)
        && disconnected == old(disconnected) + {old(inboundPeers)[gone]}
      ensures !found ==> inboundPeers == old(inboundPeers) && disconnected == old(disconnected)
    {
      if id :| id in inboundPeers && cmp(inboundPeers[id]) {
        assert Matches(inboundPeers, cmp, id);
        var sp := inboundPeers[id];
        DeleteInbound(id);
        Drop(sp);
        return true, id;
      }
      return false, 0;
    }

    /** disconnectPeer on the outbound peers. */
    method DisconnectOutbound(cmp: Peer -> bool) returns (found: bool)
      requires TablesOk() && GroupsOk() && StagesOk()
      modifies this`outboundPeers, this`outboundGroups, this`disconnected
      ensures TablesOk() && GroupsOk() && StagesOk() && forall q | Peers().Has(q) :: old(Peers()).Has(q)
      ensures found <==> exists id :: Matches(old(outboundPeers), cmp, id)
      ensures found ==> |outboundPeers| < |old(outboundPeers)|
      ensures !found ==> outboundPeers == old(outboundPeers) && disconnected == old(disconnected)
      ensures Unmatched(outboundPeers, cmp) == Unmatched(old(outboundPeers), cmp)
      ensures disconnected + Matched(outboundPeers, cmp) == old(disconnected) + Matched(old(outboundPeers), cmp)
    {
      if id :| id in outboundPeers && cmp(outboundPeers[id]) {
        assert Matches(outboundPeers, cmp, id);
        OneMatchLess(outboundPeers, cmp, id);
        var sp := outboundPeers[id];
        DeleteOutbound(id);
        Drop(sp);
        return true;
      }
      return false;
    }

    /** disconnectNodeMsg: one inbound peer, or else every outbound peer that matches. */
    method DisconnectNode(cmp: Peer -> bool) returns (found: bool)
      requires TablesOk() && GroupsOk() && StagesOk()
      modifies this`inboundPeers, this`outboundPeers, this`outboundGroups, this`disconnected
      ensures TablesOk() && GroupsOk() && StagesOk() && forall q | Peers().Has(q) :: old(Peers()).Has(q)
      ensures found <==> exists id :: Matches(old(inboundPeers), cmp, id) || Matches(old(outboundPeers), cmp, id)
      ensures (exists id :: Matches(old(inboundPeers), cmp, id)) ==>
        && outboundPeers == old(outboundPeers)
        && exists id :: Matches(old(inboundPeers), cmp, id) && inboundPeers == Without(old(inboundPeers), id)
             && disconnected == old(disconnected) + {old(inboundPeers)[id]}
      ensures (forall id :: !Matches(old(inboundPeers), cmp, id)) ==>
        && inboundPeers == old(inboundPeers)
        && outboundPeers == Unmatched(old(outboundPeers), cmp)
        && disconnected == old(disconnected) + Matched(old(outboundPeers), cmp)
    {
      ghost var gone;
      found, gone := DisconnectInbound(cmp);
      if found {
        return;
      }
      found := DisconnectOutbound(cmp);
      var more := found;
      while more
        invariant TablesOk() && GroupsOk() && StagesOk() && forall q | Peers().Has(q) :: old(Peers()).Has(q)
        invariant inboundPeers == old(inboundPeers)
        invariant found <==> exists id :: Matches(old(outboundPeers), cmp, id)
        invariant !more ==> forall id :: !Matches(outboundPeers, cmp, id)
        invariant Unmatched(outboundPeers, cmp) == Unmatched(old(outboundPeers), cmp)
        invariant disconnected + Matched(outboundPeers, cmp) == old(disconnected) + Matched(old(outboundPeers), cmp)
        decreases more, |outboundPeers|
      {
        more := DisconnectOutbound(cmp);
      }
      NoMatchLeft(outboundPeers, cmp);
    }

    /** A peer connects, shakes hands and is announced. */
    method Introduce(p: Peer)
      requires PeersOk() && ChannelOk() && StagesOk() && (forall q | q in stage :: q.id != p.id)
      requires !(p.inbound && p.persistent)
      modifies this`stage, this`versionKnown, this`verAcked, this`peerAdded, this`lifecycle
      ensures PeersOk() && ChannelOk() && StagesOk() && p in stage && stage[p] == Waiting
      ensures lifecycle == old(lifecycle) + [PeerAdd(p)]
    {
      Connect(p);
      Version(p);
      VerAck(p);
      SendAdd(p);
      StoreAdded(p);
    }

    // ----- whole runs

    method NetworkStep(a: Action)
      requires PeersOk() && ChannelOk() && StagesOk()
      requires !a.SendAdd? && !a.StoreAdded? && !a.SkipAdd? && !a.SendDone?
      modifies this`stage, this`versionKnown, this`verAcked, this`disconnected
      ensures PeersOk() && ChannelOk() && StagesOk()
      ensures a.Connect? ==>
                stage == if (forall q | q in old(stage) :: q.id != a.peer.id) && !(a.peer.inbound && a.peer.persistent)
                  then old(stage)[a.peer := Handshake] else old(stage)
      ensures !a.Connect? ==> stage == old(stage)
      ensures versionKnown == old(versionKnown) + if a.Version? then {a.peer} else {}
      ensures verAcked == old(verAcked) + if a.VerAck? && a.peer in old(versionKnown) then {a.peer} else {}
      ensures disconnected == old(disconnected) + if a.Drop? then {a.peer} else {}
    {
      match a
      case Connect(p) =>
        if (forall q | q in stage :: q.id != p.id) && !(p.inbound && p.persistent) {
          Connect(p);
        }
      case Version(p) => Version(p);
      case VerAck(p) => if p in versionKnown { VerAck(p); }
      case Drop(p) => Drop(p);
      case _ =>
    }

    /** A step of the network or of a lifecycle goroutine; one that cannot happen now
        changes nothing. */
    method GoroutineStep(a: Action)
      requires PeersOk() && ChannelOk() && StagesOk()
      modifies this`stage, this`versionKnown, this`verAcked, this`disconnected, this`peerAdded, this`lifecycle
      ensures PeersOk() && ChannelOk() && StagesOk()
      // The handshake.
      ensures a.Connect? ==>
                stage == if (forall q | q in old(stage) :: q.id != a.peer.id) && !(a.peer.inbound && a.peer.persistent)
                  then old(stage)[a.peer := Handshake] else old(stage)
      ensures versionKnown == old(versionKnown) + if a.Version? then {a.peer} else {}
      ensures verAcked == old(verAcked) + if a.VerAck? && a.peer in old(versionKnown) then {a.peer} else {}
      ensures disconnected == old(disconnected) + if a.Drop? then {a.peer} else {}
      // An announcement once verack has come, then its flag; none after a disconnect; the
      // end once the peer is disconnected.
      ensures a.SendAdd? && At(old(stage), a.peer) == Some(Handshake) && a.peer in old(verAcked) ==>
                stage == old(stage)[a.peer := Stage.Announced] && lifecycle == old(lifecycle) + [PeerAdd(a.peer)]
      ensures a.StoreAdded? && At(old(stage), a.peer) == Some(Stage.Announced) ==>
                stage == old(stage)[a.peer := Waiting] && peerAdded == old(peerAdded) + {a.peer}
      ensures a.SkipAdd? && At(old(stage), a.peer) == Some(Handshake) && a.peer in old(disconnected) ==>
                stage == old(stage)[a.peer := Waiting]
      ensures a.SendDone? && At(old(stage), a.peer) == Some(Waiting) && a.peer in old(disconnected) ==>
                stage == old(stage)[a.peer := Finished] && lifecycle == old(lifecycle) + [PeerDone(a.peer)]
      // Nothing else.
      ensures lifecycle == old(lifecycle)
              || (a.SendAdd? && At(old(stage), a.peer) == Some(Handshake) && a.peer in old(verAcked))
              || (a.SendDone? && At(old(stage), a.peer) == Some(Waiting) && a.peer in old(disconnected))
      ensures peerAdded == old(peerAdded) || (a.StoreAdded? && At(old(stage), a.peer) == Some(Stage.Announced))
      ensures stage == old(stage) || a.Connect?
              || (a.SendAdd? && At(old(stage), a.peer) == Some(Handshake) && a.peer in old(verAcked))
              || (a.StoreAdded? && At(old(stage), a.peer) == Some(Stage.Announced))
              || (a.SkipAdd? && At(old(stage), a.peer) == Some(Handshake) && a.peer in old(disconnected))
              || (a.SendDone? && At(old(stage), a.peer) == Some(Waiting) && a.peer in old(disconnected))
    {
      if a.SendAdd? {
        if At(stage, a.peer) == Some(Handshake) && a.peer in verAcked { SendAdd(a.peer); }
      } else if a.StoreAdded? {
        if At(stage, a.peer) == Some(Stage.Announced) { StoreAdded(a.peer); }
      } else if a.SkipAdd? {
        if At(stage, a.peer) == Some(Handshake) && a.peer in disconnected { SkipAdd(a.peer); }
      } else if a.SendDone? {
        if At(stage, a.peer) == Some(Waiting) && a.peer in disconnected { SendDone(a.peer); }
      } else {
        NetworkStep(a);
      }
    }

    /** The handler takes one event, if there is one. */
    method HandleEvent(unwanted: bool)
      requires Valid()
      modifies this`inboundPeers, this`outboundPeers, this`persistentPeers, this`outboundGroups, this`disconnected,
               this`lifecycle, this`syncCalls, this`addHandled, this`doneHandled, this`turnedAway
      ensures Valid() && EventTaken(old(Now()), unwanted, maxPeers, Now())
      ensures lifecycle == if old(lifecycle) == [] then [] else old(lifecycle)[1..]
      // An announced peer is added exactly if it is connected, wanted and there is room.
      ensures old(lifecycle) != [] && old(lifecycle)[0].PeerAdd? ==>
                var p := old(lifecycle)[0].peer;
                if p !in old(disconnected) && !unwanted && old(Count()) < maxPeers then
                  && Peers() == old(Peers()).With(p) && Peers().Has(p) && syncCalls == old(syncCalls) + [NewPeer(p)]
                  && disconnected == old(disconnected) && turnedAway == old(turnedAway)
                else
                  && Peers() == old(Peers()) && syncCalls == old(syncCalls)
                  && disconnected == old(disconnected) + {p} && turnedAway == old(turnedAway) + {p}
      // A peer that is done leaves.
      ensures old(lifecycle) != [] && old(lifecycle)[0].PeerDone? ==>
                var p := old(lifecycle)[0].peer;
                && Peers() == old(Peers()).Less(p) && !Peers().Has(p)
                && syncCalls == old(syncCalls) + (if p in old(addHandled) then [DonePeer(p)] else [])
                && disconnected == old(disconnected) && turnedAway == old(turnedAway)
    {
      if lifecycle != [] {
        match lifecycle[0]
        case PeerAdd(p) =>
          var _ := HandleAddEvent(p, unwanted);
        case PeerDone(p) =>
          HandleDoneEvent(p);
      }
    }

    twostate lemma StillValid()
      requires old(Valid()) && TablesOk() && GroupsOk() && StagesOk()
      requires forall q | Peers().Has(q) :: old(Peers()).Has(q)
      requires stage == old(stage) && lifecycle == old(lifecycle) && syncCalls == old(syncCalls)
      requires addHandled == old(addHandled) && doneHandled == old(doneHandled) && turnedAway == old(turnedAway)
      ensures Valid()
    {
      TrackedInFewer(old(Peers()), Peers(), syncCalls, doneHandled);
    }

    twostate lemma StillRunning()
      requires old(Valid()) && PeersOk() && ChannelOk() && StagesOk()
      requires Peers() == old(Peers()) && outboundGroups == old(outboundGroups) && syncCalls == old(syncCalls)
      requires addHandled == old(addHandled) && doneHandled == old(doneHandled) && turnedAway == old(turnedAway)
      ensures Valid()
    {
    }

    method HandleRemoveNode(cmp: Peer -> bool)
      requires Valid()
      modifies this`persistentPeers, this`outboundGroups, this`disconnected
      ensures Valid() && NodeRemoved(old(Now()), cmp, Now())
    {
      assert TablesOk() && GroupsOk() && StagesOk();
      var found, gone := RemoveNode(cmp);
      assert TablesOk() && GroupsOk() && StagesOk();
      StillValid();
      if found {
        assert Matches(old(persistentPeers), cmp, gone) && PersistentGone(old(Now()), gone, Now());
      }
    }

    method HandleDisconnectNode(cmp: Peer -> bool)
      requires Valid()
      modifies this`inboundPeers, this`outboundPeers, this`outboundGroups, this`disconnected
      ensures Valid() && NodeDisconnected(old(Now()), cmp, Now())
    {
      var _ := DisconnectNode(cmp);
      StillValid();
      if id :| Matches(old(inboundPeers), cmp, id) && inboundPeers == Without(old(inboundPeers), id)
               && disconnected == old(disconnected) + {old(inboundPeers)[id]} {
        assert outboundPeers == old(outboundPeers) && InboundGone(old(Now()), id, Now());
      }
    }

    method PeerStep(a: Action)
      requires Valid()
      modifies this`stage, this`versionKnown, this`verAcked, this`disconnected, this`peerAdded, this`lifecycle
      ensures Valid() && Moved(old(Now()), a, Now())
    {
      MoveOn(a);
      StillRunning();
    }

    method MoveOn(a: Action)
      requires PeersOk() && ChannelOk() && StagesOk()
      modifies this`stage, this`versionKnown, this`verAcked, this`disconnected, this`peerAdded, this`lifecycle
      ensures PeersOk() && ChannelOk() && StagesOk() && Moved(old(Now()), a, Now())
    {
      GoroutineStep(a);
      MovedIs(old(Now()), a, Now());
    }

    method Step(a: Action)
      requires Valid()
      modifies this
      ensures Valid() && Stepped(old(Now()), a, maxPeers, Now())
    {
      match a
      case HandleEvent(unwanted) => HandleEvent(unwanted);
      case RemoveNode(cmp) => HandleRemoveNode(cmp);
      case DisconnectNode(cmp) => HandleDisconnectNode(cmp);
      case _ => PeerStep(a);
    }

    /** Every run keeps the invariant and goes step by step: each state follows from the one
        before by its step, and what was done or told stays so. */
    method Run(schedule: seq<Action>) returns (ghost states: seq<State>)
      requires Valid()
      modifies this
      ensures Valid() && Trace(states, schedule, maxPeers)
      ensures states[0] == old(Now()) && states[|schedule|] == Now()
      ensures old(doneHandled) <= doneHandled && old(syncCalls) <= syncCalls
    {
      states := [Now()];
      for i := 0 to |schedule|
        invariant Valid() && Trace(states, schedule[..i], maxPeers)
        invariant states[0] == old(Now()) && states[i] == Now()
      {
        Step(schedule[i]);
        TraceOn(states, schedule, maxPeers, i, Now());
        states := states + [Now()];
      }
      assert schedule[..|schedule|] == schedule;
      NothingIsTakenBack(states, schedule, maxPeers);
    }

    /** What every run of any schedule promises: a peer that is done is in no table, the
        sync manager is told of its coming and going once each and in order, and the group
        counters and the limit are right. */
    lemma RunsAreSafe()
      requires Valid()
      ensures forall p | p in doneHandled ::
        p !in Members(inboundPeers) && p !in Members(outboundPeers) && p !in Members(persistentPeers)
      ensures Distinct(syncCalls) && NewFirst(syncCalls)
      ensures forall p :: NewPeer(p) in syncCalls <==> p in addHandled && p !in turnedAway
      ensures forall p :: DonePeer(p) in syncCalls <==> p in doneHandled && p in addHandled
      ensures forall p :: DonePeer(p) in syncCalls && NewPeer(p) !in syncCalls <==> p in doneHandled && p in turnedAway
      ensures forall g ::
        GroupCount(outboundGroups, g)
        == |set p | p in Members(outboundPeers) + Members(persistentPeers) && p.group == g|
      ensures Count() <= maxPeers
    {
      ToldOnceInOrder(syncCalls);
      forall p | p in doneHandled
        ensures p !in Members(inboundPeers) && p !in Members(outboundPeers) && p !in Members(persistentPeers)
      {
        assert TrackMatches(Peers(), syncCalls, doneHandled, p);
        HeldMeansHas(inboundPeers, InboundTable, p);
        HeldMeansHas(outboundPeers, OutboundTable, p);
        HeldMeansHas(persistentPeers, PersistentTable, p);
      }
      forall p
        ensures NewPeer(p) in syncCalls <==> p in addHandled && p !in turnedAway
        ensures DonePeer(p) in syncCalls <==> p in doneHandled && p in addHandled
        ensures p in turnedAway ==> p in addHandled
      {
        assert CallsMatch(syncCalls, addHandled, doneHandled, turnedAway, p);
      }
      forall g
        ensures GroupCount(outboundGroups, g)
          == |set p | p in Members(outboundPeers) + Members(persistentPeers) && p.group == g|
      {
        assert InGroup(Members(outboundPeers) + Members(persistentPeers), g)
          == set p | p in Members(outboundPeers) + Members(persistentPeers) && p.group == g;
      }
    }

    /** Once every goroutine has finished and the channel is empty, nothing is left: all
        tables are empty, all counters zero, and every peer the sync manager heard of has
        been taken back. */
    lemma NothingIsLeftBehind()
      requires Valid() && lifecycle == [] && forall p | p in stage :: stage[p] == Finished
      ensures Count() == 0 && forall g :: GroupCount(outboundGroups, g) == 0
      ensures forall p | NewPeer(p) in syncCalls :: DonePeer(p) in syncCalls
    {
      forall p
        ensures !Peers().Has(p) && (NewPeer(p) in syncCalls ==> DonePeer(p) in syncCalls)
      {
        assert StageOk(p) && TrackMatches(Peers(), syncCalls, doneHandled, p);
        assert CallsMatch(syncCalls, addHandled, doneHandled, turnedAway, p);
      }
      NobodyHeld(inboundPeers, InboundTable);
      NobodyHeld(outboundPeers, OutboundTable);
      NobodyHeld(persistentPeers, PersistentTable);
      forall g
        ensures GroupCount(outboundGroups, g) == 0
      {
        assert InGroup(Members(outboundPeers) + Members(persistentPeers), g) == {};
      }
    }

    lemma NobodyHeld(table: map<int, Peer>, kind: Table)
      requires TableOk(table, kind) && table == Peers().For(kind)
      requires forall p :: !Peers().Has(p)
      ensures table == map[]
    {
      forall id | id in table
        ensures false
      {
        assert Peers().Has(table[id]);
      }
    }

    lemma HeldMeansHas(table: map<int, Peer>, kind: Table, p: Peer)
      requires TableOk(table, kind) && table == Peers().For(kind)
      ensures p in Members(table) ==> Peers().Has(p)
    {
      if p in Members(table) {
        var id :| id in table && table[id] == p;
      }
    }

    // ----- a peer that comes and goes unannounced

    method ComeInVain(p: Peer)
      requires Valid() && maxPeers == 0 && stage == map[] && lifecycle == [] && !(p.inbound && p.persistent)
      modifies this
      ensures Valid() && lifecycle == [] && syncCalls == old(syncCalls)
      ensures p in stage && stage[p] == Waiting && p in disconnected && p in addHandled
    {
      Introduce(p);
      StillRunning();
      var _ := HandleAdd(p, false);
    }

    method GoAway(p: Peer)
      requires Valid() && lifecycle == [] && p in stage && stage[p] == Waiting && p in disconnected && p in addHandled
      modifies this
      ensures syncCalls == old(syncCalls) + [DonePeer(p)]
    {
      SendDone(p);
      StillRunning();
      HandleDone(p);
    }
  }

  /** A peer that the handler turned away, here because the table is full, is reported
      gone to a sync manager that never heard of it. */
  method TurnedAwayPeerIsReportedGone(p: Peer) returns (calls: seq<SyncCall>)
    requires !(p.inbound && p.persistent)
    ensures calls == [DonePeer(p)]
  {
    var s := new Server(0);
    s.ComeInVain(p);
    s.GoAway(p);
    return s.syncCalls;
  }
}
