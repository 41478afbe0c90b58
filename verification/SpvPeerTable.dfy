// The peer table of the SPV client (spv/neutrino.go, spv/notifications.go).
//
// Peers are announced on one channel and reported done on another, by different
// goroutines, so a peer's done message may be handled before its add message.  What
// keeps a finished peer out of the tables is that it is disconnected before it is
// reported done, and that adding a peer checks that it is still connected.

module SpvPeers {
  import opened Common
  import opened PeerTable

  // ---------------------------------------------------------------------------
  // Subscribers, compacted in place.

  /** The subscribers that had not cancelled when they were looked at, in order. */
  function Kept(subs: seq<int>, cancelled: set<int>): seq<int> {
    if subs == [] then []
    else (if subs[0] in cancelled then [] else [subs[0]]) + Kept(subs[1..], cancelled)
  }

  lemma {:induction false} KeptAppend(a: seq<int>, b: seq<int>, cancelled: set<int>)
    ensures Kept(a + b, cancelled) == Kept(a, cancelled) + Kept(b, cancelled)
  {
    if a == [] {
      assert a + b == b;
    } else {
      var rest := a[1..];
      KeptAppend(rest, b, cancelled);
      Rejoined(if a[0] in cancelled then [] else [a[0]], Kept(rest, cancelled), Kept(b, cancelled));
      assert (a + b)[1..] == rest + b && (a + b)[0] == a[0];
    }
  }

  /** Nobody is lost, doubled or kept against their will. */
  lemma {:induction false} KeptCounts(subs: seq<int>, cancelled: set<int>, x: int)
    ensures Count(Kept(subs, cancelled), x) == if x in cancelled then 0 else Count(subs, x)
  {
    if subs != [] {
      KeptCounts(subs[1..], cancelled, x);
      assert subs == [subs[0]] + subs[1..];
      CountAppend([subs[0]], subs[1..], x);
      CountAppend(if subs[0] in cancelled then [] else [subs[0]], Kept(subs[1..], cancelled), x);
    }
  }

  class SubscriberList {
    var slots: array<Option<int>>
    var length: nat

    ghost predicate Valid()
      reads this, slots
    {
      length <= slots.Length && forall k | 0 <= k < length :: slots[k].Some?
    }

    ghost function Contents(): (subs: seq<int>)
      requires Valid()
      reads this, slots
      ensures |subs| == length
    {
      seq(length, k requires 0 <= k < length && Valid() reads this, slots => slots[k].value)
    }

    constructor ()
      ensures Valid() && fresh(slots) && Contents() == []
    {
      slots := new Option<int>[4](_ => None);
      length := 0;
    }

    /** Appends a subscriber, moving to a larger array when the old one is full. */
    method Subscribe(id: int)
      requires Valid()
      modifies this, slots
      ensures Valid() && Contents() == old(Contents()) + [id]
      ensures slots == old(slots) || fresh(slots)
    {
      if length == slots.Length {
        var more := new Option<int>[2 * length + 1](_ => None);
        forall k | 0 <= k < length {
          more[k] := slots[k];
        }
        slots := more;
      }
      slots[length] := Some(id);
      length := length + 1;
    }

    /** Notifies every subscriber that has not cancelled and closes the gaps the others
        leave. */
    method NotifyAll(cancelled: set<int>) returns (notified: seq<int>)
      requires Valid()
      modifies this`length, slots
      ensures Valid() && Contents() == Kept(old(Contents()), cancelled) && notified == Contents()
    {
      var n := 0;
      notified := [];
      ghost var subs := Contents();
      for i := 0 to length
        modifies slots
        invariant n <= i && notified == Kept(subs[..i], cancelled) && |notified| == n
        invariant forall k | 0 <= k < n :: slots[k] == Some(notified[k])
        invariant forall k | i <= k < length :: slots[k] == Some(subs[k])
      {
        assert subs[..i + 1] == subs[..i] + [subs[i]];
        KeptAppend(subs[..i], [subs[i]], cancelled);
        assert Kept([subs[i]], cancelled) == if subs[i] in cancelled then [] else [subs[i]];
        var sub := slots[i];
        if sub.value in cancelled {
          slots[i] := None;
        } else {
          slots[n] := sub;
          n := n + 1;
          notified := notified + [sub.value];
        }
      }
      assert subs[..length] == subs;
      length := n;
    }
  }

  // ---------------------------------------------------------------------------
  // Peers and channels.

  /** How far a peer has got; told of each peer by itself. */
  ghost predicate FlowAt(p: Peer, known: set<Peer>, adds: seq<Peer>, addSent: set<Peer>, addHandled: set<Peer>,
                         dones: seq<Peer>, doneSent: set<Peer>, doneHandled: set<Peer>, disconnected: set<Peer>) {
    && Count(adds, p) == (if p in addSent && p !in addHandled then 1 else 0)
    && Count(dones, p) == (if p in doneSent && p !in doneHandled then 1 else 0)
    && (p in addHandled ==> p in addSent) && (p in addSent ==> p in known)
    && (p in doneHandled ==> p in doneSent) && (p in doneSent ==> p in known && p in disconnected)
  }

  lemma CountTail(s: seq<Peer>, p: Peer)
    requires s != []
    ensures Count(s, p) == Count(s[1..], p) + if s[0] == p then 1 else 0
  {
    assert s == [s[0]] + s[1..];
    CountAppend([s[0]], s[1..], p);
  }

  /** Only peers whose add message was handled, and whose done message was not, are in a
      table. */
  ghost predicate HeldAt(p: Peer, peers: Tables, addHandled: set<Peer>, doneHandled: set<Peer>) {
    peers.Has(p) ==> !p.inbound && p in addHandled && p !in doneHandled
  }

  datatype Action =
    | Connect(peer: Peer)
    | Drop(peer: Peer)
    | AddPeer(peer: Peer)
    | PeerDone(peer: Peer)
    | TakeNewPeer(unwanted: bool, cancelled: set<int>)
    | TakeDonePeer
    | RemoveNode(cmp: Peer -> bool)
    | DisconnectNode(cmp: Peer -> bool)
    | SubscribePeers(id: int)

  /** The service, which messages it has handled, and its subscribers. */
  datatype ServiceState =
    ServiceState(outbound: map<int, Peer>, persistent: map<int, Peer>, known: set<Peer>, disconnected: set<Peer>,
                 newPeers: seq<Peer>, addSent: set<Peer>, donePeers: seq<Peer>, doneSent: set<Peer>,
                 addHandled: set<Peer>, doneHandled: set<Peer>, subs: seq<int>)

  /** A step of the network or of a peer's goroutine; one that cannot happen changes nothing. */
  ghost predicate PeerMoved(s: ServiceState, a: Action, t: ServiceState) {
    match a
    case Connect(p) =>
      t == if (forall q | q in s.known :: q.id != p.id) && !p.inbound then s.(known := s.known + {p}) else s
    case Drop(p) => t == s.(disconnected := s.disconnected + {p})
    case AddPeer(p) =>
      t == if p in s.known && p !in s.addSent
        then s.(newPeers := s.newPeers + [p], addSent := s.addSent + {p}) else s
    case PeerDone(p) =>
      t == if p in s.known && p in s.disconnected && p !in s.doneSent
        then s.(donePeers := s.donePeers + [p], doneSent := s.doneSent + {p}) else s
    case _ => t == s
  }

  /** The handler takes an add message: the peer is added exactly if it is connected, wanted
      and there is room, and disconnected otherwise; the subscribers that have not cancelled
      are told of it. */
  ghost predicate NewPeerTaken(s: ServiceState, unwanted: bool, cancelled: set<int>, maxPeers: nat, t: ServiceState,
                               notified: seq<int>) {
    if s.newPeers == [] then t == s && notified == []
    else
      var p := s.newPeers[0];
      var added := p !in s.disconnected && !unwanted && |s.outbound| + |s.persistent| < maxPeers;
      var rest := s.(newPeers := s.newPeers[1..], addHandled := s.addHandled + {p});
      if !added then t == rest.(disconnected := s.disconnected + {p}) && notified == []
      else
        && notified == Kept(s.subs, cancelled)
        && t == if p.persistent then rest.(persistent := s.persistent[p.id := p], subs := notified)
                else rest.(outbound := s.outbound[p.id := p], subs := notified)
  }

  /** The handler takes a done message. */
  ghost predicate DonePeerTaken(s: ServiceState, t: ServiceState) {
    if s.donePeers == [] then t == s
    else
      var p := s.donePeers[0];
      var rest := s.(donePeers := s.donePeers[1..], doneHandled := s.doneHandled + {p});
      t == if p.persistent then rest.(persistent := Without(s.persistent, p.id))
           else rest.(outbound := Without(s.outbound, p.id))
  }

  /** One matching persistent peer goes, if there is one. */
  ghost predicate PersistentRemoved(s: ServiceState, cmp: Peer -> bool, t: ServiceState) {
    if exists id :: Matches(s.persistent, cmp, id) then
      exists id :: Matches(s.persistent, cmp, id) && PersistentLeft(s, id, t)
    else t == s
  }

  ghost predicate PersistentLeft(s: ServiceState, id: int, t: ServiceState)
    requires id in s.persistent
  {
    t == s.(persistent := Without(s.persistent, id), disconnected := s.disconnected + {s.persistent[id]})
  }

  ghost predicate ServiceStepped(s: ServiceState, a: Action, maxPeers: nat, t: ServiceState, notified: seq<int>) {
    match a
    case TakeNewPeer(unwanted, cancelled) => NewPeerTaken(s, unwanted, cancelled, maxPeers, t, notified)
    case TakeDonePeer => DonePeerTaken(s, t) && notified == []
    case RemoveNode(cmp) => PersistentRemoved(s, cmp, t) && notified == []
    case DisconnectNode(cmp) =>
      && t == s.(outbound := Unmatched(s.outbound, cmp), disconnected := s.disconnected + Matched(s.outbound, cmp))
      && notified == []
    case SubscribePeers(id) => t == s.(subs := s.subs + [id]) && notified == []
    case _ => PeerMoved(s, a, t) && notified == []
  }

  /** The states before every step of a schedule and after the last, and whom each step has
      told of a new peer. */
  ghost predicate ServiceTrace(states: seq<ServiceState>, schedule: seq<Action>, told: seq<seq<int>>,
                               maxPeers: nat) {
    && |states| == |schedule| + 1 && |told| == |schedule|
    && forall i | 0 <= i < |schedule| :: ServiceSteppedAt(states, schedule, told, maxPeers, i)
  }

  ghost predicate ServiceSteppedAt(states: seq<ServiceState>, schedule: seq<Action>, told: seq<seq<int>>,
                                   maxPeers: nat, i: nat)
    requires i < |schedule| && i + 1 < |states| && i < |told|
  {
    ServiceStepped(states[i], schedule[i], maxPeers, states[i + 1], told[i])
  }

  lemma ServiceTraceOn(states: seq<ServiceState>, schedule: seq<Action>, told: seq<seq<int>>, maxPeers: nat, i: nat,
                       next: ServiceState, notified: seq<int>)
    requires i < |schedule| && ServiceTrace(states, schedule[..i], told, maxPeers)
    requires ServiceStepped(states[i], schedule[i], maxPeers, next, notified)
    ensures ServiceTrace(states + [next], schedule[..i + 1], told + [notified], maxPeers)
  {
    var more, longer, all := states + [next], schedule[..i + 1], told + [notified];
    forall j | 0 <= j < |longer|
      ensures ServiceSteppedAt(more, longer, all, maxPeers, j)
    {
      if j < i {
        assert ServiceSteppedAt(states, schedule[..i], told, maxPeers, j);
      }
    }
  }

  /** A peer whose done message comes before its add message: it is never let in. */
  function LateVisit(p: Peer): seq<Action> {
    [Action.Connect(p), AddPeer(p), Action.Drop(p), Action.PeerDone(p), TakeDonePeer, TakeNewPeer(false, {})]
  }

  /** A peer that comes and goes with its messages in order. */
  function EarlyVisit(p: Peer): seq<Action> {
    [Action.Connect(p), AddPeer(p), TakeNewPeer(false, {}), Action.Drop(p), Action.PeerDone(p), TakeDonePeer]
  }

  const NO_PEERS := ServiceState(map[], map[], {}, {}, [], {}, [], {}, {}, {}, [])

  lemma EarlyVisitorIsIn(states: seq<ServiceState>, told: seq<seq<int>>, p: Peer, maxPeers: nat, sub: int)
    requires ServiceTrace(states, EarlyVisit(p), told, maxPeers) && states[0] == NO_PEERS.(subs := [sub])
    requires !p.inbound && 0 < maxPeers
    ensures told[2] == [sub]
    ensures states[3] == ServiceState(if p.persistent then map[] else map[p.id := p],
                                      if p.persistent then map[p.id := p] else map[],
                                      {p}, {}, [], {p}, [], {}, {p}, {}, [sub])
  {
    var visit := EarlyVisit(p);
    assert ServiceSteppedAt(states, visit, told, maxPeers, 0);
    assert ServiceSteppedAt(states, visit, told, maxPeers, 1);
    assert states[2] == ServiceState(map[], map[], {p}, {}, [p], {p}, [], {}, {}, {}, [sub]);
    assert Kept([sub], {}) == [sub];
    assert ServiceSteppedAt(states, visit, told, maxPeers, 2);
  }

  /** On an empty service with room it is in its table once its add message is handled, the
      subscriber is told of it, and it is gone once its done message is. */
  lemma EarlyVisitorComesAndGoes(states: seq<ServiceState>, told: seq<seq<int>>, p: Peer, maxPeers: nat, sub: int)
    requires ServiceTrace(states, EarlyVisit(p), told, maxPeers) && states[0] == NO_PEERS.(subs := [sub])
    requires !p.inbound && 0 < maxPeers
    ensures told[2] == [sub] && states[3].persistent == (if p.persistent then map[p.id := p] else map[])
    ensures states[3].outbound == if p.persistent then map[] else map[p.id := p]
    ensures states[6].outbound == states[6].persistent == map[]
  {
    EarlyVisitorIsIn(states, told, p, maxPeers, sub);
    var visit := EarlyVisit(p);
    assert ServiceSteppedAt(states, visit, told, maxPeers, 3);
    assert ServiceSteppedAt(states, visit, told, maxPeers, 4);
    assert states[5].donePeers == [p];
    assert ServiceSteppedAt(states, visit, told, maxPeers, 5);
  }

  lemma LateVisitorIsDone(states: seq<ServiceState>, told: seq<seq<int>>, p: Peer, maxPeers: nat)
    requires ServiceTrace(states, LateVisit(p), told, maxPeers) && states[0] == NO_PEERS && !p.inbound
    ensures states[4] == ServiceState(map[], map[], {p}, {p}, [p], {p}, [p], {p}, {}, {}, [])
  {
    var visit := LateVisit(p);
    assert ServiceSteppedAt(states, visit, told, maxPeers, 0);
    assert ServiceSteppedAt(states, visit, told, maxPeers, 1);
    assert ServiceSteppedAt(states, visit, told, maxPeers, 2);
    assert ServiceSteppedAt(states, visit, told, maxPeers, 3);
  }

  /** One whose done message is handled first is never let in. */
  lemma LateVisitorStaysOut(states: seq<ServiceState>, told: seq<seq<int>>, p: Peer, maxPeers: nat)
    requires ServiceTrace(states, LateVisit(p), told, maxPeers) && states[0] == NO_PEERS && !p.inbound
    ensures states[6].outbound == states[6].persistent == map[] && states[6].addHandled == {p} && told[5] == []
  {
    LateVisitorIsDone(states, told, p, maxPeers);
    assert ServiceSteppedAt(states, LateVisit(p), told, maxPeers, 4);
    assert ServiceSteppedAt(states, LateVisit(p), told, maxPeers, 5);
  }

  class ChainService {
    const maxPeers: nat
    const subscribers: SubscriberList

    // The handler's tables.
    var outboundPeers: map<int, Peer>
    var persistentPeers: map<int, Peer>
    var outboundGroups: map<string, int>

    // Peers and the two channels.
    var known: set<Peer>
    var disconnected: set<Peer>
    var newPeers: seq<Peer>
    var donePeers: seq<Peer>
    var addSent: set<Peer>
    var doneSent: set<Peer>

    // Which messages have been handled.
    ghost var addHandled: set<Peer>
    ghost var doneHandled: set<Peer>

    function Count(): nat
      reads this`outboundPeers, this`persistentPeers
    {
      |outboundPeers| + |persistentPeers|
    }

    function Peers(): Tables
      reads this`outboundPeers, this`persistentPeers
    {
      Tables(map[], outboundPeers, persistentPeers)
    }

    ghost function Now(): ServiceState
      requires subscribers.Valid()
      reads this, subscribers, subscribers.slots
    {
      ServiceState(outboundPeers, persistentPeers, known, disconnected, newPeers, addSent, donePeers, doneSent,
            addHandled, doneHandled, subscribers.Contents())
    }

    /** Peers are told apart by their ids, and all are outbound. */
    ghost predicate PeersOk()
      reads this`known
    {
      Identified(known) && forall p | p in known :: !p.inbound
    }

    ghost predicate TablesOk()
      reads this`outboundPeers, this`persistentPeers
    {
      && TableOk(outboundPeers, OutboundTable) && TableOk(persistentPeers, PersistentTable)
      && Count() <= maxPeers
    }

    ghost predicate GroupsOk()
      reads this`outboundPeers, this`persistentPeers, this`outboundGroups
    {
      CountsMatch(outboundGroups, Members(outboundPeers) + Members(persistentPeers))
    }

    ghost predicate Flow(p: Peer)
      reads this`known, this`newPeers, this`addSent, this`addHandled, this`donePeers, this`doneSent,
            this`doneHandled, this`disconnected
    {
      FlowAt(p, known, newPeers, addSent, addHandled, donePeers, doneSent, doneHandled, disconnected)
    }

    ghost predicate FlowOk()
      reads this`known, this`newPeers, this`addSent, this`addHandled, this`donePeers, this`doneSent,
            this`doneHandled, this`disconnected
    {
      forall p :: Flow(p)
    }

    ghost predicate HeldOk()
      reads this`outboundPeers, this`persistentPeers, this`addHandled, this`doneHandled
    {
      forall p :: HeldAt(p, Peers(), addHandled, doneHandled)
    }

    ghost predicate Valid()
      reads this
    {
      PeersOk() && TablesOk() && GroupsOk() && FlowOk() && HeldOk()
    }

    constructor (maxPeers: nat)
      ensures Valid() && subscribers.Valid() && fresh(subscribers) && fresh(subscribers.slots)
      ensures this.maxPeers == maxPeers && doneHandled == {} && subscribers.Contents() == []
    {
      this.maxPeers := maxPeers;
      subscribers := new SubscriberList();
      outboundPeers, persistentPeers, outboundGroups := map[], map[], map[];
      known, disconnected, newPeers, donePeers := {}, {}, [], [];
      addSent, doneSent, addHandled, doneHandled := {}, {}, {}, {};
    }

    // ----- the network and the goroutines of one peer

    /** A new connection gets a peer with an id of its own. */
    method Connect(p: Peer)
      requires PeersOk() && FlowOk() && (forall q | q in known :: q.id != p.id) && !p.inbound
      modifies this`known
      ensures PeersOk() && FlowOk() && known == old(known) + {p}
    {
      known := known + {p};
      forall q
        ensures Flow(q)
      {
        assert old(Flow(q));
      }
    }

    method Drop(p: Peer)
      requires FlowOk()
      modifies this`disconnected
      ensures FlowOk() && disconnected == old(disconnected) + {p}
    {
      disconnected := disconnected + {p};
      forall q
        ensures Flow(q)
      {
        assert old(Flow(q));
      }
    }

    /** The handshake is over. */
    method AddPeer(p: Peer)
      requires FlowOk() && p in known && p !in addSent
      modifies this`newPeers, this`addSent
      ensures FlowOk() && newPeers == old(newPeers) + [p] && addSent == old(addSent) + {p}
    {
      newPeers := newPeers + [p];
      addSent := addSent + {p};
      forall q
        ensures Flow(q)
      {
        assert old(Flow(q));
        CountAppend(old(newPeers), [p], q);
      }
    }

    /** peerDoneHandler waits for the disconnect before it reports the peer done. */
    method ReportDone(p: Peer)
      requires FlowOk() && p in known && p in disconnected && p !in doneSent
      modifies this`donePeers, this`doneSent
      ensures FlowOk() && donePeers == old(donePeers) + [p] && doneSent == old(doneSent) + {p}
    {
      donePeers := donePeers + [p];
      doneSent := doneSent + {p};
      forall q
        ensures Flow(q)
      {
        assert old(Flow(q));
        CountAppend(old(donePeers), [p], q);
      }
    }

    // ----- the handler goroutine: tables

    method InsertOutbound(p: Peer)
      requires TablesOk() && GroupsOk() && Count() < maxPeers && InsertTable(p) == OutboundTable
      requires p.id !in outboundPeers
      modifies this`outboundPeers, this`outboundGroups
      ensures TablesOk() && GroupsOk() && outboundPeers == old(outboundPeers)[p.id := p]
    {
      CountsAfterOutbound(outboundGroups, outboundPeers, persistentPeers, p);
      ValuesAfterInsert(outboundPeers, p);
      outboundGroups := outboundGroups[p.group := GroupCount(outboundGroups, p.group) + 1];
      outboundPeers := outboundPeers[p.id := p];
    }

    method InsertPersistent(p: Peer)
      requires TablesOk() && GroupsOk() && Count() < maxPeers && InsertTable(p) == PersistentTable
      requires p.id !in persistentPeers
      modifies this`persistentPeers, this`outboundGroups
      ensures TablesOk() && GroupsOk() && persistentPeers == old(persistentPeers)[p.id := p]
    {
      CountsAfterPersistent(outboundGroups, outboundPeers, persistentPeers, p);
      ValuesAfterInsert(persistentPeers, p);
      outboundGroups := outboundGroups[p.group := GroupCount(outboundGroups, p.group) + 1];
      persistentPeers := persistentPeers[p.id := p];
    }

    method DeleteOutbound(id: int)
      requires TablesOk() && GroupsOk() && id in outboundPeers
      modifies this`outboundPeers, this`outboundGroups
      ensures TablesOk() && GroupsOk() && outboundPeers == Without(old(outboundPeers), id)
    {
      CountsWithoutOutbound(outboundGroups, outboundPeers, persistentPeers, id);
      ValuesAfterRemove(outboundPeers, id);
      var g := outboundPeers[id].group;
      outboundGroups := outboundGroups[g := GroupCount(outboundGroups, g) - 1];
      outboundPeers := Without(outboundPeers, id);
    }

    method DeletePersistent(id: int)
      requires TablesOk() && GroupsOk() && id in persistentPeers
      modifies this`persistentPeers, this`outboundGroups
      ensures TablesOk() && GroupsOk() && persistentPeers == Without(old(persistentPeers), id)
    {
      CountsWithoutPersistent(outboundGroups, outboundPeers, persistentPeers, id);
      ValuesAfterRemove(persistentPeers, id);
      var g := persistentPeers[id].group;
      outboundGroups := outboundGroups[g := GroupCount(outboundGroups, g) - 1];
      persistentPeers := Without(persistentPeers, id);
    }

    // ----- the handler goroutine: messages

    method TakeAdd(p: Peer)
      requires FlowOk() && newPeers != [] && newPeers[0] == p
      modifies this`newPeers, this`addHandled
      ensures FlowOk() && newPeers == old(newPeers)[1..] && addHandled == old(addHandled) + {p}
      ensures p !in old(addHandled)
    {
      assert Flow(p);
      CountTail(newPeers, p);
      newPeers := newPeers[1..];
      addHandled := addHandled + {p};
      forall q
        ensures Flow(q)
      {
        assert old(Flow(q));
        CountTail(old(newPeers), q);
      }
    }

    method TakeDone(p: Peer)
      requires FlowOk() && donePeers != [] && donePeers[0] == p
      modifies this`donePeers, this`doneHandled
      ensures FlowOk() && donePeers == old(donePeers)[1..] && doneHandled == old(doneHandled) + {p}
    {
      assert Flow(p);
      CountTail(donePeers, p);
      donePeers := donePeers[1..];
      doneHandled := doneHandled + {p};
      forall q
        ensures Flow(q)
      {
        assert old(Flow(q));
        CountTail(old(donePeers), q);
      }
    }

    method InsertPeer(p: Peer)
      requires TablesOk() && GroupsOk() && Count() < maxPeers && !p.inbound && p.id !in Peers().For(InsertTable(p))
      modifies this`outboundPeers, this`persistentPeers, this`outboundGroups
      ensures outboundPeers == if p.persistent then old(outboundPeers) else old(outboundPeers)[p.id := p]
      ensures persistentPeers == if p.persistent then old(persistentPeers)[p.id := p] else old(persistentPeers)
      ensures TablesOk() && GroupsOk()
    {
      if p.persistent {
        InsertPersistent(p);
      } else {
        InsertOutbound(p);
      }
    }

    method AddAndTell(p: Peer, cancelled: set<int>) returns (notified: seq<int>)
      requires TablesOk() && GroupsOk() && subscribers.Valid() && Count() < maxPeers
      requires !p.inbound && p.id !in Peers().For(InsertTable(p))
      modifies this`outboundPeers, this`persistentPeers, this`outboundGroups
      modifies subscribers`length, subscribers.slots
      ensures TablesOk() && GroupsOk() && subscribers.Valid()
      ensures outboundPeers == if p.persistent then old(outboundPeers) else old(outboundPeers)[p.id := p]
      ensures persistentPeers == if p.persistent then old(persistentPeers)[p.id := p] else old(persistentPeers)
      ensures notified == subscribers.Contents() == Kept(old(subscribers.Contents()), cancelled)
    {
      InsertPeer(p);
      notified := subscribers.NotifyAll(cancelled);
    }

    /** handleAddPeerMsg.  `unwanted` stands for the checks of shutdown and ban list, and
        `cancelled` holds the subscribers found to have cancelled. */
    method HandleAddPeerMsg(p: Peer, unwanted: bool, cancelled: set<int>) returns (added: bool, notified: seq<int>)
      requires TablesOk() && GroupsOk() && FlowOk() && !p.inbound && p.id !in Peers().For(InsertTable(p))
      requires subscribers.Valid()
      modifies this`outboundPeers, this`persistentPeers, this`outboundGroups, this`disconnected
      modifies subscribers`length, subscribers.slots
      ensures TablesOk() && GroupsOk() && FlowOk() && subscribers.Valid()
      ensures added <==> p !in old(disconnected) && !unwanted && old(Count()) < maxPeers
      ensures outboundPeers
           == if added && !p.persistent then old(outboundPeers)[p.id := p] else old(outboundPeers)
      ensures persistentPeers
           == if added && p.persistent then old(persistentPeers)[p.id := p] else old(persistentPeers)
      ensures disconnected == if added then old(disconnected) else old(disconnected) + {p}
      ensures subscribers.Contents() == if added then Kept(old(subscribers.Contents()), cancelled)
                                        else old(subscribers.Contents())
      ensures notified == if added then subscribers.Contents() else []
    {
      if p in disconnected {
        return false, [];
      }
      if unwanted || Count() >= maxPeers {
        Drop(p);
        return false, [];
      }
      notified := AddAndTell(p, cancelled);
      added := true;
    }

    /** handleDonePeerMsg, as far as the tables go. */
    method HandleDonePeerMsg(p: Peer)
      requires TablesOk() && GroupsOk()
      modifies this`outboundPeers, this`persistentPeers, this`outboundGroups
      ensures outboundPeers == if p.persistent then old(outboundPeers) else Without(old(outboundPeers), p.id)
      ensures persistentPeers == if p.persistent then Without(old(persistentPeers), p.id) else old(persistentPeers)
      ensures TablesOk() && GroupsOk()
    {
      if p.persistent {
        if p.id in persistentPeers {
          DeletePersistent(p.id);
        } else {
          NothingToTake(persistentPeers, p.id);
        }
      } else if p.id in outboundPeers {
        DeleteOutbound(p.id);
      } else {
        NothingToTake(outboundPeers, p.id);
      }
    }

    /** Two peers never compete for one slot. */
    lemma SlotIsOwn(p: Peer)
      requires PeersOk() && TablesOk() && FlowOk() && HeldOk() && p in known
      requires p.id in Peers().For(InsertTable(p))
      ensures Peers().Has(p)
    {
      var q := Peers().For(InsertTable(p))[p.id];
      assert Peers().Has(q);
      assert HeldAt(q, Peers(), addHandled, doneHandled) && Flow(q);
    }

    lemma HeadOfNew(p: Peer)
      requires PeersOk() && TablesOk() && FlowOk() && HeldOk() && newPeers != [] && newPeers[0] == p
      ensures !p.inbound && p.id !in Peers().For(InsertTable(p)) && (p in doneHandled ==> p in disconnected)
    {
      assert Flow(p);
      CountTail(newPeers, p);
      assert HeldAt(p, Peers(), addHandled, doneHandled);
      if p.id in Peers().For(InsertTable(p)) {
        SlotIsOwn(p);
      }
    }

    lemma HeadOfDone(p: Peer)
      requires PeersOk() && TablesOk() && FlowOk() && HeldOk() && donePeers != [] && donePeers[0] == p
      ensures !p.inbound && (p.id in Peers().For(InsertTable(p)) ==> Peers().Has(p))
    {
      assert Flow(p);
      CountTail(donePeers, p);
      if p.id in Peers().For(InsertTable(p)) {
        SlotIsOwn(p);
      }
    }

    /** Disconnecting by hand takes peers out and changes nothing else. */
    twostate lemma StillValid()
      requires old(Valid()) && TablesOk() && GroupsOk() && FlowOk() && known == old(known)
      requires addHandled == old(addHandled) && doneHandled == old(doneHandled)
      requires forall q | Peers().Has(q) :: old(Peers()).Has(q)
      ensures Valid()
    {
      forall q
        ensures HeldAt(q, Peers(), addHandled, doneHandled)
      {
        assert HeldAt(q, old(Peers()), old(addHandled), old(doneHandled));
      }
    }

    method TakeAndAdd(p: Peer, unwanted: bool, cancelled: set<int>) returns (added: bool, notified: seq<int>)
      requires TablesOk() && GroupsOk() && FlowOk() && !p.inbound && p.id !in Peers().For(InsertTable(p))
      requires newPeers != [] && newPeers[0] == p && subscribers.Valid()
      modifies this`outboundPeers, this`persistentPeers, this`outboundGroups, this`disconnected
      modifies this`newPeers, this`addHandled, subscribers`length, subscribers.slots
      ensures TablesOk() && GroupsOk() && FlowOk() && subscribers.Valid()
      ensures newPeers == old(newPeers)[1..] && addHandled == old(addHandled) + {p}
      ensures added <==> p !in old(disconnected) && !unwanted && old(Count()) < maxPeers
      ensures outboundPeers
           == if added && !p.persistent then old(outboundPeers)[p.id := p] else old(outboundPeers)
      ensures persistentPeers
           == if added && p.persistent then old(persistentPeers)[p.id := p] else old(persistentPeers)
      ensures disconnected == if added then old(disconnected) else old(disconnected) + {p}
      ensures subscribers.Contents() == if added then Kept(old(subscribers.Contents()), cancelled)
                                        else old(subscribers.Contents())
      ensures notified == if added then subscribers.Contents() else []
    {
      TakeAdd(p);
      added, notified := HandleAddPeerMsg(p, unwanted, cancelled);
    }

    method TakeAndRemove(p: Peer)
      requires TablesOk() && GroupsOk() && FlowOk() && donePeers != [] && donePeers[0] == p
      modifies this`outboundPeers, this`persistentPeers, this`outboundGroups, this`donePeers, this`doneHandled
      ensures TablesOk() && GroupsOk() && FlowOk()
      ensures donePeers == old(donePeers)[1..] && doneHandled == old(doneHandled) + {p}
      ensures outboundPeers == if p.persistent then old(outboundPeers) else Without(old(outboundPeers), p.id)
      ensures persistentPeers == if p.persistent then Without(old(persistentPeers), p.id) else old(persistentPeers)
    {
      TakeDone(p);
      HandleDonePeerMsg(p);
    }

    twostate lemma AddedInTime(p: Peer)
      requires old(Valid()) && TablesOk() && GroupsOk() && FlowOk() && known == old(known)
      requires addHandled == old(addHandled) + {p} && doneHandled == old(doneHandled)
      requires forall q | Peers().Has(q) :: old(Peers()).Has(q) || (q == p && p !in doneHandled && !p.inbound)
      ensures Valid()
    {
      forall q
        ensures HeldAt(q, Peers(), addHandled, doneHandled)
      {
        assert HeldAt(q, old(Peers()), old(addHandled), old(doneHandled));
      }
    }

    twostate lemma RemovedInTime(p: Peer)
      requires old(Valid()) && TablesOk() && GroupsOk() && FlowOk() && known == old(known)
      requires addHandled == old(addHandled) && doneHandled == old(doneHandled) + {p}
      requires forall q :: Peers().Has(q) <==> old(Peers()).Has(q) && q != p
      ensures Valid()
    {
      forall q
        ensures HeldAt(q, Peers(), addHandled, doneHandled)
      {
        assert HeldAt(q, old(Peers()), old(addHandled), old(doneHandled));
      }
    }

    /** The handler takes an add message.  A peer whose done message it has handled before
        is not let in. */
    method TakeNewPeer(p: Peer, unwanted: bool, cancelled: set<int>) returns (added: bool, notified: seq<int>)
      requires Valid() && newPeers != [] && newPeers[0] == p && subscribers.Valid()
      modifies this`outboundPeers, this`persistentPeers, this`outboundGroups, this`disconnected
      modifies this`newPeers, this`addHandled, subscribers`length, subscribers.slots
      ensures Valid() && newPeers == old(newPeers)[1..] && addHandled == old(addHandled) + {p} && subscribers.Valid()
      ensures added <==> p !in old(disconnected) && !unwanted && old(Count()) < maxPeers
      ensures added ==> p !in doneHandled
      ensures outboundPeers
           == if added && !p.persistent then old(outboundPeers)[p.id := p] else old(outboundPeers)
      ensures persistentPeers
           == if added && p.persistent then old(persistentPeers)[p.id := p] else old(persistentPeers)
      ensures forall q :: Peers().Has(q) <==> old(Peers()).Has(q) || (added && q == p)
      ensures disconnected == if added then old(disconnected) else old(disconnected) + {p}
      ensures subscribers.Contents() == if added then Kept(old(subscribers.Contents()), cancelled)
                                        else old(subscribers.Contents())
      ensures notified == if added then subscribers.Contents() else []
    {
      HeadOfNew(p);
      WithHas(Peers(), p);
      assert Peers().With(p)
          == Tables(map[], if p.persistent then outboundPeers else outboundPeers[p.id := p],
                    if p.persistent then persistentPeers[p.id := p] else persistentPeers);
      added, notified := TakeAndAdd(p, unwanted, cancelled);
      AddedInTime(p);
    }

    /** The handler takes a done message. */
    method TakeDonePeer(p: Peer)
      requires Valid() && donePeers != [] && donePeers[0] == p
      modifies this`outboundPeers, this`persistentPeers, this`outboundGroups, this`donePeers, this`doneHandled
      ensures Valid() && donePeers == old(donePeers)[1..] && doneHandled == old(doneHandled) + {p}
      ensures outboundPeers == if p.persistent then old(outboundPeers) else Without(old(outboundPeers), p.id)
      ensures persistentPeers == if p.persistent then Without(old(persistentPeers), p.id) else old(persistentPeers)
      ensures forall q :: Peers().Has(q) <==> old(Peers()).Has(q) && q != p
    {
      HeadOfDone(p);
      LessHas(Peers(), p);
      TakeAndRemove(p);
      assert Peers() == old(Peers()).Less(p);
      RemovedInTime(p);
    }

    // ----- disconnecting by hand

    method RemoveNode(cmp: Peer -> bool) returns (found: bool, ghost gone: int)
      requires TablesOk() && GroupsOk() && FlowOk()
      modifies this`persistentPeers, this`outboundGroups, this`disconnected
      ensures TablesOk() && GroupsOk() && FlowOk() && forall q | Peers().Has(q) :: old(Peers()).Has(q)
      ensures found <==> exists id :: Matches(old(persistentPeers), cmp, id)
      ensures found ==>
        && Matches(old(persistentPeers), cmp, gone)
        && persistentPeers == Without(old(persistentPeers), gone)
        && disconnected == old(disconnected) + {old(persistentPeers)[gone]}
      ensures !found ==> persistentPeers == old(persistentPeers) && disconnected == old(disconnected)
    {
      if id :| id in persistentPeers && cmp(persistentPeers[id]) {
        assert Matches(persistentPeers, cmp, id);
        var sp := persistentPeers[id];
        DeletePersistent(id);
        Drop(sp);
        return true, id;
      }
      return false, 0;
    }

    /** disconnectPeer on the outbound peers. */
    method DisconnectOutbound(cmp: Peer -> bool) returns (found: bool)
      requires TablesOk() && GroupsOk() && FlowOk()
      modifies this`outboundPeers, this`outboundGroups, this`disconnected
      ensures TablesOk() && GroupsOk() && FlowOk() && forall q | Peers().Has(q) :: old(Peers()).Has(q)
      ensures found <==> exists id :: Matches(old(outboundPeers), cmp, id)
      ensures found ==> |outboundPeers| < |old(outboundPeers)|
      ensures !found ==> outboundPeers == old(outboundPeers) && disconnected == old(disconnected)
      ensures Unmatched(outboundPeers, cmp) == Unmatched(old(outboundPeers), cmp)
      ensures disconnected + Matched(outboundPeers, cmp) == old(disconnected) + Matched(old(outboundPeers), cmp)
    {
      if id :| id in outboundPeers && cmp(outboundPeers[id]) {
        assert Matches(outboundPeers, cmp, id);
        OneMatchLess(outboundPeers, cmp, id);
        var sp := outboundPeers[id];
        DeleteOutbound(id);
        Drop(sp);
        return true;
      }
      return false;
    }

    /** disconnectNodeMsg: every outbound peer that matches. */
    method DisconnectNode(cmp: Peer -> bool) returns (found: bool)
      requires TablesOk() && GroupsOk() && FlowOk()
      modifies this`outboundPeers, this`outboundGroups, this`disconnected
      ensures TablesOk() && GroupsOk() && FlowOk() && forall q | Peers().Has(q) :: old(Peers()).Has(q)
      ensures found <==> exists id :: Matches(old(outboundPeers), cmp, id)
      ensures outboundPeers == Unmatched(old(outboundPeers), cmp)
      ensures disconnected == old(disconnected) + Matched(old(outboundPeers), cmp)
    {
      found := DisconnectOutbound(cmp);
      var more := found;
      while more
        invariant TablesOk() && GroupsOk() && FlowOk() && forall q | Peers().Has(q) :: old(Peers()).Has(q)
        invariant found <==> exists id :: Matches(old(outboundPeers), cmp, id)
        invariant !more ==> forall id :: !Matches(outboundPeers, cmp, id)
        invariant Unmatched(outboundPeers, cmp) == Unmatched(old(outboundPeers), cmp)
        invariant disconnected + Matched(outboundPeers, cmp) == old(disconnected) + Matched(old(outboundPeers), cmp)
        decreases more, |outboundPeers|
      {
        more := DisconnectOutbound(cmp);
      }
      NoMatchLeft(outboundPeers, cmp);
    }

    method HandleRemoveNode(cmp: Peer -> bool)
      requires Valid() && subscribers.Valid()
      modifies this`persistentPeers, this`outboundGroups, this`disconnected
      ensures Valid() && PersistentRemoved(old(Now()), cmp, Now())
    {
      var found, gone := RemoveNode(cmp);
      assert TablesOk() && GroupsOk() && FlowOk();
      StillValid();
      if found {
        assert Matches(old(persistentPeers), cmp, gone) && PersistentLeft(old(Now()), gone, Now());
      }
    }

    method HandleDisconnectNode(cmp: Peer -> bool)
      requires Valid()
      modifies this`outboundPeers, this`outboundGroups, this`disconnected
      ensures Valid() && outboundPeers == Unmatched(old(outboundPeers), cmp)
      ensures disconnected == old(disconnected) + Matched(old(outboundPeers), cmp)
    {
      var _ := DisconnectNode(cmp);
      assert TablesOk() && GroupsOk() && FlowOk();
      StillValid();
    }

    // ----- whole runs

    /** A step of the network or of some peer's goroutine; one that cannot happen now
        changes nothing. */
    method GoroutineStep(a: Action)
      requires PeersOk() && FlowOk()
      modifies this`known, this`disconnected, this`newPeers, this`addSent, this`donePeers, this`doneSent
      ensures PeersOk() && FlowOk()
      ensures known == old(known)
                + if a.Connect? && (forall q | q in old(known) :: q.id != a.peer.id) && !a.peer.inbound
                  then {a.peer} else {}
      ensures disconnected == old(disconnected) + if a.Drop? then {a.peer} else {}
      // A peer is put on the channel of new peers once, and on that of done peers once it is
      // disconnected, once.
      ensures if a.AddPeer? && a.peer in old(known) && a.peer !in old(addSent)
              then newPeers == old(newPeers) + [a.peer] && addSent == old(addSent) + {a.peer}
              else newPeers == old(newPeers) && addSent == old(addSent)
      ensures if a.PeerDone? && a.peer in old(known) && a.peer in old(disconnected) && a.peer !in old(doneSent)
              then donePeers == old(donePeers) + [a.peer] && doneSent == old(doneSent) + {a.peer}
              else donePeers == old(donePeers) && doneSent == old(doneSent)
    {
      match a
      case Connect(p) => if (forall q | q in known :: q.id != p.id) && !p.inbound { Connect(p); }
      case Drop(p) => Drop(p);
      case AddPeer(p) => if p in known && p !in addSent { AddPeer(p); }
      case PeerDone(p) => if p in known && p in disconnected && p !in doneSent { ReportDone(p); }
      case _ =>
    }

    twostate lemma StillRunning()
      requires old(Valid()) && PeersOk() && FlowOk() && Peers() == old(Peers())
      requires outboundGroups == old(outboundGroups)
      requires addHandled == old(addHandled) && doneHandled == old(doneHandled)
      ensures Valid()
    {
    }

    method PeerStep(a: Action)
      requires Valid() && subscribers.Valid()
      modifies this`known, this`disconnected, this`newPeers, this`addSent, this`donePeers, this`doneSent
      ensures Valid() && PeerMoved(old(Now()), a, Now())
    {
      MoveOn(a);
      StillRunning();
    }

    method MoveOn(a: Action)
      requires PeersOk() && FlowOk() && subscribers.Valid()
      modifies this`known, this`disconnected, this`newPeers, this`addSent, this`donePeers, this`doneSent
      ensures PeersOk() && FlowOk() && PeerMoved(old(Now()), a, Now())
    {
      GoroutineStep(a);
    }

    method HandleNewPeer(unwanted: bool, cancelled: set<int>) returns (notified: seq<int>)
      requires Valid() && subscribers.Valid()
      modifies this`outboundPeers, this`persistentPeers, this`outboundGroups, this`disconnected
      modifies this`newPeers, this`addHandled, subscribers`length, subscribers.slots
      ensures Valid() && subscribers.Valid()
      ensures NewPeerTaken(old(Now()), unwanted, cancelled, maxPeers, Now(), notified)
    {
      notified := [];
      if newPeers != [] {
        var added;
        added, notified := TakeNewPeer(newPeers[0], unwanted, cancelled);
      }
    }

    method HandleDonePeer()
      requires Valid() && subscribers.Valid()
      modifies this`outboundPeers, this`persistentPeers, this`outboundGroups, this`donePeers, this`doneHandled
      ensures Valid() && DonePeerTaken(old(Now()), Now())
    {
      if donePeers != [] {
        TakeDonePeer(donePeers[0]);
      }
    }

    method Step(a: Action) returns (notified: seq<int>)
      requires Valid() && subscribers.Valid()
      modifies this, subscribers, subscribers.slots
      ensures Valid() && subscribers.Valid() && ServiceStepped(old(Now()), a, maxPeers, Now(), notified)
      ensures subscribers.slots == old(subscribers.slots) || fresh(subscribers.slots)
    {
      notified := [];
      match a
      case TakeNewPeer(unwanted, cancelled) => notified := HandleNewPeer(unwanted, cancelled);
      case TakeDonePeer => HandleDonePeer();
      case RemoveNode(cmp) => HandleRemoveNode(cmp);
      case DisconnectNode(cmp) => HandleDisconnectNode(cmp);
      case SubscribePeers(id) => subscribers.Subscribe(id);
      case _ => PeerStep(a);
    }

    /** Every run keeps the invariant, however add and done messages interleave, and goes
        step by step. */
    method Run(schedule: seq<Action>) returns (ghost states: seq<ServiceState>, told: seq<seq<int>>)
      requires Valid() && subscribers.Valid()
      modifies this, subscribers, subscribers.slots
      ensures Valid() && subscribers.Valid() && ServiceTrace(states, schedule, told, maxPeers)
      ensures states[0] == old(Now()) && states[|schedule|] == Now()
    {
      states, told := [Now()], [];
      for i := 0 to |schedule|
        invariant Valid() && subscribers.Valid() && ServiceTrace(states, schedule[..i], told, maxPeers)
        invariant states[0] == old(Now()) && states[i] == Now()
        invariant subscribers.slots == old(subscribers.slots) || fresh(subscribers.slots)
      {
        var notified := Step(schedule[i]);
        ServiceTraceOn(states, schedule, told, maxPeers, i, Now(), notified);
        states, told := states + [Now()], told + [notified];
      }
      assert schedule[..|schedule|] == schedule;
    }

    /** What every run promises. */
    lemma RunsAreSafe()
      requires Valid()
      ensures forall p | p in doneHandled :: p !in Members(outboundPeers) && p !in Members(persistentPeers)
      ensures forall g ::
        GroupCount(outboundGroups, g)
        == |set p | p in Members(outboundPeers) + Members(persistentPeers) && p.group == g|
      ensures Count() <= maxPeers
    {
      forall p | p in doneHandled
        ensures p !in Members(outboundPeers) && p !in Members(persistentPeers)
      {
        assert HeldAt(p, Peers(), addHandled, doneHandled);
        HeldMeansHas(outboundPeers, OutboundTable, p);
        HeldMeansHas(persistentPeers, PersistentTable, p);
      }
      forall g
        ensures GroupCount(outboundGroups, g)
          == |set p | p in Members(outboundPeers) + Members(persistentPeers) && p.group == g|
      {
        assert InGroup(Members(outboundPeers) + Members(persistentPeers), g)
          == set p | p in Members(outboundPeers) + Members(persistentPeers) && p.group == g;
      }
    }

    lemma HeldMeansHas(table: map<int, Peer>, kind: Table, p: Peer)
      requires TableOk(table, kind) && table == Peers().For(kind)
      ensures p in Members(table) ==> Peers().Has(p)
    {
      if p in Members(table) {
        var id :| id in table && table[id] == p;
      }
    }

    /** Once both messages of every peer have been handled the tables are empty, in
        whatever order the two came. */
    lemma NothingIsLeftBehind()
      requires Valid() && donePeers == [] && doneSent == known
      ensures Count() == 0
    {
      forall p
        ensures !Peers().Has(p)
      {
        assert HeldAt(p, Peers(), addHandled, doneHandled) && Flow(p);
      }
      forall id | id in outboundPeers
        ensures false
      {
        assert Peers().Has(outboundPeers[id]);
      }
      forall id | id in persistentPeers
        ensures false
      {
        assert Peers().Has(persistentPeers[id]);
      }
    }
  }
}
