// The DNS seeder's list of nodes (dnsseeder/seeder.go): what crawl results do to a node's
// standing and to the list, and what an audit removes.

module Seeder {
  import opened Common
  import opened Crc16

  const MAX_FAILS: int := 58
  const CRAWL_DELAY: int := 22
  const DAY: int := 86400

  datatype Status =
    | RG  // reported good: never connected to
    | CG  // confirmed good
    | WG  // was good
    | NG  // no good

  datatype DnsType = V4Std | V4Non | V6Std | V6Non

  // ---------------------------------------------------------------------------
  // A node's standing.

  datatype Standing = Standing(status: Status, rating: int, fails: int)

  const FRESH := Standing(RG, 0, 0)
  const CONFIRMED := Standing(CG, 0, 0)

  /** The rating says how often in a row a node failed, and the status follows from it. */
  predicate Sound(s: Standing) {
    && 0 <= s.fails < UINT32
    && match s.status
       case RG => s.fails <= 1 && s.rating == 25 * s.fails
       case CG => s.fails <= 1 && s.rating == 25 * s.fails
       case WG => 2 <= s.fails <= 5 && s.rating == 50 + 15 * (s.fails - 2)
       case NG => s.rating == 0 || s.rating == 25 || s.rating == 110
  }

  lemma Ratings(s: Standing)
    requires Sound(s)
    ensures s.status == RG || s.status == CG ==> s.rating in {0, 25}
    ensures s.status == WG ==> s.rating in {50, 65, 80, 95}
  {
  }

  /** A counter of 32 bits counts on. */
  function Next32(n: int): int {
    if n + 1 == UINT32 then 0 else n + 1
  }

  function AfterFailure(s: Standing, full: bool): Standing {
    var fails := Next32(s.fails);
    match s.status
    case RG =>
      if full then Standing(NG, s.rating, fails)
      else Standing(if s.rating + 25 > 30 then WG else RG, s.rating + 25, fails)
    case CG => Standing(if s.rating + 25 >= 50 then WG else CG, s.rating + 25, fails)
    case WG => Standing(if s.rating + 15 >= 100 then NG else WG, s.rating + 15, fails)
    case NG => Standing(NG, s.rating, fails)
  }

  /** Failures in a row; for each, whether the list was full. */
  function AfterFailures(s: Standing, fulls: seq<bool>): Standing {
    if fulls == [] then s else AfterFailure(AfterFailures(s, fulls[..|fulls| - 1]), fulls[|fulls| - 1])
  }

  lemma SoundAfterFailure(s: Standing, full: bool)
    requires Sound(s)
    ensures Sound(AfterFailure(s, full))
  {
  }

  /** A confirmed node is no good from its sixth failure in a row on and not before,
      whether or not the list is full. */
  lemma {:induction false} SixthFailureIsFatal(fulls: seq<bool>)
    ensures var s := AfterFailures(CONFIRMED, fulls);
      && Sound(s) && (|fulls| < UINT32 ==> s.fails == |fulls|)
      && s.status == (if |fulls| <= 1 then CG else if |fulls| <= 5 then WG else NG)
  {
    if fulls != [] {
      SixthFailureIsFatal(fulls[..|fulls| - 1]);
    }
  }

  /** So is a node that was only reported, unless the list is full at one of its first two
      failures; then that one is fatal. */
  lemma {:induction false} ReportedNodesFailTheSameUnlessFull(fulls: seq<bool>)
    ensures var s := AfterFailures(FRESH, fulls);
      && Sound(s) && (|fulls| < UINT32 ==> s.fails == |fulls|)
      && (s.status == NG <==> |fulls| >= 6 || (|fulls| >= 1 && fulls[0]) || (|fulls| >= 2 && fulls[1]))
      && (s.status != NG ==> s.status == (if |fulls| <= 1 then RG else WG))
  {
    if fulls != [] {
      ReportedNodesFailTheSameUnlessFull(fulls[..|fulls| - 1]);
    }
  }

  // ---------------------------------------------------------------------------
  // Addresses.

  datatype NetAddr = NetAddr(ip: seq<Byte>, port: bv16, timestamp: int)

  /** How a node is filed: an IPv4 address has one text, however it is held. */
  datatype Key = Key(ip: seq<Byte>, port: bv16)

  function Canonical(ip: seq<Byte>): seq<Byte> {
    if To4(ip).Some? then To4(ip).value else ip
  }

  function KeyOf(na: NetAddr): Key {
    Key(Canonical(na.ip), na.port)
  }

  function TypeOf(ip: seq<Byte>, port: bv16, standard: bv16): DnsType {
    if To4(ip).None? then (if port != standard then V6Non else V6Std)
    else if port != standard then V4Non else V4Std
  }

  /** The fake address of a node with a port of its own. */
  function FakeOf(ip: seq<Byte>, port: bv16, standard: bv16): seq<Byte> {
    if port != standard then FakeIP(ip, port) else []
  }

  /** Class and fake address do not depend on how an IPv4 address is held. */
  lemma CanonicalIsServedTheSame(ip: seq<Byte>, port: bv16, standard: bv16)
    ensures To4(Canonical(ip)) == To4(ip)
    ensures TypeOf(Canonical(ip), port, standard) == TypeOf(ip, port, standard)
    ensures FakeOf(Canonical(ip), port, standard) == FakeOf(ip, port, standard)
  {
  }

  /** Two addresses are filed as one exactly if they agree in port and, but for the way an
      IPv4 address is held, in the address. */
  lemma SameKeyIff(a: NetAddr, b: NetAddr)
    ensures KeyOf(a) == KeyOf(b)
      <==> a.port == b.port && (a.ip == b.ip || (To4(a.ip).Some? && To4(a.ip) == To4(b.ip)))
  {
    To4OfFour(a.ip);
    To4OfFour(b.ip);
  }

  lemma To4OfFour(ip: seq<Byte>)
    ensures To4(ip).Some? ==> To4(To4(ip).value) == To4(ip)
    ensures To4(ip).None? ==> |ip| != 4
  {
  }

  class Node {
    var na: NetAddr
    var status: Status
    var rating: int
    var connectFails: int
    var dnsType: DnsType
    var nonstdIP: seq<Byte>

    function Score(): Standing
      reads this
    {
      Standing(status, rating, connectFails)
    }

    /** It is served as its address and port say. */
    ghost predicate Classified(standard: bv16)
      reads this
    {
      dnsType == TypeOf(na.ip, na.port, standard) && nonstdIP == FakeOf(na.ip, na.port, standard)
    }

    constructor (na: NetAddr)
      ensures this.na == na && Score() == FRESH && dnsType == V4Std && nonstdIP == []
    {
      this.na := na;
      status, rating, connectFails := RG, 0, 0;
      dnsType, nonstdIP := V4Std, [];
    }

    /** A crawl of this node failed. */
    method Fail(full: bool)
      modifies this`status, this`rating, this`connectFails
      ensures Score() == AfterFailure(old(Score()), full)
    {
      connectFails := Next32(connectFails);
      match status
      case RG =>
        if full {
          status := NG;
        } else {
          rating := rating + 25;
          if rating > 30 {
            status := WG;
          }
        }
      case CG =>
        rating := rating + 25;
        if rating >= 50 {
          status := WG;
        }
      case WG =>
        rating := rating + 15;
        if rating >= 100 {
          status := NG;
        }
      case NG =>
    }

    method Succeed()
      modifies this`status, this`rating, this`connectFails
      ensures Score() == CONFIRMED
    {
      status, rating, connectFails := CG, 0, 0;
    }

    /** Works out how the node is served, and for a port of its own the address that
        carries it. */
    method Classify(standard: bv16)
      requires dnsType == V4Std && nonstdIP == []
      modifies this`na, this`dnsType, this`nonstdIP
      ensures KeyOf(na) == KeyOf(old(na)) && dnsType == TypeOf(old(na).ip, na.port, standard)
      ensures na.port == old(na).port && na.timestamp == old(na).timestamp && Classified(standard)
      ensures nonstdIP == FakeOf(old(na).ip, old(na).port, standard)
      ensures na.port != standard ==>
        && |nonstdIP| == 4 && Word(nonstdIP[2], nonstdIP[3]) == na.port
        && Word(nonstdIP[0], nonstdIP[1]) == (if To4(na.ip).Some? then Register(To4(na.ip).value) else INITIAL)
    {
      CanonicalIsServedTheSame(na.ip, na.port, standard);
      var v4 := To4(na.ip);
      if v4.None? {
        if na.port != standard {
          dnsType := V6Non;
          nonstdIP := GetNonStdIP(na.ip, na.port);
        } else {
          dnsType := V6Std;
        }
      } else if na.port != standard {
        dnsType := V4Non;
        na := na.(ip := v4.value);
        nonstdIP := GetNonStdIP(na.ip, na.port);
      }
    }
  }

  // ---------------------------------------------------------------------------
  // The list.

  /** An address is taken into the list. */
  predicate Welcome(keys: set<Key>, na: NetAddr, now: int, maxSize: int) {
    && |keys| <= maxSize && KeyOf(na) !in keys
    && 0 < na.port < 0xFFFF && na.timestamp >= now - DAY
  }

  /** The list after a node's addresses were offered to it, of which it takes at most
      `room`. */
  function Filled(keys: set<Key>, nas: seq<NetAddr>, now: int, maxSize: int, room: int): set<Key>
    decreases |nas|
  {
    if nas == [] || room <= 0 then keys
    else if Welcome(keys, nas[0], now, maxSize) then
      Filled(keys + {KeyOf(nas[0])}, nas[1..], now, maxSize, room - 1)
    else Filled(keys, nas[1..], now, maxSize, room)
  }

  lemma FilledStep(keys: set<Key>, nas: seq<NetAddr>, now: int, maxSize: int, room: int)
    requires nas != [] && 0 < room
    ensures Filled(keys, nas, now, maxSize, room) ==
      if Welcome(keys, nas[0], now, maxSize) then Filled(keys + {KeyOf(nas[0])}, nas[1..], now, maxSize, room - 1)
      else Filled(keys, nas[1..], now, maxSize, room)
  {
  }

  /** The longest a list of `n` nodes can be after one result. */
  function Bound(n: int, maxSize: int): int {
    Max(n, Min(maxSize + 1, n + maxSize / 3 + 1))
  }

  lemma SizeAfterSuccess(was: set<Key>, keys: set<Key>, nas: seq<NetAddr>, now: int, maxSize: int)
    requires keys == if |was| < maxSize then Filled(was, nas, now, maxSize, maxSize / 3 + 1) else was
    ensures |keys| <= Bound(|was|, maxSize)
  {
    if |was| < maxSize {
      FilledIsBounded(was, nas, now, maxSize, maxSize / 3 + 1);
    }
  }

  /** It never grows beyond one more than its size, nor by more than it has room for. */
  lemma {:induction false} FilledIsBounded(keys: set<Key>, nas: seq<NetAddr>, now: int, maxSize: int, room: int)
    requires 0 <= room
    decreases |nas|
    ensures keys <= Filled(keys, nas, now, maxSize, room)
    ensures |Filled(keys, nas, now, maxSize, room)| <= Max(|keys|, Min(maxSize + 1, |keys| + room))
  {
    if nas == [] || room <= 0 {
    } else if Welcome(keys, nas[0], now, maxSize) {
      FilledIsBounded(keys + {KeyOf(nas[0])}, nas[1..], now, maxSize, room - 1);
    } else {
      FilledIsBounded(keys, nas[1..], now, maxSize, room);
    }
  }

  /** The keys of the addresses that were seen within a day on a port that can be used. */
  function Usable(nas: seq<NetAddr>, now: int): set<Key> {
    set na | na in nas && 0 < na.port < 0xFFFF && na.timestamp >= now - 86400 :: KeyOf(na)
  }

  /** The addresses are taken in order up to the i-th: to the last, or until there is no more
      room, or the list is longer than its size. */
  ghost predicate TakenUpTo(keys: set<Key>, nas: seq<NetAddr>, now: int, maxSize: int, room: nat, after: set<Key>,
                            i: nat) {
    && i <= |nas| && after == keys + Usable(nas[..i], now)
    && |after| <= |keys| + room && |after| <= Max(|keys|, maxSize + 1)
    && (i == |nas| || |after| == |keys| + room || |after| > maxSize)
  }

  ghost predicate TakesInOrder(keys: set<Key>, nas: seq<NetAddr>, now: int, maxSize: int, room: nat, after: set<Key>) {
    exists i :: TakenUpTo(keys, nas, now, maxSize, room, after, i)
  }

  lemma UsableMore(nas: seq<NetAddr>, now: int, i: nat)
    requires i < |nas|
    ensures var na := nas[0];
      Usable(nas[..i + 1], now)
      == Usable(nas[1..][..i], now) + if 0 < na.port < 0xFFFF && na.timestamp >= now - 86400 then {KeyOf(na)} else {}
  {
    assert nas[..i + 1] == [nas[0]] + nas[1..][..i];
  }

  /** Which addresses a list takes. */
  lemma {:induction false} FilledTakes(keys: set<Key>, nas: seq<NetAddr>, now: int, maxSize: int, room: nat)
    ensures TakesInOrder(keys, nas, now, maxSize, room, Filled(keys, nas, now, maxSize, room))
    decreases |nas|, 1
  {
    if nas == [] || room == 0 || |keys| > maxSize {
      NoneTaken(keys, nas, now, maxSize, room);
    } else if Welcome(keys, nas[0], now, maxSize) {
      OneTaken(keys, nas, now, maxSize, room);
    } else {
      OneLeft(keys, nas, now, maxSize, room);
    }
  }

  lemma NoneTaken(keys: set<Key>, nas: seq<NetAddr>, now: int, maxSize: int, room: nat)
    requires nas == [] || room == 0 || |keys| > maxSize
    ensures TakesInOrder(keys, nas, now, maxSize, room, Filled(keys, nas, now, maxSize, room))
  {
    FilledIsBounded(keys, nas, now, maxSize, room);
    SameSize(keys, Filled(keys, nas, now, maxSize, room));
    assert nas[..0] == [] && Usable([], now) == {};
    assert TakenUpTo(keys, nas, now, maxSize, room, keys, 0);
  }

  lemma {:induction false} OneTaken(keys: set<Key>, nas: seq<NetAddr>, now: int, maxSize: int, room: nat)
    requires nas != [] && 0 < room && Welcome(keys, nas[0], now, maxSize)
    ensures TakesInOrder(keys, nas, now, maxSize, room, Filled(keys, nas, now, maxSize, room))
    decreases |nas|, 0
  {
    var more, rest, less := keys + {KeyOf(nas[0])}, nas[1..], room - 1;
    FilledTakes(more, rest, now, maxSize, less);
    FilledStep(keys, nas, now, maxSize, room);
    var after := Filled(more, rest, now, maxSize, less);
    var i: nat :| TakenUpTo(more, rest, now, maxSize, less, after, i);
    OneTakenAt(keys, nas, now, maxSize, room, after, i);
  }

  lemma OneTakenAt(keys: set<Key>, nas: seq<NetAddr>, now: int, maxSize: int, room: nat, after: set<Key>, i: nat)
    requires nas != [] && 0 < room && Welcome(keys, nas[0], now, maxSize)
    requires TakenUpTo(keys + {KeyOf(nas[0])}, nas[1..], now, maxSize, room - 1, after, i)
    ensures TakenUpTo(keys, nas, now, maxSize, room, after, i + 1)
  {
    UsableMore(nas, now, i);
    assert |keys + {KeyOf(nas[0])}| == |keys| + 1;
  }

  lemma {:induction false} OneLeft(keys: set<Key>, nas: seq<NetAddr>, now: int, maxSize: int, room: nat)
    requires nas != [] && 0 < room && !Welcome(keys, nas[0], now, maxSize) && |keys| <= maxSize
    ensures TakesInOrder(keys, nas, now, maxSize, room, Filled(keys, nas, now, maxSize, room))
    decreases |nas|, 0
  {
    var rest := nas[1..];
    FilledTakes(keys, rest, now, maxSize, room);
    FilledStep(keys, nas, now, maxSize, room);
    var after := Filled(keys, rest, now, maxSize, room);
    var i: nat :| TakenUpTo(keys, rest, now, maxSize, room, after, i);
    OneLeftAt(keys, nas, now, maxSize, room, after, i);
  }

  lemma OneLeftAt(keys: set<Key>, nas: seq<NetAddr>, now: int, maxSize: int, room: nat, after: set<Key>, i: nat)
    requires nas != [] && !Welcome(keys, nas[0], now, maxSize) && |keys| <= maxSize
    requires TakenUpTo(keys, nas[1..], now, maxSize, room, after, i)
    ensures TakenUpTo(keys, nas, now, maxSize, room, after, i + 1)
  {
    UsableMore(nas, now, i);
  }

  lemma SameSize(keys: set<Key>, after: set<Key>)
    requires keys <= after && |after| <= |keys|
    ensures keys == after
  {
    assert after == keys + (after - keys);
  }

  // ---------------------------------------------------------------------------
  // Runs.

  datatype Event =
    | Result(key: Key, failed: bool, nas: seq<NetAddr>, now: int)
    | Audit(delay: nat, maxStart: nat)

  /** A node's standing after one result; `hit` if it is the node that was crawled. */
  function AfterResult(s: Standing, hit: bool, failed: bool, full: bool): Standing {
    if !hit then s else if failed then AfterFailure(s, full) else CONFIRMED
  }

  /** What has happened: an event, and whether the list was full when it came. */
  datatype Happening = Happening(event: Event, full: bool)

  predicate Hits(h: Happening, key: Key) {
    h.event.Result? && h.event.key == key
  }

  function AfterHappening(s: Standing, h: Happening, key: Key): Standing {
    if Hits(h, key) then AfterResult(s, true, h.event.failed, h.full) else s
  }

  /** The standing of a node that is in the list from `since` on, where it began as `s`. */
  function After(s: Standing, history: seq<Happening>, since: nat, key: Key): Standing {
    if |history| <= since then s
    else AfterHappening(After(s, history[..|history| - 1], since, key), history[|history| - 1], key)
  }

  /** A crawl of it succeeded. */
  ghost predicate Succeeded(history: seq<Happening>, since: nat, key: Key) {
    exists i | since <= i < |history| :: Hits(history[i], key) && !history[i].event.failed
  }

  /** Its failures since its last success, or since it was listed; for each, whether the list
      was full. */
  function InARow(history: seq<Happening>, since: nat, key: Key): seq<bool> {
    if |history| <= since then []
    else
      var h := history[|history| - 1];
      var before := InARow(history[..|history| - 1], since, key);
      if !Hits(h, key) then before else if h.event.failed then before + [h.full] else []
  }

  lemma SucceededStep(history: seq<Happening>, since: nat, key: Key)
    requires since < |history|
    ensures var n := |history| - 1;
      Succeeded(history, since, key)
      <==> Succeeded(history[..n], since, key) || (Hits(history[n], key) && !history[n].event.failed)
  {
    var n := |history| - 1;
    if Succeeded(history, since, key) {
      var i :| since <= i < |history| && Hits(history[i], key) && !history[i].event.failed;
      assert i < n ==> history[..n][i] == history[i];
    }
    if Succeeded(history[..n], since, key) {
      var i :| since <= i < n && Hits(history[..n][i], key) && !history[..n][i].event.failed;
      assert history[i] == history[..n][i];
    }
  }

  /** Whatever happens to other nodes in between, a listed node stands as its failures since
      its last success say. */
  lemma {:induction false} StandingTellsFailures(s: Standing, history: seq<Happening>, since: nat, key: Key)
    ensures After(s, history, since, key)
            == AfterFailures(if Succeeded(history, since, key) then CONFIRMED else s, InARow(history, since, key))
  {
    if since < |history| {
      var n := |history| - 1;
      StandingTellsFailures(s, history[..n], since, key);
      SucceededStep(history, since, key);
      var row := InARow(history[..n], since, key);
      assert (row + [history[n].full])[..|row|] == row;
    }
  }

  /** A node that was ever confirmed is no good exactly from its sixth failure in a row on. */
  lemma FailuresInARow(s: Standing, history: seq<Happening>, since: nat, key: Key)
    requires s == CONFIRMED || Succeeded(history, since, key)
    ensures var n := |InARow(history, since, key)|;
      After(s, history, since, key).status == if n <= 1 then CG else if n <= 5 then WG else NG
  {
    StandingTellsFailures(s, history, since, key);
    SixthFailureIsFatal(InARow(history, since, key));
  }

  /** A node is as its story says: listed since `since`, and from the start if that is 0. */
  ghost predicate Told(s: Standing, start: map<Key, Standing>, history: seq<Happening>, since: nat, key: Key) {
    && since <= |history| && (since == 0 ==> key in start)
    && s == After(if since == 0 then start[key] else FRESH, history, since, key)
  }

  lemma ToldOn(s: Standing, start: map<Key, Standing>, history: seq<Happening>, since: nat, key: Key, h: Happening,
               now: Standing)
    requires Told(s, start, history, since, key) && now == AfterHappening(s, h, key)
    ensures Told(now, start, history + [h], since, key)
  {
    assert (history + [h])[..|history|] == history;
  }

  ghost predicate AllTold(scores: map<Key, Standing>, start: map<Key, Standing>, history: seq<Happening>,
                          since: map<Key, nat>)
  {
    && since.Keys == scores.Keys
    && forall k | k in scores :: Told(scores[k], start, history, since[k], k)
  }

  /** What one event does to the list: the nodes that stay stand as it leaves them, and the
      others are new. */
  ghost predicate Carried(before: map<Key, Standing>, h: Happening, after: map<Key, Standing>) {
    forall k | k in after :: after[k] == if k in before then AfterHappening(before[k], h, k) else FRESH
  }

  lemma CarriedIs(before: map<Key, Standing>, h: Happening, after: map<Key, Standing>)
    requires h.event.Result?
    requires forall k | k in after ::
      after[k] == if k in before then AfterResult(before[k], k == h.event.key, h.event.failed, h.full) else FRESH
    ensures Carried(before, h, after)
  {
  }

  function SinceAfter(since: map<Key, nat>, keys: set<Key>, now: nat): map<Key, nat> {
    map k | k in keys :: if k in since then since[k] else now
  }

  lemma StoriesGoOn(before: map<Key, Standing>, start: map<Key, Standing>, history: seq<Happening>,
                    since: map<Key, nat>, h: Happening, after: map<Key, Standing>)
    requires AllTold(before, start, history, since) && Carried(before, h, after)
    ensures AllTold(after, start, history + [h], SinceAfter(since, after.Keys, |history| + 1))
  {
    var from := SinceAfter(since, after.Keys, |history| + 1);
    forall k | k in after
      ensures Told(after[k], start, history + [h], from[k], k)
    {
      if k in before {
        ToldOn(before[k], start, history, since[k], k, h, after[k]);
      } else {
        JoinedNow(start, history + [h], k);
      }
    }
  }

  lemma ToldByFailures(s: Standing, start: map<Key, Standing>, history: seq<Happening>, since: nat, key: Key)
    requires Told(s, start, history, since, key) && Succeeded(history, since, key)
    ensures s == AfterFailures(CONFIRMED, InARow(history, since, key))
  {
    StandingTellsFailures(if since == 0 then start[key] else FRESH, history, since, key);
  }

  lemma JoinedNow(start: map<Key, Standing>, history: seq<Happening>, key: Key)
    requires history != []
    ensures Told(FRESH, start, history, |history|, key)
  {
  }

  // ---------------------------------------------------------------------------
  // Audits.

  /** The most confirmed nodes an audit leaves: three quarters of what can be crawled
      within one delay. */
  function ConfirmedGoal(delay: nat, maxStart: nat): nat {
    (delay / CRAWL_DELAY) * maxStart * 3 / 4
  }

  ghost function Having(keys: set<Key>, scores: map<Key, Standing>, status: Status): set<Key> {
    set k | k in keys && k in scores && scores[k].status == status
  }

  ghost function Confirmed(keys: set<Key>, scores: map<Key, Standing>): set<Key> {
    Having(keys, scores, CG)
  }

  /** How an audit treats a node that is not a confirmed one. */
  predicate Purged(s: Standing, full: bool) {
    s.status == NG && (s.fails > MAX_FAILS || full)
  }

  ghost predicate RightlyKept(k: Key, kept: set<Key>, scores: map<Key, Standing>, full: bool) {
    k in scores && scores[k].status != CG ==> (k in kept <==> !Purged(scores[k], full))
  }

  /** What an audit may leave of the nodes it has looked at. */
  ghost predicate Audited(kept: set<Key>, seen: set<Key>, scores: map<Key, Standing>, full: bool, goal: int) {
    && kept <= seen <= scores.Keys
    && (forall k | k in seen :: RightlyKept(k, kept, scores, full))
    && |Confirmed(kept, scores)| == Min(|Confirmed(seen, scores)|, goal)
  }

  lemma ConfirmedPlus(keys: set<Key>, scores: map<Key, Standing>, k: Key)
    requires k in scores && k !in keys
    ensures Confirmed(keys + {k}, scores) == Confirmed(keys, scores) + if scores[k].status == CG then {k} else {}
    ensures |Confirmed(keys + {k}, scores)| == |Confirmed(keys, scores)| + if scores[k].status == CG then 1 else 0
  {
  }

  lemma AuditedMore(kept: set<Key>, seen: set<Key>, scores: map<Key, Standing>, full: bool, goal: int, k: Key,
                    stays: bool)
    requires Audited(kept, seen, scores, full, goal) && k in scores && k !in seen && 0 <= goal
    requires stays
      <==> if scores[k].status == CG then |Confirmed(seen, scores)| + 1 <= goal else !Purged(scores[k], full)
    ensures Audited(if stays then kept + {k} else kept, seen + {k}, scores, full, goal)
    ensures |Confirmed(seen + {k}, scores)| == |Confirmed(seen, scores)| + if scores[k].status == CG then 1 else 0
  {
    var more := if stays then kept + {k} else kept;
    CountMore(kept, seen, scores, goal, k, stays, more);
    RightlyKeptMore(more, kept, seen, scores, full, k);
  }

  lemma CountMore(kept: set<Key>, seen: set<Key>, scores: map<Key, Standing>, goal: int, k: Key, stays: bool,
                  more: set<Key>)
    requires |Confirmed(kept, scores)| == Min(|Confirmed(seen, scores)|, goal)
    requires k in scores && k !in seen && k !in kept && more == if stays then kept + {k} else kept
    requires scores[k].status == CG ==> (stays <==> |Confirmed(seen, scores)| + 1 <= goal)
    ensures |Confirmed(more, scores)| == Min(|Confirmed(seen + {k}, scores)|, goal)
    ensures |Confirmed(seen + {k}, scores)| == |Confirmed(seen, scores)| + if scores[k].status == CG then 1 else 0
  {
    ConfirmedPlus(seen, scores, k);
    ConfirmedPlus(kept, scores, k);
  }

  lemma RightlyKeptMore(more: set<Key>, kept: set<Key>, seen: set<Key>, scores: map<Key, Standing>, full: bool, k: Key)
    requires forall j | j in seen :: RightlyKept(j, kept, scores, full)
    requires k !in seen && (more == kept || more == kept + {k}) && RightlyKept(k, more, scores, full)
    ensures forall j | j in seen + {k} :: RightlyKept(j, more, scores, full)
  {
    forall j | j in seen
      ensures RightlyKept(j, more, scores, full)
    {
      assert RightlyKept(j, kept, scores, full);
    }
  }

  /** In the middle of an audit the list holds what was kept and what is left to look at. */
  ghost predicate Halfway(list: set<Key>, kept: set<Key>, seen: set<Key>, left: set<Key>, all: set<Key>) {
    kept !! left && seen !! left && seen + left == all && list == kept + left
  }

  lemma OneFurther(list: set<Key>, kept: set<Key>, seen: set<Key>, left: set<Key>, all: set<Key>, k: Key, stays: bool)
    requires Halfway(list, kept, seen, left, all) && k in left
    ensures k in list && k in all && k !in seen && k !in kept && |left - {k}| < |left|
    ensures Halfway(if stays then list else list - {k}, if stays then kept + {k} else kept, seen + {k}, left - {k}, all)
  {
  }

  /** The state of an audit that has met `cg` confirmed nodes. */
  ghost predicate InAudit(list: set<Key>, kept: set<Key>, seen: set<Key>, left: set<Key>,
                          scores: map<Key, Standing>, full: bool, goal: int, cg: int) {
    forall g | Looking(g) ::
      Halfway(list, kept, seen, left, scores.Keys) && Audited(kept, seen, scores, full, goal)
        && cg == |Confirmed(seen, scores)|
  }

  lemma AuditStarts(scores: map<Key, Standing>, full: bool, goal: nat)
    ensures InAudit(scores.Keys, {}, {}, scores.Keys, scores, full, goal, 0)
  {
    assert Confirmed({}, scores) == {};
  }

  lemma AuditGoesOn(list: set<Key>, kept: set<Key>, seen: set<Key>, left: set<Key>,
                    scores: map<Key, Standing>, full: bool, goal: nat, cg: int, k: Key, stays: bool)
    requires InAudit(list, kept, seen, left, scores, full, goal, cg) && k in left
    ensures k in list && k in scores && 0 <= cg
    ensures (stays <==> if scores[k].status == CG then cg + 1 <= goal else !Purged(scores[k], full)) ==>
      InAudit(if stays then list else list - {k}, if stays then kept + {k} else kept, seen + {k}, left - {k},
              scores, full, goal, cg + if scores[k].status == CG then 1 else 0)
  {
    assert Looking(true);
    OneFurther(list, kept, seen, left, scores.Keys, k, stays);
    if stays <==> if scores[k].status == CG then cg + 1 <= goal else !Purged(scores[k], full) {
      AuditedMore(kept, seen, scores, full, goal, k, stays);
    }
  }

  lemma AuditEnds(list: set<Key>, kept: set<Key>, seen: set<Key>, scores: map<Key, Standing>, full: bool, goal: nat,
                  cg: int)
    requires InAudit(list, kept, seen, {}, scores, full, goal, cg)
    ensures Audited(list, scores.Keys, scores, full, goal) && |list| <= |scores.Keys|
  {
    assert Looking(true);
    assert list == kept && seen == scores.Keys;
    SubsetIsSmaller(list, scores.Keys);
  }

  /** What an audit has done, node by node. */
  lemma AuditTells(kept: set<Key>, scores: map<Key, Standing>, full: bool, delay: nat, maxStart: nat)
    requires Audited(kept, scores.Keys, scores, full, ConfirmedGoal(delay, maxStart))
    ensures Having(scores.Keys, scores, RG) <= kept && Having(scores.Keys, scores, WG) <= kept
    ensures forall k | k in Having(scores.Keys, scores, NG) :: k in kept <==> scores[k].fails <= 58 && !full
    ensures var most, left := |Confirmed(scores.Keys, scores)|, |Confirmed(kept, scores)|;
      && left <= most && 4 * left <= 3 * (delay / 22 * maxStart)
      && (left < most ==> 3 * (delay / 22 * maxStart) < 4 * (left + 1))
  {
    forall k | k in scores && scores[k].status != CG
      ensures k in kept <==> !Purged(scores[k], full)
    {
      assert RightlyKept(k, kept, scores, full);
    }
  }

  lemma SubsetIsSmaller(a: set<Key>, b: set<Key>)
    requires a <= b
    ensures |a| <= |b|
  {
    assert b == a + (b - a);
  }

  /** Nodes are added and none is lost or replaced. */
  ghost predicate Grew(was: map<Key, Node>, list: map<Key, Node>) {
    forall k | k in was :: k in list && list[k] == was[k]
  }

  /** Which nodes one event lists. */
  ghost predicate ListedBy(before: map<Key, Standing>, event: Event, keys: set<Key>, maxSize: int) {
    match event
    case Result(key, failed, nas, now) =>
      keys == if key in before && !failed && |before| < maxSize
        then Filled(before.Keys, nas, now, maxSize, maxSize / 3 + 1) else before.Keys
    case Audit(delay, maxStart) =>
      Audited(keys, before.Keys, before, |before| > maxSize, ConfirmedGoal(delay, maxStart))
  }

  /** One event, for the whole list: which nodes it lists and how they stand. */
  ghost predicate Stepped(before: map<Key, Standing>, event: Event, after: map<Key, Standing>, maxSize: int) {
    && Carried(before, Happening(event, |before| > maxSize), after)
    && ListedBy(before, event, after.Keys, maxSize)
  }

  /** The standings of the list before each event and after the last; an event finds the list
      full if it is longer than its size then. */
  ghost predicate Path(states: seq<map<Key, Standing>>, history: seq<Happening>, maxSize: int) {
    |states| == |history| + 1 && forall i | 0 <= i < |history| :: PathAt(states, history, maxSize, i)
  }

  ghost predicate PathAt(states: seq<map<Key, Standing>>, history: seq<Happening>, maxSize: int, i: nat)
    requires i < |history| && |states| == |history| + 1
  {
    && Stepped(states[i], history[i].event, states[i + 1], maxSize)
    && (history[i].full <==> |states[i]| > maxSize)
  }

  lemma PathOn(states: seq<map<Key, Standing>>, history: seq<Happening>, maxSize: int, h: Happening,
               next: map<Key, Standing>)
    requires Path(states, history, maxSize) && Stepped(states[|history|], h.event, next, maxSize)
    requires h.full <==> |states[|history|]| > maxSize
    ensures Path(states + [next], history + [h], maxSize)
  {
    var more, longer := states + [next], history + [h];
    forall i | 0 <= i < |longer|
      ensures PathAt(more, longer, maxSize, i)
    {
      assert i < |history| ==> PathAt(states, history, maxSize, i);
    }
  }

  ghost predicate AllInPlace(list: map<Key, Node>, was: map<Key, Node>, since: map<Key, nat>) {
    forall k | k in list ::
      k in since && if since[k] == 0 then k in was && list[k] == was[k] else list[k] !in was.Values
  }

  lemma StillInPlace(list: map<Key, Node>, was: map<Key, Node>, since: map<Key, nat>, now: map<Key, Node>, n: nat)
    requires AllInPlace(list, was, since) && since.Keys == list.Keys && 0 < n
    requires forall k | k in now :: if k in list then now[k] == list[k] else now[k] !in was.Values
    ensures AllInPlace(now, was, SinceAfter(since, now.Keys, n))
  {
  }

  /** A run so far: i events, and how the list stood in between; looked into only where
      `Looking` is written. */
  ghost predicate Recorded(events: seq<Event>, i: nat, history: seq<Happening>, states: seq<map<Key, Standing>>,
                           start: map<Key, Standing>, maxSize: int) {
    forall g | Looking(g) ::
      && |history| == i <= |events| && (forall j | 0 <= j < i :: history[j].event == events[j])
      && Path(states, history, maxSize) && states[0] == start
  }

  class DnsSeeder {
    const maxSize: int
    const port: bv16
    var theList: map<Key, Node>

    /** Every node is filed under its own address, so its crawl results find it, and is
        served as that address says. */
    ghost predicate Filed()
      reads this, theList.Values
    {
      forall k | k in theList :: KeyOf(theList[k].na) == k && theList[k].Classified(port)
    }

    ghost predicate Valid()
      reads this, theList.Values
    {
      && Filed() && (forall k | k in theList :: Sound(theList[k].Score()))
      && |theList| <= Max(maxSize, -1) + 1
    }

    constructor (maxSize: int, port: bv16)
      ensures Valid() && theList == map[] && this.maxSize == maxSize && this.port == port
    {
      this.maxSize, this.port, theList := maxSize, port, map[];
    }

    /** The class of a node is that of its address and port, and a fake address goes with a
        port of its own. */
    method NewNode(na: NetAddr) returns (nt: Node)
      ensures nt.dnsType in {V4Std, V4Non} <==> To4(na.ip).Some?
      ensures nt.dnsType in {V4Std, V6Std} <==> na.port == port
      ensures nt.nonstdIP == [] <==> na.port == port
      ensures fresh(nt) && KeyOf(nt.na) == KeyOf(na) && nt.Score() == FRESH && nt.Classified(port)
      ensures nt.dnsType == TypeOf(na.ip, na.port, port) && nt.nonstdIP == FakeOf(na.ip, na.port, port)
    {
      nt := new Node(na);
      nt.Classify(port);
    }

    method Put(nt: Node)
      requires Valid() && |theList| <= maxSize && KeyOf(nt.na) !in theList && nt.Score() == FRESH && nt.Classified(port)
      modifies this`theList
      ensures Valid() && theList == old(theList)[KeyOf(nt.na) := nt]
    {
      theList := theList[KeyOf(nt.na) := nt];
    }

    method AddNa(na: NetAddr, now: int) returns (added: bool)
      requires Valid()
      modifies this`theList
      ensures Valid()
      ensures added <==>
        && |old(theList)| <= maxSize && KeyOf(na) !in old(theList)
        && 0 < na.port < 65535 && now - 86400 <= na.timestamp
      ensures !added ==> theList == old(theList)
      ensures added ==>
        && theList.Keys == old(theList).Keys + {KeyOf(na)}
        && fresh(theList[KeyOf(na)]) && theList[KeyOf(na)].Score() == FRESH
        && theList[KeyOf(na)].dnsType == TypeOf(na.ip, na.port, port)
        && theList[KeyOf(na)].nonstdIP == FakeOf(na.ip, na.port, port)
        && Grew(old(theList), theList)
    {
      if |theList| > maxSize {
        return false;
      }
      var k := KeyOf(na);
      if k in theList {
        return false;
      }
      if na.port <= 0 || na.port >= 0xFFFF {
        return false;
      }
      if now - DAY > na.timestamp {
        return false;
      }
      var nt := NewNode(na);
      Put(nt);
      added := true;
    }

    /** The same, as far as the list goes. */
    method Offer(na: NetAddr, now: int) returns (added: bool)
      requires Valid()
      modifies this`theList
      ensures Valid() && (added <==> Welcome(old(theList).Keys, na, now, maxSize))
      ensures !added ==> theList == old(theList)
      ensures added ==>
        && theList.Keys == old(theList).Keys + {KeyOf(na)} && Grew(old(theList), theList)
        && fresh(theList[KeyOf(na)]) && theList[KeyOf(na)].Score() == FRESH
    {
      assert |theList| == |theList.Keys|;
      added := AddNa(na, now);
    }

    ghost function At(key: Key): Node
      requires key in theList
      reads this`theList
    {
      theList[key]
    }

    lemma OwnNode(key: Key)
      requires Filed() && key in theList
      ensures forall k | k in theList && k != key :: theList[k] != theList[key]
    {
    }

    /** A failed crawl changes the standing of its node and nothing else. */
    method ProcessFailure(key: Key)
      requires Valid() && key in theList
      modifies At(key)`status, At(key)`rating, At(key)`connectFails
      ensures Valid()
      ensures forall k | k in theList ::
        theList[k].Score() == AfterResult(old(theList[k].Score()), k == key, true, |theList| > maxSize)
    {
      OwnNode(key);
      SoundAfterFailure(theList[key].Score(), |theList| > maxSize);
      theList[key].Fail(|theList| > maxSize);
    }

    method Confirm(key: Key)
      requires Valid() && key in theList
      modifies At(key)`status, At(key)`rating, At(key)`connectFails
      ensures Valid() && theList[key].Score() == CONFIRMED
      ensures forall k | k in theList && k != key :: theList[k].Score() == old(theList[k].Score())
    {
      OwnNode(key);
      theList[key].Succeed();
    }

    /** New addresses become reported nodes, until one more than a third has been added. */
    method TakeIn(nas: seq<NetAddr>, now: int, oneThird: int)
      requires Valid() && 0 <= oneThird
      modifies this`theList
      ensures Valid() && theList.Keys == Filled(old(theList).Keys, nas, now, maxSize, oneThird + 1)
      ensures Grew(old(theList), theList)
      ensures forall k | k in theList && k !in old(theList) :: fresh(theList[k]) && theList[k].Score() == FRESH
    {
      var added := 0;
      var rest := nas;
      ghost var filled := Filled(theList.Keys, nas, now, maxSize, oneThird + 1);
      ghost var keys, room := theList.Keys, oneThird + 1;
      while rest != []
        invariant Valid() && 0 <= added <= oneThird
        invariant Grew(old(theList), theList)
        invariant forall k | k in theList && k !in old(theList) :: fresh(theList[k]) && theList[k].Score() == FRESH
        invariant keys == theList.Keys && room == oneThird + 1 - added
        invariant Filled(keys, rest, now, maxSize, room) == filled
        decreases |rest|
      {
        FilledStep(keys, rest, now, maxSize, room);
        var x := Offer(rest[0], now);
        if x {
          keys, room := keys + {KeyOf(rest[0])}, room - 1;
        }
        assert keys == theList.Keys;
        rest := rest[1..];
        if x {
          added := added + 1;
          if added > oneThird {
            break;
          }
        }
      }
    }

    /** A successful crawl confirms its node; the addresses that came with it are new nodes,
        as far as there is room. */
    method ProcessSuccess(key: Key, nas: seq<NetAddr>, now: int)
      requires Valid() && key in theList
      modifies this`theList, At(key)`status, At(key)`rating, At(key)`connectFails
      ensures Valid() && theList.Keys == if |old(theList)| < maxSize
        then Filled(old(theList).Keys, nas, now, maxSize, maxSize / 3 + 1) else old(theList).Keys
      ensures Grew(old(theList), theList)
      ensures forall k | k in old(theList) ::
        theList[k].Score() == AfterResult(old(theList[k].Score()), k == key, false, |old(theList)| > maxSize)
      ensures forall k | k in theList && k !in old(theList) :: fresh(theList[k]) && theList[k].Score() == FRESH
    {
      Confirm(key);
      TakeInIfRoom(nas, now);
    }

    method TakeInIfRoom(nas: seq<NetAddr>, now: int)
      requires Valid()
      modifies this`theList
      ensures Valid() && theList.Keys == if |old(theList)| < maxSize
        then Filled(old(theList).Keys, nas, now, maxSize, maxSize / 3 + 1) else old(theList).Keys
      ensures Grew(old(theList), theList)
      ensures forall k | k in theList && k !in old(theList) :: fresh(theList[k]) && theList[k].Score() == FRESH
    {
      if |theList| < maxSize {
        TakeIn(nas, now, maxSize / 3);
      }
    }

    ghost function Scores(): map<Key, Standing>
      reads this, theList.Values
    {
      map k | k in theList :: theList[k].Score()
    }

    ghost function Keys(status: Status): set<Key>
      reads this, theList.Values
    {
      set k | k in theList && theList[k].status == status
    }

    /** auditNodes.  Nodes that were reported or were good stay, no good ones if they failed at
        most 58 times and the list is not full, and of the confirmed ones as many as can be
        crawled in three quarters of a delay. */
    method AuditNodes(delay: nat, maxStart: nat)
      requires Valid()
      modifies this`theList
      ensures Valid() && forall k | k in theList :: k in old(theList) && theList[k] == old(theList)[k]
      ensures Audited(theList.Keys, old(theList).Keys, old(Scores()), |old(theList)| > maxSize,
                      ConfirmedGoal(delay, maxStart))
      ensures old(Keys(RG)) <= theList.Keys && old(Keys(WG)) <= theList.Keys
      ensures forall k | k in old(Keys(NG)) ::
                k in theList <==> old(theList[k].connectFails) <= 58 && |old(theList)| <= maxSize
      ensures |Keys(CG)| <= |old(Keys(CG))| && 4 * |Keys(CG)| <= 3 * (delay / 22 * maxStart)
      ensures |Keys(CG)| < |old(Keys(CG))| ==> 3 * (delay / 22 * maxStart) < 4 * (|Keys(CG)| + 1)
    {
      ghost var scores := Scores();
      ghost var list := theList;
      assert scores.Keys == list.Keys;
      KeysAre(scores, RG);
      KeysAre(scores, WG);
      KeysAre(scores, NG);
      KeysAre(scores, CG);
      AuditEach(delay, maxStart);
      AuditTells(theList.Keys, scores, |list| > maxSize, delay, maxStart);
      assert forall k | k in theList :: theList[k].Score() == scores[k];
      KeysAre(scores, CG);
    }

    lemma KeysAre(scores: map<Key, Standing>, status: Status)
      requires forall k | k in theList :: k in scores && theList[k].Score() == scores[k]
      ensures Keys(status) == Having(theList.Keys, scores, status)
    {
      forall k
        ensures k in Keys(status) <==> k in Having(theList.Keys, scores, status)
      {
      }
    }

    /** Nodes are met in any order. */
    method AuditEach(delay: nat, maxStart: nat)
      requires Valid()
      modifies this`theList
      ensures Valid() && forall k | k in theList :: k in old(theList) && theList[k] == old(theList)[k]
      ensures Audited(theList.Keys, old(theList).Keys, old(Scores()), |old(theList)| > maxSize,
                      ConfirmedGoal(delay, maxStart))
    {
      var iAmFull := |theList| > maxSize;
      var cgGoal := ConfirmedGoal(delay, maxStart);
      var cgCount := 0;
      var left := theList.Keys;
      ghost var scores := Scores();
      assert scores.Keys == theList.Keys;
      ghost var kept, seen := {}, {};
      AuditStarts(scores, iAmFull, cgGoal);
      while left != {}
        modifies this`theList
        invariant InAudit(theList.Keys, kept, seen, left, scores, iAmFull, cgGoal, cgCount)
        invariant forall k | k in theList :: k in old(theList) && theList[k] == old(theList)[k]
        decreases |left|
      {
        var k :| k in left;
        AuditGoesOn(theList.Keys, kept, seen, left, scores, iAmFull, cgGoal, cgCount, k, true);
        assert scores[k] == old(theList[k].Score());
        ghost var before := cgCount;
        var purge;
        purge, cgCount := InspectNode(theList[k], iAmFull, cgCount, cgGoal);
        AuditGoesOn(theList.Keys, kept, seen, left, scores, iAmFull, cgGoal, before, k, !purge);
        left, seen := left - {k}, seen + {k};
        if purge {
          theList := Without(theList, k);
        } else {
          kept := kept + {k};
        }
      }
      AuditEnds(theList.Keys, kept, seen, scores, iAmFull, cgGoal, cgCount);
      assert |theList| == |theList.Keys| <= |old(theList).Keys| == |old(theList)|;
      StillValid();
    }

    /** Taking nodes out of the list keeps it valid. */
    twostate lemma StillValid()
      requires old(Valid()) && |theList| <= |old(theList)|
      requires forall k | k in theList :: k in old(theList) && theList[k] == old(theList)[k] && unchanged(theList[k])
      ensures Valid()
    {
      forall k | k in theList
        ensures KeyOf(theList[k].na) == k && theList[k].Classified(port) && Sound(theList[k].Score())
      {
        assert unchanged(old(theList)[k]);
      }
    }

    /** The checks an audit makes on one node. */
    method InspectNode(nd: Node, iAmFull: bool, confirmed: nat, cgGoal: nat) returns (purge: bool, cgCount: nat)
      ensures cgCount == confirmed + if nd.Score().status == CG then 1 else 0
      ensures purge <==> if nd.Score().status == CG then cgCount > cgGoal else Purged(nd.Score(), iAmFull)
    {
      cgCount, purge := confirmed, false;
      if nd.status == NG && nd.connectFails > MAX_FAILS {
        purge := true;
      }
      if nd.status == NG && iAmFull {
        purge := true;
      }
      if nd.status == CG {
        cgCount := cgCount + 1;
        if cgCount > cgGoal {
          purge := true;
        }
      }
    }

    /** One result adds at most one more than a third of the list's size, and at no time is
        the list longer than one more than its size. */
    method ProcessResult(key: Key, failed: bool, nas: seq<NetAddr>, now: int)
      requires Valid()
      modifies this`theList, theList.Values`status, theList.Values`rating, theList.Values`connectFails
      ensures Valid() && |theList| <= Bound(|old(theList)|, maxSize)
      ensures key !in old(theList) || failed ==> theList == old(theList)
      ensures theList.Keys == if key in old(theList) && !failed && |old(theList)| < maxSize
        then Filled(old(theList).Keys, nas, now, maxSize, maxSize / 3 + 1) else old(theList).Keys
      ensures key in old(theList) && !failed && |old(theList)| < maxSize ==>
        TakesInOrder(old(theList).Keys, nas, now, maxSize, maxSize / 3 + 1, theList.Keys)
      ensures Grew(old(theList), theList)
      ensures forall k | k in old(theList) ::
        theList[k].Score() == AfterResult(old(theList[k].Score()), k == key, failed, |old(theList)| > maxSize)
      ensures forall k | k in theList && k !in old(theList) :: fresh(theList[k]) && theList[k].Score() == FRESH
    {
      ghost var was := theList.Keys;
      UpdateNode(key, failed, nas, now);
      ListAfterResult(was, theList.Keys, key, failed, nas, now);
    }

    lemma ListAfterResult(was: set<Key>, keys: set<Key>, key: Key, failed: bool, nas: seq<NetAddr>, now: int)
      requires keys == if key in was && !failed && |was| < maxSize
        then Filled(was, nas, now, maxSize, maxSize / 3 + 1) else was
      ensures |keys| <= Bound(|was|, maxSize)
      ensures key in was && !failed && |was| < maxSize ==>
        TakesInOrder(was, nas, now, maxSize, maxSize / 3 + 1, keys)
    {
      if key in was && !failed && |was| < maxSize {
        SizeAfterSuccess(was, keys, nas, now, maxSize);
        FilledTakes(was, nas, now, maxSize, maxSize / 3 + 1);
      }
    }

    method UpdateNode(key: Key, failed: bool, nas: seq<NetAddr>, now: int)
      requires Valid()
      modifies this`theList, theList.Values`status, theList.Values`rating, theList.Values`connectFails
      ensures Valid()
      ensures key !in old(theList) || failed ==> theList == old(theList)
      ensures theList.Keys == if key in old(theList) && !failed && |old(theList)| < maxSize
        then Filled(old(theList).Keys, nas, now, maxSize, maxSize / 3 + 1) else old(theList).Keys
      ensures Grew(old(theList), theList)
      ensures forall k | k in old(theList) ::
        theList[k].Score() == AfterResult(old(theList[k].Score()), k == key, failed, |old(theList)| > maxSize)
      ensures forall k | k in theList && k !in old(theList) :: fresh(theList[k]) && theList[k].Score() == FRESH
    {
      if key !in theList {
        return;
      }
      if failed {
        ProcessFailure(key);
        return;
      }
      ProcessSuccess(key, nas, now);
    }

    lemma ScoresCoverTheList()
      ensures Scores().Keys == theList.Keys && |Scores()| == |theList|
    {
      assert Scores().Keys == theList.Keys;
      assert |Scores()| == |Scores().Keys| == |theList.Keys| == |theList|;
    }

    method HandleResult(event: Event) returns (ghost happened: Happening)
      requires Valid() && event.Result?
      modifies this`theList, theList.Values`status, theList.Values`rating, theList.Values`connectFails
      ensures Valid() && happened == Happening(event, |old(theList)| > maxSize)
      ensures Carried(old(Scores()), happened, Scores())
      ensures theList.Keys == if event.key in old(theList) && !event.failed && |old(theList)| < maxSize
        then Filled(old(theList).Keys, event.nas, event.now, maxSize, maxSize / 3 + 1) else old(theList).Keys
      ensures forall k | k in theList :: if k in old(theList) then theList[k] == old(theList)[k] else fresh(theList[k])
    {
      happened := Happening(event, |theList| > maxSize);
      ghost var before := Scores();
      ProcessResult(event.key, event.failed, event.nas, event.now);
      CarriedIs(before, happened, Scores());
    }

    method HandleAudit(event: Event) returns (ghost happened: Happening)
      requires Valid() && event.Audit?
      modifies this`theList
      ensures Valid() && happened == Happening(event, |old(theList)| > maxSize)
      ensures Carried(old(Scores()), happened, Scores())
      ensures Audited(theList.Keys, old(theList).Keys, old(Scores()), |old(theList)| > maxSize,
                      ConfirmedGoal(event.delay, event.maxStart))
      ensures forall k | k in theList :: k in old(theList) && theList[k] == old(theList)[k]
    {
      happened := Happening(event, |theList| > maxSize);
      ghost var before := Scores();
      AuditNodes(event.delay, event.maxStart);
      assert Carried(before, happened, Scores());
    }

    /** One event. */
    method Handle(event: Event) returns (ghost happened: Happening)
      requires Valid()
      modifies this`theList, theList.Values`status, theList.Values`rating, theList.Values`connectFails
      ensures Valid() && happened == Happening(event, |old(Scores())| > maxSize)
      ensures Stepped(old(Scores()), event, Scores(), maxSize)
      ensures forall k | k in theList :: if k in old(theList) then theList[k] == old(theList)[k] else fresh(theList[k])
    {
      ghost var before := Scores();
      ScoresCoverTheList();
      if event.Result? {
        happened := HandleResult(event);
      } else {
        happened := HandleAudit(event);
      }
      ScoresCoverTheList();
      assert ListedBy(before, event, theList.Keys, maxSize);
    }

    /** The nodes listed since 0 are those of `was`, and no others are. */
    ghost predicate InPlace(was: map<Key, Node>, since: map<Key, nat>)
      reads this`theList
    {
      AllInPlace(theList, was, since)
    }

    /** A run in the middle, looked into only where `Looking` is written. */
    ghost predicate Going(start: map<Key, Standing>, was: map<Key, Node>, history: seq<Happening>, since: map<Key, nat>,
                          scores: map<Key, Standing>)
      reads this, theList.Values
    {
      forall g | Looking(g) ::
        Valid() && scores == Scores() && AllTold(scores, start, history, since) && InPlace(was, since)
    }

    /** The same, and how the stories of all nodes go on. */
    method Tell(event: Event, ghost start: map<Key, Standing>, ghost was: map<Key, Node>,
                ghost history: seq<Happening>, ghost since: map<Key, nat>, ghost scores: map<Key, Standing>)
      returns (ghost happened: Happening, ghost from: map<Key, nat>, ghost next: map<Key, Standing>)
      requires Going(start, was, history, since, scores)
      modifies this`theList, theList.Values`status, theList.Values`rating, theList.Values`connectFails
      ensures Going(start, was, history + [happened], from, next)
      ensures happened == Happening(event, |scores| > maxSize) && Stepped(scores, event, next, maxSize)
      ensures forall k | k in theList :: theList[k] in old(theList).Values || fresh(theList[k])
    {
      assert Looking(true);
      ScoresCoverTheList();
      ghost var list := theList;
      happened := Handle(event);
      next := Scores();
      ScoresCoverTheList();
      from := SinceAfter(since, theList.Keys, |history| + 1);
      StoriesGoOn(scores, start, history, since, happened, next);
      StillInPlace(list, was, since, theList, |history| + 1);
    }

    lemma FailuresTell(start: map<Key, Standing>, history: seq<Happening>, since: map<Key, nat>)
      requires AllTold(Scores(), start, history, since)
      ensures forall k | k in theList && Succeeded(history, since[k], k) ::
        theList[k].Score() == AfterFailures(CONFIRMED, InARow(history, since[k], k))
    {
      forall k | k in theList && Succeeded(history, since[k], k)
        ensures theList[k].Score() == AfterFailures(CONFIRMED, InARow(history, since[k], k))
      {
        ToldByFailures(theList[k].Score(), start, history, since[k], k);
      }
    }

    /** The story of a run on, from where `start` and `was` were taken. */
    method TellAll(events: seq<Event>, ghost start: map<Key, Standing>, ghost was: map<Key, Node>,
                   ghost zero: map<Key, nat>)
      returns (ghost history: seq<Happening>, ghost since: map<Key, nat>, ghost states: seq<map<Key, Standing>>)
      requires Going(start, was, [], zero, start)
      modifies this`theList, theList.Values`status, theList.Values`rating, theList.Values`connectFails
      ensures |history| == |events| && forall i | 0 <= i < |events| :: history[i].event == events[i]
      ensures Path(states, history, maxSize) && states[0] == start
      ensures Going(start, was, history, since, states[|events|])
    {
      history, since, states := [], zero, [start];
      ghost var scores := start;
      for i := 0 to |events|
        invariant Recorded(events, i, history, states, start, maxSize) && Going(start, was, history, since, scores)
        invariant |states| == i + 1 && states[i] == scores
        invariant forall k | k in theList :: theList[k] in old(theList).Values || fresh(theList[k])
      {
        history, since, states, scores := TellNext(events, i, start, was, history, since, states, scores);
      }
      assert Looking(true);
    }

    method TellNext(events: seq<Event>, i: nat, ghost start: map<Key, Standing>, ghost was: map<Key, Node>,
                    ghost history: seq<Happening>, ghost since: map<Key, nat>, ghost states: seq<map<Key, Standing>>,
                    ghost scores: map<Key, Standing>)
      returns (ghost history': seq<Happening>, ghost since': map<Key, nat>, ghost states': seq<map<Key, Standing>>,
               ghost scores': map<Key, Standing>)
      requires i < |events| && |states| == i + 1 && states[i] == scores
      requires Recorded(events, i, history, states, start, maxSize) && Going(start, was, history, since, scores)
      modifies this`theList, theList.Values`status, theList.Values`rating, theList.Values`connectFails
      ensures Recorded(events, i + 1, history', states', start, maxSize)
      ensures Going(start, was, history', since', scores') && |states'| == i + 2 && states'[i + 1] == scores'
      ensures forall k | k in theList :: theList[k] in old(theList).Values || fresh(theList[k])
    {
      ghost var happened;
      happened, since', scores' := Tell(events[i], start, was, history, since, scores);
      assert Looking(true);
      PathOn(states, history, maxSize, happened, scores');
      history', states' := history + [happened], states + [scores'];
    }

    lemma StoryStarts(zero: map<Key, nat>)
      requires Valid() && zero.Keys == theList.Keys && forall k | k in zero :: zero[k] == 0
      ensures Going(Scores(), theList, [], zero, Scores())
    {
    }

    /** Every run of results and audits keeps the list within its bound, and every node in
        it, as long as it stays listed, stands as its own failures since its last success
        say, whatever happens to others.  `since` says when a node was listed, `history` what
        happened, and `states` how the list stood in between. */
    method Run(events: seq<Event>)
      returns (ghost history: seq<Happening>, ghost since: map<Key, nat>, ghost states: seq<map<Key, Standing>>)
      requires Valid()
      modifies this`theList, theList.Values`status, theList.Values`rating, theList.Values`connectFails
      ensures Valid() && |theList| <= Max(maxSize, -1) + 1
      ensures forall k | k in theList :: Sound(theList[k].Score())
      ensures |history| == |events| && forall i | 0 <= i < |events| :: history[i].event == events[i]
      ensures Path(states, history, maxSize) && states[0] == old(Scores()) && states[|events|] == Scores()
      ensures AllTold(Scores(), old(Scores()), history, since)
      ensures InPlace(old(theList), since)
      ensures forall k | k in theList && Succeeded(history, since[k], k) ::
        theList[k].Score() == AfterFailures(CONFIRMED, InARow(history, since[k], k))
    {
      ghost var start := Scores();
      ghost var zero: map<Key, nat> := map k | k in theList :: 0;
      StoryStarts(zero);
      history, since, states := TellAll(events, start, theList, zero);
      assert Looking(true);
      FailuresTell(start, history, since);
    }
  }
}
