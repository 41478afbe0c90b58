// Batched UTXO scanning (spv/batch_spend_reporter.go).

module BatchSpends {
  import opened Common
  import opened Wire

  type PkScript = int

  /** A caller's request to find out what happened to an outpoint.  The id stands
      for the identity of the request object. */
  datatype Request = Request(id: int, outpoint: OutPoint, pkScript: PkScript)

  datatype SpendReport =
    | Spent(tx: Tx, inputIndex: nat, height: nat)
    | Unspent(output: TxOut, blockHash: Hash, height: nat, blockIndex: nat)

  /** What one request is told.  No report and no failure means "not found". */
  datatype Delivery = Delivery(request: Request, report: Option<SpendReport>, failed: bool)

  // ---------------------------------------------------------------------------
  // What a scan for a single outpoint finds.

  function SpendingInput(ins: seq<TxIn>, op: OutPoint): Option<nat> {
    if ins == [] then None
    else
      var earlier := SpendingInput(ins[..|ins| - 1], op);
      if earlier.Some? then earlier else if ins[|ins| - 1].prev == op then Some(|ins| - 1) else None
  }

  /** The first spend in block, transaction and input order. */
  function FirstSpend(txs: seq<Tx>, op: OutPoint, height: nat): Option<SpendReport> {
    if txs == [] then None
    else
      var earlier := FirstSpend(txs[..|txs| - 1], op, height);
      if earlier.Some? then earlier
      else
        var tx := txs[|txs| - 1];
        var input := SpendingInput(tx.ins, op);
        if input.Some? then Some(Spent(tx, input.value, height)) else None
  }

  /** The first spend in the blocks from index `from` on. */
  function ScanFrom(blocks: seq<Block>, from: nat, op: OutPoint): Option<SpendReport> {
    if |blocks| <= from then None
    else
      var earlier := ScanFrom(blocks[..|blocks| - 1], from, op);
      if earlier.Some? then earlier else FirstSpend(blocks[|blocks| - 1].txs, op, blocks[|blocks| - 1].height)
  }

  function FirstTx(txs: seq<Tx>, hash: Hash): (index: Option<nat>)
    ensures index.Some? ==> index.value < |txs| && txs[index.value].hash == hash
  {
    if txs == [] then None
    else
      var earlier := FirstTx(txs[..|txs| - 1], hash);
      if earlier.Some? then earlier else if txs[|txs| - 1].hash == hash then Some(|txs| - 1) else None
  }

  /** The output itself, if the block creates it. */
  function Birth(block: Block, op: OutPoint): Option<SpendReport> {
    var index := FirstTx(block.txs, op.hash);
    if index.Some? && op.index < |block.txs[index.value].outs| then
      Some(Unspent(block.txs[index.value].outs[op.index], block.hash, block.height, index.value))
    else None
  }

  // ---------------------------------------------------------------------------
  // Histories of a batch.

  /** One call of ProcessBlock. */
  datatype Step = Step(block: Block, newReqs: seq<Request>)

  function Blocks(history: seq<Step>): (blocks: seq<Block>)
    ensures |blocks| == |history|
    ensures forall i | 0 <= i < |history| :: blocks[i] == history[i].block
  {
    seq(|history|, i requires 0 <= i < |history| => history[i].block)
  }

  /** Every request that has arrived, with its multiplicity. */
  function Arrived(history: seq<Step>): multiset<Request> {
    if history == [] then multiset{}
    else Arrived(history[..|history| - 1]) + multiset(history[|history| - 1].newReqs)
  }

  function Recipients(delivered: seq<Delivery>): multiset<Request> {
    if delivered == [] then multiset{}
    else Recipients(delivered[..|delivered| - 1]) + multiset{delivered[|delivered| - 1].request}
  }

  predicate Asks(reqs: seq<Request>, op: OutPoint) {
    exists i :: 0 <= i < |reqs| && reqs[i].outpoint == op
  }

  lemma AsksStep(reqs: seq<Request>, i: nat, op: OutPoint)
    requires i < |reqs|
    ensures Asks(reqs[..i + 1], op) <==> Asks(reqs[..i], op) || reqs[i].outpoint == op
  {
    if Asks(reqs[..i], op) {
      var k :| 0 <= k < i && reqs[..i][k].outpoint == op;
      assert reqs[..i + 1][k].outpoint == op;
    }
    assert reqs[..i + 1][i] == reqs[i];
  }

  /** The latest step at which some request for the outpoint arrived. */
  function LastAsked(history: seq<Step>, op: OutPoint): (k: Option<nat>)
    ensures k.Some? ==> k.value < |history| && Asks(history[k.value].newReqs, op)
  {
    if history == [] then None
    else if Asks(history[|history| - 1].newReqs, op) then Some(|history| - 1)
    else LastAsked(history[..|history| - 1], op)
  }

  /** The output an outpoint names, as the block of its latest request shows it. */
  function KnownBirth(history: seq<Step>, op: OutPoint): Option<SpendReport> {
    var last := LastAsked(history, op);
    if last.None? then None else Birth(history[last.value].block, op)
  }

  lemma KnownBirthStep(history: seq<Step>, step: Step, op: OutPoint)
    ensures KnownBirth(history + [step], op)
            == if Asks(step.newReqs, op) then Birth(step.block, op) else KnownBirth(history, op)
  {
    assert (history + [step])[..|history|] == history;
  }

  /** A request that arrived at step k has been told about the first spend from its
      own block on, or is still waiting if there is none. */
  ghost predicate Settled(history: seq<Step>, k: nat, r: Request, requests: map<OutPoint, seq<Request>>,
                          delivered: seq<Delivery>)
    requires k < |history|
  {
    match ScanFrom(Blocks(history), k, r.outpoint)
    case Some(report) => Delivery(r, Some(report), false) in delivered
    case None => r in Waiting(requests, r.outpoint)
  }

  /** What a block does to the lists and the answers. */
  ghost predicate BlockApplied(block: Block, before: map<OutPoint, seq<Request>>, after: map<OutPoint, seq<Request>>,
                               delivered: seq<Delivery>)
  {
    && after == before - (set op | op in before && FirstSpend(block.txs, op, block.height).Some?)
    && forall op, r | op in before && r in before[op] && FirstSpend(block.txs, op, block.height).Some? ::
         Delivery(r, FirstSpend(block.txs, op, block.height), false) in delivered
  }

  /** A request that is new, or was not yet answered, waits when the block comes. */
  lemma WaitsForBlock(newReqs: seq<Request>, isNew: bool, r: Request,
                      requests0: map<OutPoint, seq<Request>>, requests1: map<OutPoint, seq<Request>>)
    requires if isNew then r in newReqs else r in Waiting(requests0, r.outpoint)
    requires Joined(requests0, newReqs, requests1)
    ensures r in Waiting(requests1, r.outpoint)
  {
    ForCounts(newReqs, r);
    ForAsks(newReqs, r.outpoint);
  }

  lemma ScanOneMore(history: seq<Step>, step: Step, k: nat, op: OutPoint)
    requires k <= |history|
    ensures ScanFrom(Blocks(history + [step]), k, op)
            == if k < |history| && ScanFrom(Blocks(history), k, op).Some? then ScanFrom(Blocks(history), k, op)
               else FirstSpend(step.block.txs, op, step.block.height)
  {
    var blocks := Blocks(history + [step]);
    assert blocks[..|history|] == Blocks(history) && blocks[|history|] == step.block;
  }

  lemma SettledStep(history: seq<Step>, step: Step, k: nat, r: Request,
                    requests0: map<OutPoint, seq<Request>>, requests1: map<OutPoint, seq<Request>>,
                    requests2: map<OutPoint, seq<Request>>, delivered0: seq<Delivery>, delivered2: seq<Delivery>)
    requires k <= |history| && r in (history + [step])[k].newReqs
    requires k < |history| ==> Settled(history, k, r, requests0, delivered0)
    requires Joined(requests0, step.newReqs, requests1) && delivered0 <= delivered2
    requires BlockApplied(step.block, requests1, requests2, delivered2)
    ensures Settled(history + [step], k, r, requests2, delivered2)
  {
    ScanOneMore(history, step, k, r.outpoint);
    if k == |history| || ScanFrom(Blocks(history), k, r.outpoint).None? {
      WaitsForBlock(step.newReqs, k == |history|, r, requests0, requests1);
    }
  }

  /** The requests among `reqs` for one outpoint, in order. */
  function For(reqs: seq<Request>, op: OutPoint): seq<Request> {
    if reqs == [] then []
    else For(reqs[..|reqs| - 1], op) + if reqs[|reqs| - 1].outpoint == op then [reqs[|reqs| - 1]] else []
  }

  lemma {:induction false} ForCounts(reqs: seq<Request>, r: Request)
    ensures multiset(For(reqs, r.outpoint))[r] == multiset(reqs)[r]
    ensures r in For(reqs, r.outpoint) <==> r in reqs
  {
    if reqs != [] {
      ForCounts(reqs[..|reqs| - 1], r);
      assert reqs == reqs[..|reqs| - 1] + [reqs[|reqs| - 1]];
    }
  }

  lemma {:induction false} ForAsks(reqs: seq<Request>, op: OutPoint)
    ensures For(reqs, op) != [] <==> Asks(reqs, op)
    ensures forall r | r in For(reqs, op) :: r.outpoint == op && r in reqs
  {
    if reqs != [] {
      ForAsks(reqs[..|reqs| - 1], op);
    }
  }

  /** The list an outpoint maps to; absent means empty. */
  function Waiting(requests: map<OutPoint, seq<Request>>, op: OutPoint): seq<Request> {
    if op in requests then requests[op] else []
  }

  /** The lists of `before` with every request of `reqs` appended to its own. */
  ghost predicate Joined(before: map<OutPoint, seq<Request>>, reqs: seq<Request>, after: map<OutPoint, seq<Request>>) {
    && (forall op :: op in after <==> op in before || Asks(reqs, op))
    && (forall op | op in after :: after[op] == Waiting(before, op) + For(reqs, op))
  }

  lemma AsksMore(reqs: seq<Request>, req: Request, op: OutPoint)
    ensures Asks(reqs + [req], op) <==> Asks(reqs, op) || req.outpoint == op
  {
    var more := reqs + [req];
    assert more[..|more|] == more && more[..|reqs|] == reqs;
    AsksStep(more, |reqs|, op);
  }

  lemma ForMore(reqs: seq<Request>, req: Request, op: OutPoint)
    ensures For(reqs + [req], op) == For(reqs, op) + if req.outpoint == op then [req] else []
  {
    assert (reqs + [req])[..|reqs|] == reqs;
  }

  /** One outpoint's list when a request joins. */
  lemma JoinedAt(before: map<OutPoint, seq<Request>>, reqs: seq<Request>, after: map<OutPoint, seq<Request>>,
                 req: Request, op: OutPoint, list: seq<Request>)
    requires Joined(before, reqs, after)
    requires list == Waiting(after, op) + if req.outpoint == op then [req] else []
    ensures list == Waiting(before, op) + For(reqs + [req], op)
  {
    ForMore(reqs, req, op);
    ForAsks(reqs, op);
    assert Waiting(after, op) == Waiting(before, op) + For(reqs, op);
    if req.outpoint == op {
      Rejoined(Waiting(before, op), For(reqs, op), [req]);
    }
  }

  lemma JoinedStep(before: map<OutPoint, seq<Request>>, reqs: seq<Request>, after: map<OutPoint, seq<Request>>,
                   req: Request)
    requires Joined(before, reqs, after)
    ensures Joined(before, reqs + [req], after[req.outpoint := Waiting(after, req.outpoint) + [req]])
  {
    var joined := after[req.outpoint := Waiting(after, req.outpoint) + [req]];
    forall op
      ensures op in joined <==> op in before || Asks(reqs + [req], op)
    {
      AsksMore(reqs, req, op);
    }
    forall op | op in joined
      ensures joined[op] == Waiting(before, op) + For(reqs + [req], op)
    {
      JoinedAt(before, reqs, after, req, op, joined[op]);
    }
  }

  /** The same final answer for every request on a list. */
  function Answers(reqs: seq<Request>, report: Option<SpendReport>, failed: bool): (ds: seq<Delivery>)
    ensures |ds| == |reqs|
    ensures forall i | 0 <= i < |reqs| :: ds[i] == Delivery(reqs[i], report, failed)
  {
    seq(|reqs|, i requires 0 <= i < |reqs| => Delivery(reqs[i], report, failed))
  }

  lemma {:induction false} RecipientsAppend(xs: seq<Delivery>, ys: seq<Delivery>)
    ensures Recipients(xs + ys) == Recipients(xs) + Recipients(ys)
  {
    if ys == [] {
      assert xs + ys == xs;
    } else {
      WithoutLast(xs, ys);
      RecipientsAppend(xs, ys[..|ys| - 1]);
    }
  }

  lemma {:induction false} RecipientsOfAnswers(reqs: seq<Request>, report: Option<SpendReport>, failed: bool)
    ensures Recipients(Answers(reqs, report, failed)) == multiset(reqs)
  {
    if reqs != [] {
      var n := |reqs| - 1;
      RecipientsOfAnswers(reqs[..n], report, failed);
      assert Answers(reqs, report, failed)[..n] == Answers(reqs[..n], report, failed);
      assert reqs == reqs[..n] + [reqs[n]];
    }
  }

  // ---------------------------------------------------------------------------
  // The whole batch as a function of its steps.

  /** What a batch holds and has said. */
  datatype State = State(requests: map<OutPoint, seq<Request>>, initialTxns: map<OutPoint, Option<SpendReport>>,
                         outpoints: map<OutPoint, PkScript>, delivered: seq<Delivery>)

  /** The lists with every new request at the end of its own. */
  function Join(requests: map<OutPoint, seq<Request>>, reqs: seq<Request>): map<OutPoint, seq<Request>> {
    if reqs == [] then requests
    else
      var joined, req := Join(requests, reqs[..|reqs| - 1]), reqs[|reqs| - 1];
      joined[req.outpoint := Waiting(joined, req.outpoint) + [req]]
  }

  lemma JoinStep(requests: map<OutPoint, seq<Request>>, reqs: seq<Request>, req: Request)
    requires Joined(requests, reqs, Join(requests, reqs))
    ensures Joined(requests, reqs + [req], Join(requests, reqs + [req]))
  {
    var joined := Join(requests, reqs);
    assert (reqs + [req])[..|reqs|] == reqs;
    assert Join(requests, reqs + [req]) == joined[req.outpoint := Waiting(joined, req.outpoint) + [req]];
    JoinedStep(requests, reqs, joined, req);
  }

  lemma {:induction false} JoinIsJoined(requests: map<OutPoint, seq<Request>>, reqs: seq<Request>)
    ensures Joined(requests, reqs, Join(requests, reqs))
  {
    if reqs == [] {
      assert forall op :: For(reqs, op) == [];
    } else {
      var n := |reqs| - 1;
      JoinIsJoined(requests, reqs[..n]);
      JoinStep(requests, reqs[..n], reqs[n]);
      assert reqs[..n] + [reqs[n]] == reqs;
    }
  }

  /** An outpoint's script is the one its first request came with. */
  function Scripts(outpoints: map<OutPoint, PkScript>, reqs: seq<Request>): map<OutPoint, PkScript> {
    if reqs == [] then outpoints
    else
      var joined, req := Scripts(outpoints, reqs[..|reqs| - 1]), reqs[|reqs| - 1];
      if req.outpoint in joined then joined else joined[req.outpoint := req.pkScript]
  }

  function Births(initialTxns: map<OutPoint, Option<SpendReport>>, block: Block, reqs: seq<Request>)
    : map<OutPoint, Option<SpendReport>>
  {
    map op | op in initialTxns.Keys + (set r | r in reqs :: r.outpoint) ::
      if Asks(reqs, op) then Birth(block, op) else initialTxns[op]
  }

  function SpentOf(requests: map<OutPoint, seq<Request>>, txs: seq<Tx>, height: nat): set<OutPoint> {
    set op | op in requests && FirstSpend(txs, op, height).Some?
  }

  function SpentByTx(requests: map<OutPoint, seq<Request>>, ins: seq<TxIn>): set<OutPoint> {
    set op | op in requests && SpendingInput(ins, op).Some?
  }

  lemma SpentOfStep(requests: map<OutPoint, seq<Request>>, txs: seq<Tx>, t: nat, height: nat)
    requires t < |txs|
    ensures var gone := SpentOf(requests, txs[..t], height);
      SpentOf(requests, txs[..t + 1], height) == gone + SpentByTx(requests - gone, txs[t].ins)
  {
    assert txs[..t + 1][..t] == txs[..t];
  }

  lemma SpentByTxStep(requests: map<OutPoint, seq<Request>>, ins: seq<TxIn>, i: nat)
    requires i < |ins|
    ensures SpentByTx(requests, ins[..i + 1])
            == SpentByTx(requests, ins[..i]) + if ins[i].prev in requests then {ins[i].prev} else {}
  {
    assert ins[..i + 1][..i] == ins[..i];
  }

  lemma GoneTwice<K, V>(m: map<K, V>, a: set<K>, b: set<K>)
    ensures (m - a) - b == m - (a + b)
  {
  }

  /** Everybody waiting for an outpoint is told at the first input that spends it. */
  function InputAnswers(requests: map<OutPoint, seq<Request>>, tx: Tx, n: nat, height: nat): seq<Delivery>
    requires n <= |tx.ins|
  {
    if n == 0 then []
    else
      var op := tx.ins[n - 1].prev;
      InputAnswers(requests, tx, n - 1, height)
      + if op in requests && SpendingInput(tx.ins[..n - 1], op).None?
        then Answers(requests[op], Some(Spent(tx, n - 1, height)), false) else []
  }

  function SpendAnswers(requests: map<OutPoint, seq<Request>>, txs: seq<Tx>, height: nat): seq<Delivery> {
    if txs == [] then []
    else
      var before, tx := txs[..|txs| - 1], txs[|txs| - 1];
      SpendAnswers(requests, before, height)
      + InputAnswers(requests - SpentOf(requests, before, height), tx, |tx.ins|, height)
  }

  function Next(s: State, step: Step): State {
    var requests := Join(s.requests, step.newReqs);
    var gone := SpentOf(requests, step.block.txs, step.block.height);
    State(requests - gone, Births(s.initialTxns, step.block, step.newReqs) - gone,
          Scripts(s.outpoints, step.newReqs) - gone,
          s.delivered + SpendAnswers(requests, step.block.txs, step.block.height))
  }

  const IDLE := State(map[], map[], map[], [])

  function AfterSteps(steps: seq<Step>): State {
    if steps == [] then IDLE else Next(AfterSteps(steps[..|steps| - 1]), steps[|steps| - 1])
  }

  ghost predicate IsState(s: State, steps: seq<Step>) {
    s == AfterSteps(steps)
  }

  /** How often something is said at the end, when everybody still waiting is told. */
  function Farewells(s: State, failed: bool, d: Delivery): nat {
    var op := d.request.outpoint;
    if op in s.requests && op in s.initialTxns
      && d == Delivery(d.request, if failed then None else s.initialTxns[op], failed)
    then multiset(s.requests[op])[d.request] else 0
  }

  /** How often something is said in a whole batch. */
  function Said(steps: seq<Step>, failed: bool, d: Delivery): nat {
    multiset(AfterSteps(steps).delivered)[d] + Farewells(AfterSteps(steps), failed, d)
  }

  // ---------------------------------------------------------------------------
  // Who is told what by a block.

  lemma {:induction false} InputsAreTold(requests: map<OutPoint, seq<Request>>, tx: Tx, n: nat, height: nat,
                                         op: OutPoint, r: Request)
    requires n <= |tx.ins| && op in requests && r in requests[op] && SpendingInput(tx.ins[..n], op).Some?
    ensures Delivery(r, Some(Spent(tx, SpendingInput(tx.ins[..n], op).value, height)), false)
            in InputAnswers(requests, tx, n, height)
  {
    assert tx.ins[..n][..n - 1] == tx.ins[..n - 1];
    if SpendingInput(tx.ins[..n - 1], op).Some? {
      InputsAreTold(requests, tx, n - 1, height, op, r);
    } else {
      var answers := Answers(requests[op], Some(Spent(tx, n - 1, height)), false);
      var i :| 0 <= i < |requests[op]| && requests[op][i] == r;
      assert answers[i] in answers;
    }
  }

  lemma {:induction false} SpendsAreTold(requests: map<OutPoint, seq<Request>>, txs: seq<Tx>, height: nat, op: OutPoint,
                                         r: Request)
    requires op in requests && r in requests[op] && FirstSpend(txs, op, height).Some?
    ensures Delivery(r, FirstSpend(txs, op, height), false) in SpendAnswers(requests, txs, height)
  {
    var before, tx := txs[..|txs| - 1], txs[|txs| - 1];
    if FirstSpend(before, op, height).Some? {
      SpendsAreTold(requests, before, height, op, r);
    } else {
      assert tx.ins[..|tx.ins|] == tx.ins;
      InputsAreTold(requests - SpentOf(requests, before, height), tx, |tx.ins|, height, op, r);
    }
  }

  /** Nothing but a spend at this height is reported. */
  ghost predicate SaysSpentAt(d: Delivery, height: nat) {
    d.report.Some? && d.report.value.Spent? && d.report.value.height == height
  }

  lemma {:induction false} InputsTellSpends(requests: map<OutPoint, seq<Request>>, tx: Tx, n: nat, height: nat)
    requires n <= |tx.ins|
    ensures forall d | d in InputAnswers(requests, tx, n, height) :: SaysSpentAt(d, height)
  {
    if n > 0 {
      InputsTellSpends(requests, tx, n - 1, height);
    }
  }

  lemma {:induction false} BlockTellsSpends(requests: map<OutPoint, seq<Request>>, txs: seq<Tx>, height: nat)
    ensures forall d | d in SpendAnswers(requests, txs, height) :: SaysSpentAt(d, height)
  {
    if txs != [] {
      var before, tx := txs[..|txs| - 1], txs[|txs| - 1];
      BlockTellsSpends(requests, before, height);
      InputsTellSpends(requests - SpentOf(requests, before, height), tx, |tx.ins|, height);
    }
  }

  lemma {:induction false} NoInputTells(requests: map<OutPoint, seq<Request>>, tx: Tx, n: nat, height: nat)
    requires n <= |tx.ins| && forall op | op in requests :: SpendingInput(tx.ins, op).None?
    ensures InputAnswers(requests, tx, n, height) == []
  {
    if n > 0 {
      NoInputTells(requests, tx, n - 1, height);
      InputSpends(tx.ins, n - 1);
    }
  }

  lemma {:induction false} InputSpends(ins: seq<TxIn>, i: nat)
    requires i < |ins|
    ensures SpendingInput(ins, ins[i].prev).Some?
  {
    if i < |ins| - 1 {
      InputSpends(ins[..|ins| - 1], i);
    }
  }

  /** Nobody waits for an outpoint that the block spends. */
  ghost predicate Unspending(requests: map<OutPoint, seq<Request>>, block: Block) {
    forall op | op in requests :: FirstSpend(block.txs, op, block.height).None?
  }

  lemma {:induction false} NobodyIsTold(requests: map<OutPoint, seq<Request>>, txs: seq<Tx>, height: nat)
    requires forall op | op in requests :: FirstSpend(txs, op, height).None?
    ensures SpendAnswers(requests, txs, height) == []
  {
    if txs != [] {
      var before, tx := txs[..|txs| - 1], txs[|txs| - 1];
      NobodyIsTold(requests, before, height);
      NoInputTells(requests - SpentOf(requests, before, height), tx, |tx.ins|, height);
    }
  }

  // ---------------------------------------------------------------------------
  // Skipping blocks and sharing unspent reports.

  ghost predicate HeightsDiffer(history: seq<Step>) {
    forall i, j | 0 <= i < j < |history| :: history[i].block.height != history[j].block.height
  }

  lemma StepOverNothing(s: State, block: Block)
    requires Unspending(s.requests, block)
    ensures Next(s, Step(block, [])).requests == s.requests && Next(s, Step(block, [])).delivered == s.delivered
    ensures Next(s, Step(block, [])).outpoints == s.outpoints && Next(s, Step(block, [])).initialTxns == s.initialTxns
  {
    NobodyIsTold(s.requests, block.txs, block.height);
    assert SpentOf(s.requests, block.txs, block.height) == {};
  }

  lemma NextState(steps: seq<Step>, step: Step)
    ensures AfterSteps(steps + [step]) == Next(AfterSteps(steps), step)
  {
    assert (steps + [step])[..|steps|] == steps;
  }

  lemma LastState(pre: seq<Step>, post: seq<Step>)
    requires post != []
    ensures AfterSteps(pre + post) == Next(AfterSteps(pre + post[..|post| - 1]), post[|post| - 1])
  {
    WithoutLast(pre, post);
  }

  lemma {:induction false} SkippedState(pre: seq<Step>, block: Block, post: seq<Step>)
    requires Unspending(AfterSteps(pre).requests, block)
    ensures AfterSteps(pre + [Step(block, [])] + post) == AfterSteps(pre + post)
  {
    var upto := pre + [Step(block, [])];
    if post == [] {
      assert upto + post == upto && pre + post == pre;
      NextState(pre, Step(block, []));
      StepOverNothing(AfterSteps(pre), block);
    } else {
      SkippedState(pre, block, post[..|post| - 1]);
      LastState(upto, post);
      LastState(pre, post);
    }
  }

  /** What holds of every state of a batch. */
  ghost predicate Sensible(s: State, steps: seq<Step>) {
    && (forall op | op in s.requests :: s.requests[op] != [])
    && (forall op | op in s.initialTxns :: s.initialTxns[op].None? || s.initialTxns[op].value.Unspent?)
    && (forall d | d in s.delivered :: SaysSpentIn(d, steps))
  }

  ghost predicate SaysSpentIn(d: Delivery, steps: seq<Step>) {
    exists i :: 0 <= i < |steps| && SaysSpentAt(d, steps[i].block.height)
  }

  lemma NobodyWaitsForNothing(requests: map<OutPoint, seq<Request>>, reqs: seq<Request>)
    requires forall op | op in requests :: requests[op] != []
    ensures forall op | op in Join(requests, reqs) :: Join(requests, reqs)[op] != []
  {
    JoinIsJoined(requests, reqs);
    forall op | op in Join(requests, reqs)
      ensures Join(requests, reqs)[op] != []
    {
      ForAsks(reqs, op);
    }
  }

  lemma SpendsAreSaidWithHeights(s: State, steps: seq<Step>, step: Step)
    requires forall d | d in s.delivered :: SaysSpentIn(d, steps)
    ensures forall d | d in Next(s, step).delivered :: SaysSpentIn(d, steps + [step])
  {
    BlockTellsSpends(Join(s.requests, step.newReqs), step.block.txs, step.block.height);
    var more := steps + [step];
    forall d | d in Next(s, step).delivered
      ensures SaysSpentIn(d, more)
    {
      if d in s.delivered {
        var i :| 0 <= i < |steps| && SaysSpentAt(d, steps[i].block.height);
        assert SaysSpentAt(d, more[i].block.height);
      } else {
        assert SaysSpentAt(d, more[|steps|].block.height);
      }
    }
  }

  lemma {:induction false} StatesAreSensible(steps: seq<Step>)
    ensures Sensible(AfterSteps(steps), steps)
  {
    if steps != [] {
      var n := |steps| - 1;
      StatesAreSensible(steps[..n]);
      NobodyWaitsForNothing(AfterSteps(steps[..n]).requests, steps[n].newReqs);
      SpendsAreSaidWithHeights(AfterSteps(steps[..n]), steps[..n], steps[n]);
      assert steps == steps[..n] + [steps[n]];
    }
  }

  lemma {:induction false} DeliveredStays(pre: seq<Step>, post: seq<Step>, d: Delivery)
    requires d in AfterSteps(pre).delivered
    ensures d in AfterSteps(pre + post).delivered
  {
    if post == [] {
      assert pre + post == pre;
    } else {
      DeliveredStays(pre, post[..|post| - 1], d);
      LastState(pre, post);
    }
  }

  lemma SpendIsAlwaysSaid(pre: seq<Step>, block: Block, post: seq<Step>, op: OutPoint, r: Request)
    requires op in AfterSteps(pre).requests && r in AfterSteps(pre).requests[op]
    requires FirstSpend(block.txs, op, block.height).Some?
    ensures Delivery(r, FirstSpend(block.txs, op, block.height), false)
            in AfterSteps(pre + [Step(block, [])] + post).delivered
  {
    var upto := pre + [Step(block, [])];
    assert upto[..|pre|] == pre;
    SpendsAreTold(AfterSteps(pre).requests, block.txs, block.height, op, r);
    DeliveredStays(upto, post, Delivery(r, FirstSpend(block.txs, op, block.height), false));
  }

  lemma OtherHeightsAreNeverSaid(steps: seq<Step>, failed: bool, d: Delivery, height: nat)
    requires SaysSpentAt(d, height) && forall i | 0 <= i < |steps| :: steps[i].block.height != height
    ensures Said(steps, failed, d) == 0
  {
    StatesAreSensible(steps);
    assert d in AfterSteps(steps).delivered ==> SaysSpentIn(d, steps);
    assert multiset(AfterSteps(steps).delivered)[d] == 0;
  }

  lemma {:induction false} FirstSpendSaysHeight(txs: seq<Tx>, op: OutPoint, height: nat, d: Delivery)
    requires FirstSpend(txs, op, height).Some? && d.report == FirstSpend(txs, op, height)
    ensures SaysSpentAt(d, height)
  {
    if FirstSpend(txs[..|txs| - 1], op, height).Some? {
      FirstSpendSaysHeight(txs[..|txs| - 1], op, height, d);
    }
  }

  lemma OtherHeights(pre: seq<Step>, block: Block, post: seq<Step>)
    requires HeightsDiffer(pre + [Step(block, [])] + post)
    ensures forall i | 0 <= i < |pre + post| :: (pre + post)[i].block.height != block.height
  {
    var whole := pre + [Step(block, [])] + post;
    assert whole[|pre|].block == block;
    forall i | 0 <= i < |pre + post|
      ensures (pre + post)[i].block.height != block.height
    {
      assert (pre + post)[i] == whole[if i < |pre| then i else i + 1];
    }
  }

  lemma SpendingBlockIsMissed(pre: seq<Step>, block: Block, post: seq<Step>, failed: bool, op: OutPoint)
    returns (d: Delivery)
    requires HeightsDiffer(pre + [Step(block, [])] + post)
    requires op in AfterSteps(pre).requests && FirstSpend(block.txs, op, block.height).Some?
    ensures Said(pre + [Step(block, [])] + post, failed, d) > 0 == Said(pre + post, failed, d)
  {
    StatesAreSensible(pre);
    var r := AfterSteps(pre).requests[op][0];
    d := Delivery(r, FirstSpend(block.txs, op, block.height), false);
    SpendIsAlwaysSaid(pre, block, post, op, r);
    FirstSpendSaysHeight(block.txs, op, block.height, d);
    OtherHeights(pre, block, post);
    OtherHeightsAreNeverSaid(pre + post, failed, d, block.height);
  }

  /** A block without new requests may be left out of a batch, with not one delivery more,
      less or different, the final reports included, exactly if it spends no outpoint that
      somebody waits for when it comes. */
  lemma SkippingChangesNothingIff(pre: seq<Step>, block: Block, post: seq<Step>, failed: bool)
    requires HeightsDiffer(pre + [Step(block, [])] + post)
    ensures (forall d :: Said(pre + [Step(block, [])] + post, failed, d) == Said(pre + post, failed, d))
            <==> Unspending(AfterSteps(pre).requests, block)
  {
    if Unspending(AfterSteps(pre).requests, block) {
      SkippedState(pre, block, post);
    } else {
      var op :| op in AfterSteps(pre).requests && FirstSpend(block.txs, op, block.height).Some?;
      var d := SpendingBlockIsMissed(pre, block, post, failed, op);
    }
  }

  lemma {:induction false} LastAskedIsLatest(history: seq<Step>, k: nat, op: OutPoint)
    requires k < |history| && Asks(history[k].newReqs, op)
    ensures LastAsked(history, op).Some? && k <= LastAsked(history, op).value
  {
    if !Asks(history[|history| - 1].newReqs, op) {
      LastAskedIsLatest(history[..|history| - 1], k, op);
    }
  }

  /** All requests for an outpoint get one unspent report, that of the latest
      arrival.  For a request that arrived at step k it is the report of a scan of
      its own exactly when no request for the outpoint arrived at a later block, or
      neither block creates the output. */
  lemma UnspentReportIsOwnIff(history: seq<Step>, k: nat, op: OutPoint)
    requires HeightsDiffer(history) && k < |history| && Asks(history[k].newReqs, op)
    ensures LastAsked(history, op).Some?
    ensures KnownBirth(history, op) == Birth(history[k].block, op)
            <==> || (forall j | k < j < |history| :: !Asks(history[j].newReqs, op))
                 || (Birth(history[k].block, op).None? && Birth(history[LastAsked(history, op).value].block, op).None?)
  {
    LastAskedIsLatest(history, k, op);
    var last := LastAsked(history, op).value;
    if last != k {
      assert history[k].block.height != history[last].block.height;
      assert Asks(history[last].newReqs, op);
    } else {
      forall j | k < j < |history|
        ensures !Asks(history[j].newReqs, op)
      {
        if Asks(history[j].newReqs, op) {
          LastAskedIsLatest(history, j, op);
        }
      }
    }
  }

  /** The failing case is real: an output created at one block, asked about there
      and again one block later, is reported to both callers as not found. */
  lemma LaterRequestHidesTheOutput()
    ensures exists history: seq<Step>, op: OutPoint ::
              && HeightsDiffer(history) && |history| == 2 && Asks(history[0].newReqs, op)
              && Birth(history[0].block, op).Some? && ScanFrom(Blocks(history), 0, op).None?
              && KnownBirth(history, op).None?
  {
    var op := OutPoint(7, 0);
    var birth := Block(1, 0, 1, [Tx(7, [], [TxOut(5, [])])]);
    var empty := Block(2, 1, 2, []);
    var history := [Step(birth, [Request(0, op, 0)]), Step(empty, [Request(1, op, 0)])];
    assert history[0].newReqs[0].outpoint == op && history[1].newReqs[0].outpoint == op;
    assert FirstTx(birth.txs, 7) == Some(0) by {
      assert birth.txs[..0] == [];
    }
    var blocks := Blocks(history);
    assert blocks[..1][..0] == [];
    assert FirstSpend(birth.txs, op, 1).None? by {
      assert birth.txs[..0] == [];
    }
    assert ScanFrom(blocks[..1], 0, op).None?;
    assert blocks[1] == empty && ScanFrom(blocks, 0, op).None?;
    assert LastAsked(history, op) == Some(1) && KnownBirth(history, op).None?;
    assert Birth(history[0].block, op).Some?;
    assert HeightsDiffer(history);
  }

  // ---------------------------------------------------------------------------
  // The reporter.

  class Reporter {
    var requests: map<OutPoint, seq<Request>>
    var initialTxns: map<OutPoint, Option<SpendReport>>
    var outpoints: map<OutPoint, PkScript>
    var filterEntries: seq<PkScript>

    // Every answer given so far, in order.
    var delivered: seq<Delivery>

    // The calls so far, and the outpoint behind each filter entry.
    ghost var history: seq<Step>
    ghost var watched: seq<OutPoint>

    /** The three maps cover the same outpoints, each with somebody waiting. */
    ghost predicate SameKeys()
      reads this`requests, this`initialTxns, this`outpoints
    {
      && requests.Keys == initialTxns.Keys == outpoints.Keys
      && forall op | op in requests :: requests[op] != [] && forall r | r in requests[op] :: r.outpoint == op
    }

    /** The watchlist lists the entry of every outpoint exactly once. */
    ghost predicate WatchlistAgrees()
      reads this`filterEntries, this`watched, this`outpoints
    {
      && |filterEntries| == |watched|
      && (forall i, j | 0 <= i < j < |watched| :: watched[i] != watched[j])
      && (forall op :: op in watched <==> op in outpoints)
      && (forall i | 0 <= i < |watched| :: filterEntries[i] == outpoints[watched[i]])
    }

    ghost function View(): State
      reads this`requests, this`initialTxns, this`outpoints, this`delivered
    {
      State(requests, initialTxns, outpoints, delivered)
    }

    /** How often the request has been answered plus how often it is waiting. */
    ghost function Handled(r: Request): nat
      reads this`delivered, this`requests
    {
      Recipients(delivered)[r] + multiset(Waiting(requests, r.outpoint))[r]
    }

    /** Every arrival is either answered or waiting, never both, never twice. */
    ghost predicate Accounted()
      reads this`delivered, this`requests, this`history
    {
      forall r :: Handled(r) == Arrived(history)[r]
    }

    ghost predicate AllSettled()
      reads this`history, this`requests, this`delivered
    {
      forall k, r | 0 <= k < |history| && r in history[k].newReqs :: Settled(history, k, r, requests, delivered)
    }

    /** The unspent report kept for an outpoint comes from the block of the latest
        request for it. */
    ghost predicate InitialsKnown()
      reads this`initialTxns, this`history
    {
      forall op | op in initialTxns :: initialTxns[op] == KnownBirth(history, op)
    }

    ghost predicate Valid()
      reads this
    {
      SameKeys() && WatchlistAgrees() && Accounted() && AllSettled() && InitialsKnown()
    }

    constructor ()
      ensures Valid() && history == [] && delivered == [] && filterEntries == [] && View() == IDLE
    {
      requests, initialTxns, outpoints, filterEntries, delivered := map[], map[], map[], [], [];
      history, watched := [], [];
    }

    /** Gives every request on the list the same final answer and forgets the
        outpoint. */
    method NotifyRequests(op: OutPoint, reqs: seq<Request>, report: Option<SpendReport>, failed: bool)
      modifies this`requests, this`initialTxns, this`outpoints, this`delivered
      ensures requests == Without(old(requests), op)
      ensures initialTxns == Without(old(initialTxns), op)
      ensures outpoints == Without(old(outpoints), op)
      ensures delivered == old(delivered) + Answers(reqs, report, failed)
    {
      requests := Without(requests, op);
      initialTxns := Without(initialTxns, op);
      outpoints := Without(outpoints, op);
      for i := 0 to |reqs|
        invariant delivered == old(delivered) + Answers(reqs, report, failed)[..i]
        modifies this`delivered
      {
        delivered := delivered + [Delivery(reqs[i], report, failed)];
      }
    }

    /** Gives a final answer to everybody waiting for a watched outpoint. */
    method Settle(op: OutPoint, report: Option<SpendReport>, failed: bool)
      requires op in requests && forall r | r in requests[op] :: r.outpoint == op
      modifies this`requests, this`initialTxns, this`outpoints, this`delivered
      ensures requests == Without(old(requests), op)
      ensures initialTxns == Without(old(initialTxns), op)
      ensures outpoints == Without(old(outpoints), op)
      ensures delivered == old(delivered) + Answers(old(requests)[op], report, failed)
      ensures forall r :: Handled(r) == old(Handled(r))
    {
      ghost var reqs := requests[op];
      RecipientsAppend(delivered, Answers(reqs, report, failed));
      RecipientsOfAnswers(reqs, report, failed);
      NotifyRequests(op, requests[op], report, failed);
    }

    method AddRequest(req: Request)
      requires WatchlistAgrees() && outpoints.Keys == requests.Keys
      modifies this`requests, this`outpoints, this`filterEntries, this`watched
      ensures WatchlistAgrees() && outpoints.Keys == requests.Keys
      ensures requests == old(requests)[req.outpoint := Waiting(old(requests), req.outpoint) + [req]]
      ensures outpoints == old(if req.outpoint in outpoints then outpoints else outpoints[req.outpoint := req.pkScript])
    {
      var op := req.outpoint;
      requests := requests[op := (if op in requests then requests[op] else []) + [req]];
      if op !in outpoints {
        outpoints := outpoints[op := req.pkScript];
        filterEntries := filterEntries + [req.pkScript];
        watched := watched + [op];
      }
    }

    method AddNewRequests(reqs: seq<Request>)
      requires WatchlistAgrees() && outpoints.Keys == requests.Keys
      modifies this`requests, this`outpoints, this`filterEntries, this`watched
      ensures WatchlistAgrees() && outpoints.Keys == requests.Keys
      ensures requests == Join(old(requests), reqs) && Joined(old(requests), reqs, requests)
      ensures outpoints == Scripts(old(outpoints), reqs)
      ensures forall op | op in old(outpoints) :: outpoints[op] == old(outpoints)[op]
    {
      for i := 0 to |reqs|
        invariant WatchlistAgrees() && outpoints.Keys == requests.Keys
        invariant requests == Join(old(requests), reqs[..i]) && outpoints == Scripts(old(outpoints), reqs[..i])
        invariant forall op | op in old(outpoints) :: op in outpoints && outpoints[op] == old(outpoints)[op]
      {
        assert reqs[..i + 1][..i] == reqs[..i];
        AddRequest(reqs[i]);
      }
      assert reqs[..|reqs|] == reqs;
      JoinIsJoined(old(requests), reqs);
    }

    /** Searches the block for the outputs the new requests ask about. */
    method FindInitialTransactions(block: Block, newReqs: seq<Request>)
      modifies this`initialTxns
      ensures forall op :: op in initialTxns <==> op in old(initialTxns) || Asks(newReqs, op)
      ensures initialTxns == Births(old(initialTxns), block, newReqs)
    {
      var found := SearchBlock(block, newReqs);
      for i := 0 to |newReqs|
        invariant forall op :: op in initialTxns <==> op in old(initialTxns) || Asks(newReqs[..i], op)
        invariant forall op | op in initialTxns ::
                    initialTxns[op] == if Asks(newReqs[..i], op) then Birth(block, op) else old(initialTxns)[op]
      {
        var op := newReqs[i].outpoint;
        forall o { AsksStep(newReqs, i, o); }
        assert Asks(newReqs, op);
        initialTxns := initialTxns[op := if op in found then found[op] else None];
      }
      assert newReqs[..|newReqs|] == newReqs;
    }

    /** The spends of the block's watched outpoints are answered and forgotten at
        once. */
    method NotifySpends(block: Block) returns (spends: set<OutPoint>)
      requires OwnLists()
      modifies this`requests, this`initialTxns, this`outpoints, this`delivered
      ensures OwnLists() && spends == SpentOf(old(requests), block.txs, block.height)
      ensures Forgot(spends, old(requests), old(initialTxns), old(outpoints))
      ensures delivered == old(delivered) + SpendAnswers(old(requests), block.txs, block.height)
      ensures forall r :: Handled(r) == old(Handled(r))
    {
      spends := {};
      for t := 0 to |block.txs|
        invariant OwnLists() && spends == SpentOf(old(requests), block.txs[..t], block.height)
        invariant Forgot(spends, old(requests), old(initialTxns), old(outpoints))
        invariant delivered == old(delivered) + SpendAnswers(old(requests), block.txs[..t], block.height)
        invariant forall r :: Handled(r) == old(Handled(r))
      {
        assert block.txs[..t + 1][..t] == block.txs[..t];
        SpentOfStep(old(requests), block.txs, t, block.height);
        Rejoined(old(delivered), SpendAnswers(old(requests), block.txs[..t], block.height),
                 InputAnswers(requests, block.txs[t], |block.txs[t].ins|, block.height));
        var spent := NotifySpendsOfTx(block.txs[t], block.height);
        GoneTwice(old(requests), spends, spent);
        GoneTwice(old(initialTxns), spends, spent);
        GoneTwice(old(outpoints), spends, spent);
        spends := spends + spent;
      }
      assert block.txs[..|block.txs|] == block.txs;
    }

    ghost predicate OwnLists()
      reads this`requests
    {
      forall op | op in requests :: forall r | r in requests[op] :: r.outpoint == op
    }

    /** The outpoints `gone`, and only those, have left the three maps. */
    ghost predicate Forgot(gone: set<OutPoint>, requests0: map<OutPoint, seq<Request>>,
                           initialTxns0: map<OutPoint, Option<SpendReport>>, outpoints0: map<OutPoint, PkScript>)
      reads this`requests, this`initialTxns, this`outpoints
    {
      requests == requests0 - gone && initialTxns == initialTxns0 - gone && outpoints == outpoints0 - gone
    }

    method NotifySpendsOfTx(tx: Tx, height: nat) returns (spent: set<OutPoint>)
      requires OwnLists()
      modifies this`requests, this`initialTxns, this`outpoints, this`delivered
      ensures OwnLists() && spent == SpentByTx(old(requests), tx.ins)
      ensures Forgot(spent, old(requests), old(initialTxns), old(outpoints))
      ensures delivered == old(delivered) + InputAnswers(old(requests), tx, |tx.ins|, height)
      ensures forall r :: Handled(r) == old(Handled(r))
    {
      spent := {};
      for i := 0 to |tx.ins|
        invariant OwnLists() && spent == SpentByTx(old(requests), tx.ins[..i])
        invariant Forgot(spent, old(requests), old(initialTxns), old(outpoints))
        invariant delivered == old(delivered) + InputAnswers(old(requests), tx, i, height)
        invariant forall r :: Handled(r) == old(Handled(r))
      {
        var op := tx.ins[i].prev;
        assert tx.ins[..i + 1][..i] == tx.ins[..i];
        SpentByTxStep(old(requests), tx.ins, i);
        GoneTwice(old(requests), spent, {op});
        GoneTwice(old(initialTxns), spent, {op});
        GoneTwice(old(outpoints), spent, {op});
        if op in requests {
          Rejoined(old(delivered), InputAnswers(old(requests), tx, i, height),
                   Answers(requests[op], Some(Spent(tx, i, height)), false));
          Settle(op, Some(Spent(tx, i, height)), false);
          spent := spent + {op};
        }
      }
      assert tx.ins[..|tx.ins|] == tx.ins;
    }

    /** Rebuilds the watchlist from the outpoints still watched, in any order. */
    method RebuildWatchlist()
      modifies this`filterEntries, this`watched
      ensures WatchlistAgrees()
    {
      filterEntries, watched := [], [];
      var todo := outpoints.Keys;
      while todo != {}
        invariant todo <= outpoints.Keys && |filterEntries| == |watched|
        invariant forall i, j | 0 <= i < j < |watched| :: watched[i] != watched[j]
        invariant forall op :: op in watched <==> op in outpoints && op !in todo
        invariant forall i | 0 <= i < |watched| :: filterEntries[i] == outpoints[watched[i]]
        decreases |todo|
      {
        var op :| op in todo;
        todo := todo - {op};
        filterEntries := filterEntries + [outpoints[op]];
        watched := watched + [op];
      }
    }

    /** The arrivals of one step, before its block is searched for spends. */
    method TakeRequests(blk: Block, newReqs: seq<Request>)
      requires SameKeys() && WatchlistAgrees()
      modifies this`requests, this`outpoints, this`initialTxns, this`filterEntries, this`watched
      ensures SameKeys() && WatchlistAgrees()
      ensures Joined(old(requests), newReqs, requests) && requests == Join(old(requests), newReqs)
      ensures initialTxns == Births(old(initialTxns), blk, newReqs) && outpoints == Scripts(old(outpoints), newReqs)
      ensures newReqs == [] ==> filterEntries == old(filterEntries)
      ensures forall op | op in requests ::
                initialTxns[op] == if Asks(newReqs, op) then Birth(blk, op) else old(initialTxns)[op]
    {
      if |newReqs| == 0 {
        JoinIsJoined(requests, newReqs);
        assert initialTxns == Births(initialTxns, blk, newReqs);
      } else {
        AddNewRequests(newReqs);
        FindInitialTransactions(blk, newReqs);
        forall op | op in requests
          ensures requests[op] != [] && forall r | r in requests[op] :: r.outpoint == op
        {
          ForAsks(newReqs, op);
        }
      }
    }

    /** The same, recorded in the history. */
    method Arrive(blk: Block, newReqs: seq<Request>)
      requires SameKeys() && WatchlistAgrees() && Accounted() && InitialsKnown()
      modifies this`requests, this`outpoints, this`initialTxns, this`filterEntries, this`watched, this`history
      ensures SameKeys() && WatchlistAgrees() && Accounted() && InitialsKnown()
      ensures history == old(history) + [Step(blk, newReqs)]
      ensures Joined(old(requests), newReqs, requests) && requests == Join(old(requests), newReqs)
      ensures initialTxns == Births(old(initialTxns), blk, newReqs) && outpoints == Scripts(old(outpoints), newReqs)
      ensures newReqs == [] ==> filterEntries == old(filterEntries)
    {
      ghost var requests0, initialTxns0 := requests, initialTxns;
      TakeRequests(blk, newReqs);
      Record(Step(blk, newReqs), requests0, initialTxns0);
    }

    /** Writes the step into the history. */
    ghost method Record(step: Step, requests0: map<OutPoint, seq<Request>>,
                        initialTxns0: map<OutPoint, Option<SpendReport>>)
      requires forall r :: AccountedFor(delivered, requests0, history, r)
      requires forall op | op in initialTxns0 :: initialTxns0[op] == KnownBirth(history, op)
      requires Joined(requests0, step.newReqs, requests)
      requires initialTxns == Births(initialTxns0, step.block, step.newReqs)
      modifies this`history
      ensures history == old(history) + [step] && Accounted() && InitialsKnown()
    {
      AllArrivalsCounted(history, step, requests0, requests, delivered);
      AllBirthsKnown(history, step, initialTxns0, initialTxns);
      history := history + [step];
      forall r
        ensures Handled(r) == Arrived(history)[r]
      {
        assert AccountedFor(delivered, requests, history, r);
      }
    }

    /** Everything that the block's spends do, written as a function of what was there. */
    ghost predicate SpentBy(block: Block, was: State)
      reads this`requests, this`initialTxns, this`outpoints, this`delivered
    {
      var gone := SpentOf(was.requests, block.txs, block.height);
      View() == State(was.requests - gone, was.initialTxns - gone, was.outpoints - gone,
                      was.delivered + SpendAnswers(was.requests, block.txs, block.height))
    }

    method AnswerSpends(blk: Block) returns (spends: set<OutPoint>)
      requires SameKeys() && Accounted() && InitialsKnown()
      modifies this`requests, this`outpoints, this`initialTxns, this`delivered
      ensures SameKeys() && Accounted() && InitialsKnown()
      ensures SpentBy(blk, old(View())) && BlockApplied(blk, old(requests), requests, delivered)
      ensures spends == SpentOf(old(requests), blk.txs, blk.height)
      ensures spends == {} ==> outpoints == old(outpoints)
    {
      ghost var requests0 := requests;
      spends := NotifySpends(blk);
      assert spends == {} ==> outpoints == old(outpoints);
      forall op, r | op in requests0 && r in requests0[op] && FirstSpend(blk.txs, op, blk.height).Some?
        ensures Delivery(r, FirstSpend(blk.txs, op, blk.height), false) in delivered
      {
        SpendsAreTold(requests0, blk.txs, blk.height, op, r);
      }
    }

    /** Answers the spends of a block and brings the watchlist up to date. */
    method SpendBlock(blk: Block, stale: bool)
      requires SameKeys() && WatchlistAgrees() && Accounted() && InitialsKnown()
      modifies this`requests, this`outpoints, this`initialTxns, this`filterEntries, this`watched, this`delivered
      ensures SameKeys() && WatchlistAgrees() && Accounted() && InitialsKnown()
      ensures SpentBy(blk, old(View())) && BlockApplied(blk, old(requests), requests, delivered)
      ensures !stale && SpentOf(old(requests), blk.txs, blk.height) == {} ==> filterEntries == old(filterEntries)
    {
      var spends := AnswerSpends(blk);
      if stale || spends != {} {
        RebuildWatchlist();
      }
    }

    /** One step of a batch.  Every request that has ever arrived is told about the
        first spend from its own block on, exactly as if it had been scanned for
        alone, and is otherwise still waiting; nobody is told twice.  A block without new
        requests that spends nothing anybody waits for changes nothing. */
    method ProcessBlock(blk: Block, newReqs: seq<Request>)
      requires Valid()
      modifies this
      ensures Valid() && history == old(history) + [Step(blk, newReqs)] && old(delivered) <= delivered
      ensures View() == Next(old(View()), Step(blk, newReqs))
      ensures newReqs == [] && Unspending(old(requests), blk) ==>
        && requests == old(requests) && initialTxns == old(initialTxns) && outpoints == old(outpoints)
        && delivered == old(delivered) && filterEntries == old(filterEntries)
    {
      ghost var history0, requests0, delivered0, view0 := history, requests, delivered, View();
      Arrive(blk, newReqs);
      ghost var requests1 := requests;
      SpendBlock(blk, |newReqs| > 0);
      forall k, r | 0 <= k < |history| && r in history[k].newReqs
        ensures Settled(history, k, r, requests, delivered)
      {
        SettledStep(history0, Step(blk, newReqs), k, r, requests0, requests1, requests, delivered0, delivered);
      }
      if newReqs == [] && Unspending(requests0, blk) {
        StepOverNothing(view0, blk);
        assert SpentOf(requests1, blk.txs, blk.height) == {};
      }
    }

    /** A new reporter has been given `steps`. */
    ghost predicate At(steps: seq<Step>)
      reads this
    {
      forall s | IsState(s, steps) :: Valid() && history == steps && View() == s
    }

    method ProcessStep(steps: seq<Step>, i: nat)
      requires i < |steps| && At(steps[..i])
      modifies this
      ensures At(steps[..i + 1])
    {
      assert IsState(AfterSteps(steps[..i]), steps[..i]);
      assert steps[..i + 1] == steps[..i] + [steps[i]];
      NextState(steps[..i], steps[i]);
      ProcessBlock(steps[i].block, steps[i].newReqs);
    }

    method ProcessBlocks(steps: seq<Step>)
      requires Valid() && history == [] && View() == IDLE
      modifies this
      ensures Valid() && history == steps && View() == AfterSteps(steps)
    {
      for i := 0 to |steps|
        invariant At(steps[..i])
      {
        ProcessStep(steps, i);
      }
      assert steps[..|steps|] == steps && IsState(AfterSteps(steps), steps);
    }

    /** Everybody still waiting gets a final answer. */
    method SettleAll(failed: bool)
      requires SameKeys()
      modifies this`requests, this`initialTxns, this`outpoints, this`delivered
      ensures requests == map[] && old(delivered) <= delivered
      ensures forall r :: Handled(r) == old(Handled(r))
      ensures forall d :: multiset(delivered)[d] == multiset(old(delivered))[d] + Farewells(old(View()), failed, d)
      ensures forall op, r | op in old(requests) && r in old(requests)[op] ::
                Delivery(r, if failed then None else old(initialTxns)[op], failed) in delivered
    {
      ghost var done: set<OutPoint> := {};
      ghost var view := View();
      while requests != map[]
        invariant OwnLists() && done <= view.requests.Keys
        invariant Forgot(done, view.requests, view.initialTxns, view.outpoints)
        invariant old(delivered) <= delivered && forall r :: Handled(r) == old(Handled(r))
        invariant forall d :: SaidSoFar(view, done, failed, delivered, d)
        decreases view.requests.Keys - done
      {
        var op :| op in requests;
        var report := if failed then None else initialTxns[op];
        forall d
          ensures SaidSoFar(view, done + {op}, failed, delivered + Answers(requests[op], report, failed), d)
        {
          FarewellStep(view, done, failed, delivered, op, d);
        }
        GoneTwice(view.requests, done, {op});
        GoneTwice(view.initialTxns, done, {op});
        GoneTwice(view.outpoints, done, {op});
        Settle(op, report, failed);
        done := done + {op};
      }
      forall op | op in view.requests
        ensures op in done
      {
        assert op !in requests;
      }
      forall d
        ensures multiset(delivered)[d] == multiset(view.delivered)[d] + Farewells(view, failed, d)
      {
        assert SaidSoFar(view, done, failed, delivered, d);
      }
      forall op, r | op in view.requests && r in view.requests[op]
        ensures Delivery(r, if failed then None else view.initialTxns[op], failed) in delivered
      {
        var d := Delivery(r, if failed then None else view.initialTxns[op], failed);
        assert multiset(delivered)[d] > 0;
      }
    }

    /** The end of a successful batch: everybody still waiting is told the output
        itself, or that it was not found.  After that every request of the batch has
        been answered exactly as often as it arrived. */
    method NotifyUnspentAndUnfound()
      requires Valid()
      modifies this`requests, this`initialTxns, this`outpoints, this`delivered
      ensures requests == map[] && old(delivered) <= delivered
      ensures Recipients(delivered) == Arrived(history)
      ensures forall d :: multiset(delivered)[d] == multiset(old(delivered))[d] + Farewells(old(View()), false, d)
      ensures forall op, r | op in old(requests) && r in old(requests)[op] ::
                Delivery(r, KnownBirth(history, op), false) in delivered
    {
      SettleAll(false);
      assert forall r :: Recipients(delivered)[r] == Handled(r);
    }

    /** The end of a failed batch. */
    method FailRemaining()
      requires Valid()
      modifies this`requests, this`initialTxns, this`outpoints, this`delivered
      ensures requests == map[] && old(delivered) <= delivered
      ensures Recipients(delivered) == Arrived(history)
      ensures forall d :: multiset(delivered)[d] == multiset(old(delivered))[d] + Farewells(old(View()), true, d)
      ensures forall op, r | op in old(requests) && r in old(requests)[op] :: Delivery(r, None, true) in delivered
    {
      SettleAll(true);
      assert forall r :: Recipients(delivered)[r] == Handled(r);
    }
  }

  /** A whole batch, from its first block to the final reports. */
  method Batch(steps: seq<Step>, failed: bool) returns (said: seq<Delivery>)
    ensures forall d :: multiset(said)[d] == Said(steps, failed, d)
    ensures Recipients(said) == Arrived(steps)
  {
    var reporter := new Reporter();
    reporter.ProcessBlocks(steps);
    if failed {
      reporter.FailRemaining();
    } else {
      reporter.NotifyUnspentAndUnfound();
    }
    said := reporter.delivered;
  }

  /** The same batch with a block and without it: the deliveries are the same, each as
      often, exactly if nobody waits for an outpoint the block spends. */
  method BatchWithAndWithout(pre: seq<Step>, block: Block, post: seq<Step>, failed: bool)
    returns (all: seq<Delivery>, fewer: seq<Delivery>)
    requires HeightsDiffer(pre + [Step(block, [])] + post)
    ensures multiset(all) == multiset(fewer) <==> Unspending(AfterSteps(pre).requests, block)
  {
    all := Batch(pre + [Step(block, [])] + post, failed);
    fewer := Batch(pre + post, failed);
    SkippingChangesNothingIff(pre, block, post, failed);
  }

  lemma {:induction false} AnswersCounted(reqs: seq<Request>, report: Option<SpendReport>, failed: bool, d: Delivery)
    ensures multiset(Answers(reqs, report, failed))[d]
            == if d == Delivery(d.request, report, failed) then multiset(reqs)[d.request] else 0
  {
    if reqs != [] {
      var n := |reqs| - 1;
      AnswersCounted(reqs[..n], report, failed, d);
      assert Answers(reqs, report, failed) == Answers(reqs[..n], report, failed) + [Delivery(reqs[n], report, failed)];
      assert reqs == reqs[..n] + [reqs[n]];
    }
  }

  ghost predicate SaidSoFar(view: State, done: set<OutPoint>, failed: bool, delivered: seq<Delivery>, d: Delivery) {
    multiset(delivered)[d]
    == multiset(view.delivered)[d] + if d.request.outpoint in done then Farewells(view, failed, d) else 0
  }

  lemma FarewellStep(view: State, done: set<OutPoint>, failed: bool, delivered: seq<Delivery>, op: OutPoint,
                     d: Delivery)
    requires op in view.requests && op in view.initialTxns && op !in done && SaidSoFar(view, done, failed, delivered, d)
    requires forall r | r in view.requests[op] :: r.outpoint == op
    ensures SaidSoFar(view, done + {op}, failed,
                      delivered + Answers(view.requests[op], if failed then None else view.initialTxns[op], failed), d)
  {
    AnswersCounted(view.requests[op], if failed then None else view.initialTxns[op], failed, d);
    assert d.request.outpoint != op ==> d.request !in view.requests[op];
  }

  ghost predicate AccountedFor(delivered: seq<Delivery>, requests: map<OutPoint, seq<Request>>, history: seq<Step>,
                               r: Request)
  {
    Recipients(delivered)[r] + multiset(Waiting(requests, r.outpoint))[r] == Arrived(history)[r]
  }

  lemma ArrivalsCounted(history: seq<Step>, step: Step, requests0: map<OutPoint, seq<Request>>,
                        requests1: map<OutPoint, seq<Request>>, delivered: seq<Delivery>, r: Request)
    requires Joined(requests0, step.newReqs, requests1) && AccountedFor(delivered, requests0, history, r)
    ensures AccountedFor(delivered, requests1, history + [step], r)
  {
    ForCounts(step.newReqs, r);
    ForAsks(step.newReqs, r.outpoint);
    assert (history + [step])[..|history|] == history;
  }

  lemma AllArrivalsCounted(history: seq<Step>, step: Step, requests0: map<OutPoint, seq<Request>>,
                           requests1: map<OutPoint, seq<Request>>, delivered: seq<Delivery>)
    requires Joined(requests0, step.newReqs, requests1) && forall r :: AccountedFor(delivered, requests0, history, r)
    ensures forall r :: AccountedFor(delivered, requests1, history + [step], r)
  {
    var longer := history + [step];
    forall r
      ensures AccountedFor(delivered, requests1, longer, r)
    {
      ArrivalsCounted(history, step, requests0, requests1, delivered, r);
    }
  }

  lemma AllBirthsKnown(history: seq<Step>, step: Step, initialTxns0: map<OutPoint, Option<SpendReport>>,
                       initialTxns1: map<OutPoint, Option<SpendReport>>)
    requires forall op | op in initialTxns0 :: initialTxns0[op] == KnownBirth(history, op)
    requires initialTxns1 == Births(initialTxns0, step.block, step.newReqs)
    ensures forall op | op in initialTxns1 :: initialTxns1[op] == KnownBirth(history + [step], op)
  {
    forall op | op in initialTxns1
      ensures initialTxns1[op] == KnownBirth(history + [step], op)
    {
      KnownBirthStep(history, step, op);
    }
  }

  /** The outputs of one transaction that are asked for. */
  method FindOutputs(block: Block, t: nat, reqs: seq<Request>, before: map<OutPoint, Option<SpendReport>>)
    returns (found: map<OutPoint, Option<SpendReport>>)
    requires t < |block.txs|
    ensures forall op :: op in found <==> op in before || Asks(reqs, op)
    ensures forall op | op in found ::
      found[op] == if !Asks(reqs, op) then before[op]
                   else if op.index >= |block.txs[t].outs| then None
                   else Some(Unspent(block.txs[t].outs[op.index], block.hash, block.height, t))
  {
    var txOuts := block.txs[t].outs;
    found := before;
    for k := 0 to |reqs|
      invariant forall op :: op in found <==> op in before || Asks(reqs[..k], op)
      invariant forall op | op in found ::
        found[op] == if !Asks(reqs[..k], op) then before[op]
                     else if op.index >= |txOuts| then None
                     else Some(Unspent(txOuts[op.index], block.hash, block.height, t))
    {
      var op := reqs[k].outpoint;
      forall o
        ensures Asks(reqs[..k + 1], o) <==> Asks(reqs[..k], o) || o == op
      {
        AsksStep(reqs, k, o);
      }
      found := found[op := if op.index >= |txOuts| then None
                           else Some(Unspent(txOuts[op.index], block.hash, block.height, t))];
    }
    assert reqs[..|reqs|] == reqs;
  }

  /** The reverse index from transaction id to requests, and one pass over the
      block with it. */
  method SearchBlock(block: Block, newReqs: seq<Request>) returns (found: map<OutPoint, Option<SpendReport>>)
    ensures forall op | op in found :: Asks(newReqs, op) && found[op] == Birth(block, op)
    ensures forall op | Asks(newReqs, op) && op !in found :: Birth(block, op).None?
  {
    var index: map<Hash, seq<Request>> := map[];
    for i := 0 to |newReqs|
      invariant forall hash | hash in index :: forall r | r in index[hash] :: r.outpoint.hash == hash && r in newReqs
      invariant forall k | 0 <= k < i ::
                newReqs[k].outpoint.hash in index && newReqs[k] in index[newReqs[k].outpoint.hash]
    {
      var hash := newReqs[i].outpoint.hash;
      index := index[hash := (if hash in index then index[hash] else []) + [newReqs[i]]];
    }
    found := map[];
    var t := 0;
    while t < |block.txs| && index != map[]
      invariant 0 <= t <= |block.txs| && Searching(block, t, newReqs, index, found)
      decreases |block.txs| - t
    {
      var hash := block.txs[t].hash;
      assert block.txs[..t + 1][..t] == block.txs[..t];
      if hash in index {
        index, found := SearchTx(block, t, newReqs, index, found);
      }
      t := t + 1;
    }
    assert block.txs[..|block.txs|] == block.txs;
  }

  /** The first t transactions have been looked at: what was found is right, and what is still
      to be found is in the index. */
  ghost predicate Searching(block: Block, t: nat, newReqs: seq<Request>, index: map<Hash, seq<Request>>,
                            found: map<OutPoint, Option<SpendReport>>)
    requires t <= |block.txs|
  {
    && (forall hash | hash in index :: forall r | r in index[hash] :: r.outpoint.hash == hash && r in newReqs)
    && (forall hash | hash in index :: FirstTx(block.txs[..t], hash).None?)
    && (forall op | op in found :: Asks(newReqs, op) && found[op] == Birth(block, op))
    && (forall op | Asks(newReqs, op) && op !in found ::
          op.hash in index && exists r :: r in index[op.hash] && r.outpoint == op)
  }

  /** A transaction that is asked about leaves the index. */
  method SearchTx(block: Block, t: nat, newReqs: seq<Request>, index: map<Hash, seq<Request>>,
                  found: map<OutPoint, Option<SpendReport>>)
    returns (rest: map<Hash, seq<Request>>, more: map<OutPoint, Option<SpendReport>>)
    requires t < |block.txs| && block.txs[t].hash in index && Searching(block, t, newReqs, index, found)
    ensures Searching(block, t + 1, newReqs, rest, more)
  {
    var hash := block.txs[t].hash;
    assert block.txs[..t + 1][..t] == block.txs[..t];
    FirstTxPrefix(block.txs, t, hash);
    var reqs := index[hash];
    rest := Without(index, hash);
    more := FindOutputs(block, t, reqs, found);
  }

  lemma FirstTxPrefix(txs: seq<Tx>, t: nat, hash: Hash)
    requires t < |txs| && txs[t].hash == hash && FirstTx(txs[..t], hash).None?
    ensures FirstTx(txs, hash) == Some(t)
    decreases |txs|
  {
    if t < |txs| - 1 {
      assert txs[..|txs| - 1][..t] == txs[..t];
      FirstTxPrefix(txs[..|txs| - 1], t, hash);
    }
  }
}
