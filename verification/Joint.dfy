/** The client and the bridge over one connection.

Both directions are first in, first out: the bridge takes `client.sent` in order and the client
takes `bridge.posted` in order; `consumed` and `seen` say how far they are. `Ledger` says, for each id,
how what the client knows of it, what is in the two channels and what the bridge keeps fit together;
every move of either side keeps it. */
module Joint {
  import opened Wrappers
  import opened ClientState
  import opened ClientInvariant
  import opened ClientRun
  import opened BridgeState

  datatype System = System(client: Client, bridge: Bridge, consumed: nat, seen: nat)

  const Start := System(NewClient, NewBridge, 0, 0)

  datatype Move =
    | ClientMove(step: Step)
    | Deliver
    | Consume(permitted: bool, max: nat, fate: Fate)
    | FinishHandler(id: ReqId, ok: bool)
    | FinishOther(id: ReqId, ok: bool)
    | TerminateMove(xs: seq<Sid>)
    | Emit(x: Sid, data: nat)
    | Noise
    | CloseMove

  ghost predicate CanMove(s: System, m: Move) {
    match m
    case ClientMove(step) => !step.Receive? && Enabled(s.client, step)
    case Deliver => s.seen < |s.bridge.posted| && Reading(s.client)
    case Consume(_, _, _) => s.bridge.open && s.consumed < |s.client.sent|
    case FinishHandler(id, _) => s.bridge.open && id in s.bridge.handlers
    case FinishOther(id, _) => s.bridge.open && id in s.bridge.calls
    case TerminateMove(xs) => s.bridge.open && Distinct(xs) && forall x :: x in xs ==> x in s.bridge.subscribers
    case Emit(x, _) => s.bridge.open && x in s.bridge.subscribers
    case Noise => s.bridge.open
    case CloseMove => s.bridge.open
  }

  function ConsumeNext(s: System, permitted: bool, max: nat, fate: Fate): Bridge
    requires s.consumed < |s.client.sent|
  {
    match s.client.sent[s.consumed]
    case Subscribe(id, x, t) => OnSubscribe(s.bridge, id, x, t, s.consumed, permitted, max, fate)
    case Unsubscribe(id, x) => OnUnsubscribe(s.bridge, id, x, s.consumed)
    case Other(id) => OnOther(s.bridge, id, s.consumed, fate)
  }

  function After(s: System, m: Move): System
    requires CanMove(s, m)
  {
    match m
    case ClientMove(step) => s.(client := Apply(s.client, step))
    case Deliver => s.(client := Dispatch(s.client, s.bridge.posted[s.seen]), seen := s.seen + 1)
    case Consume(permitted, max, fate) => s.(bridge := ConsumeNext(s, permitted, max, fate), consumed := s.consumed + 1)
    case FinishHandler(id, ok) => s.(bridge := HandlerDone(s.bridge, id, ok))
    case FinishOther(id, ok) => s.(bridge := CallDone(s.bridge, id, ok))
    case TerminateMove(xs) => s.(bridge := TerminateAll(s.bridge, xs))
    case Emit(x, data) => s.(bridge := Post(s.bridge, EventFrame(x, data)))
    case Noise => s.(bridge := Post(s.bridge, Uncorrelated))
    case CloseMove => s.(bridge := CloseConnection(s.bridge))
  }

  // ---------------------------------------------------------------- the joint invariant

  predicate Received(s: System, f: Frame)
    requires s.seen <= |s.bridge.posted|
  {
    f in s.bridge.posted[..s.seen]
  }

  /** What the client knows, it was told: answers, terminations. */
  ghost predicate Knows(s: System) {
    && s.consumed <= |s.client.sent| && s.seen <= |s.bridge.posted|
    && (forall id :: id in s.client.futures && s.client.futures[id].Answered? ==>
          Received(s, Response(id, s.client.futures[id].ok)))
    && (forall x :: x in s.client.entries && s.client.entries[x].state.Terminated? ==> Received(s, TerminatedFrame(x)))
    && (forall x :: x in s.client.entries && Received(s, TerminatedFrame(x)) ==> Gone(s.client.entries[x].state))
  }

  /** The bridge has taken this entry's subscribe. */
  predicate Taken(e: Entry, consumed: nat) {
    e.asking.Asked? && e.asking.at < consumed
  }

  /** The bridge has taken this entry's unsubscribe. */
  predicate Dropped(e: Entry, consumed: nat) {
    e.hold.Told? && e.hold.at < consumed
  }

  /** A claimed id was asked for, not given back, not terminated, not failed. */
  predicate ClaimRight(e: Entry, x: Sid, b: Bridge, consumed: nat) {
    && Taken(e, consumed) && !Dropped(e, consumed)
    && TerminatedFrame(x) !in b.posted && Response(e.asking.req, false) !in b.posted
  }

  /** An acknowledged id is claimed until it is terminated or given back. */
  predicate AckRight(e: Entry, x: Sid, b: Bridge, consumed: nat) {
    e.asking.Asked? && Response(e.asking.req, true) in b.posted ==> ClaimedOrOver(e, x, b, consumed)
  }

  predicate ClaimedOrOver(e: Entry, x: Sid, b: Bridge, consumed: nat) {
    x in b.subs || TerminatedFrame(x) in b.posted || Dropped(e, consumed)
  }

  ghost predicate Claims(s: System) {
    && s.bridge.subs == s.bridge.subscribers
    && (forall x :: x in s.bridge.subs ==>
          x in s.client.entries && ClaimRight(s.client.entries[x], x, s.bridge, s.consumed))
    && (forall x :: TerminatedFrame(x) in s.bridge.posted ==>
          x in s.client.entries && Taken(s.client.entries[x], s.consumed))
  }

  /** While the connection is open, an acknowledged id and one whose handler still runs are claimed
      until they are terminated or given back. */
  ghost predicate Owed(s: System) {
    s.bridge.open ==>
      && (forall x :: x in s.client.entries ==> AckRight(s.client.entries[x], x, s.bridge, s.consumed))
      && (forall id :: id in s.bridge.handlers && s.bridge.handlers[id].sid in s.client.entries ==>
            ClaimedOrOver(s.client.entries[s.bridge.handlers[id].sid], s.bridge.handlers[id].sid, s.bridge, s.consumed))
  }

  /** Every response answers one request taken before; a request still open has none. */
  ghost predicate Answers(s: System) {
    && (forall id, ok :: Response(id, ok) in s.bridge.posted ==> id in s.bridge.answered)
    && (forall id :: id in s.bridge.answered ==> TakenAt(s, id, s.bridge.answered[id]))
    && (forall id :: id in s.bridge.handlers ==> id !in s.bridge.answered && HandlerRight(s, id, s.bridge.handlers[id]))
    && (forall id :: id in s.bridge.calls ==> id !in s.bridge.answered && CallRight(s, id, s.bridge.calls[id]))
  }

  predicate CallRight(s: System, id: ReqId, at: nat) {
    TakenAt(s, id, at) && s.client.sent[at].Other?
  }

  predicate TakenAt(s: System, id: ReqId, i: nat) {
    i < s.consumed && i < |s.client.sent| && s.client.sent[i].id == id
  }

  predicate HandlerRight(s: System, id: ReqId, h: Handler) {
    h.sid in s.client.entries && h.at < s.consumed && s.client.entries[h.sid].asking == Asked(h.at, id)
  }

  /** The bridge's side of the invariant, opened by `LedgerMeans`. */
  ghost predicate Ledger(s: System) {
    forall k {:trigger Look(k)} :: Look(k) ==>
      Linked(s.client) && Sent(s.client) && s.consumed <= |s.client.sent| && Claims(s) && Owed(s) && Answers(s)
  }

  lemma LedgerMeans(s: System)
    ensures Ledger(s) <==>
      Linked(s.client) && Sent(s.client) && s.consumed <= |s.client.sent| && Claims(s) && Owed(s) && Answers(s)
  {
    assert Look(0);
  }

  ghost predicate JointInv(s: System) {
    Good(s.client) && Knows(s) && Ledger(s)
  }

  lemma StartHolds()
    ensures JointInv(Start)
  {
    InitHolds();
    GoodMeans(NewClient);
    LedgerMeans(Start);
  }

  // ---------------------------------------------------------------- client moves

  /** The history of an entry up to the requests known before does not change. */
  lemma OldRequests(c: Client, d: Client, news: Frame, n: nat)
    requires Linked(c) && Linked(d) && Evolves(c, d, news) && n <= |c.sent|
    ensures forall x :: x in c.entries ==> x in d.entries
    ensures forall x :: x in d.entries && Taken(d.entries[x], n) ==>
      x in c.entries && c.entries[x].asking == d.entries[x].asking
    ensures forall x :: x in d.entries && Dropped(d.entries[x], n) ==> x in c.entries && c.entries[x].hold == d.entries[x].hold
    ensures forall x :: x in c.entries && Taken(c.entries[x], n) ==> c.entries[x].asking == d.entries[x].asking
    ensures forall x :: x in c.entries && Dropped(c.entries[x], n) ==> c.entries[x].hold == d.entries[x].hold
  {
    EvolvesMeans(c, d, news);
    forall x | x in d.entries && Taken(d.entries[x], n)
      ensures x in c.entries && c.entries[x].asking == d.entries[x].asking
    {
      var at := d.entries[x].asking.at;
      assert EntrySent(d.entries[x], x, d.sent);
      assert c.sent[at] == d.sent[at];
      assert RequestRight(c.sent[at], at, c.entries);
    }
    forall x | x in d.entries && Dropped(d.entries[x], n)
      ensures x in c.entries && c.entries[x].hold == d.entries[x].hold
    {
      var at := d.entries[x].hold.at;
      assert EntrySent(d.entries[x], x, d.sent);
      assert c.sent[at] == d.sent[at];
      assert RequestRight(c.sent[at], at, c.entries);
    }
  }

  lemma ClientClaims(s: System, d: Client, news: Frame)
    requires Linked(s.client) && Linked(d) && Evolves(s.client, d, news) && s.consumed <= |s.client.sent|
    requires Claims(s)
    ensures Claims(s.(client := d))
  {
    OldRequests(s.client, d, news, s.consumed);
  }

  lemma ClientOwed(s: System, d: Client, news: Frame)
    requires Linked(s.client) && Linked(d) && Sent(d) && Evolves(s.client, d, news) && s.consumed <= |s.client.sent|
    requires Owed(s) && Answers(s)
    ensures Owed(s.(client := d))
  {
    OldRequests(s.client, d, news, s.consumed);
    forall x | s.bridge.open && x in d.entries
      ensures AckRight(d.entries[x], x, s.bridge, s.consumed)
    {
      if d.entries[x].asking.Asked? && Response(d.entries[x].asking.req, true) in s.bridge.posted {
        AnsweredTaken(s, d, news, x, true);
      }
    }
    forall id | id in s.bridge.handlers
      ensures s.bridge.handlers[id].sid in s.client.entries
    {
      assert HandlerRight(s, id, s.bridge.handlers[id]);
    }
  }

  /** An entry whose request has a response was asked before the bridge took that request. */
  lemma AnsweredTaken(s: System, d: Client, news: Frame, x: Sid, ok: bool)
    requires Linked(s.client) && Linked(d) && Sent(d) && Evolves(s.client, d, news) && s.consumed <= |s.client.sent|
    requires Answers(s) && x in d.entries && d.entries[x].asking.Asked?
    requires Response(d.entries[x].asking.req, ok) in s.bridge.posted
    ensures Taken(d.entries[x], s.consumed)
    ensures x in s.client.entries && s.client.entries[x].asking == d.entries[x].asking
  {
    EvolvesMeans(s.client, d, news);
    var id := d.entries[x].asking.req;
    var i := s.bridge.answered[id];
    assert TakenAt(s, id, i);
    assert s.client.sent[i] == d.sent[i];
    assert EntrySent(d.entries[x], x, d.sent);
    OldRequests(s.client, d, news, s.consumed);
  }

  lemma ClientAnswers(s: System, d: Client, news: Frame)
    requires Linked(s.client) && Linked(d) && Evolves(s.client, d, news) && s.consumed <= |s.client.sent|
    requires Answers(s)
    ensures Answers(s.(client := d))
  {
    EvolvesMeans(s.client, d, news);
    OldRequests(s.client, d, news, s.consumed);
    var t := s.(client := d);
    forall id | id in s.bridge.handlers
      ensures HandlerRight(t, id, s.bridge.handlers[id])
    {
      assert HandlerRight(s, id, s.bridge.handlers[id]);
    }
    forall id | id in s.bridge.calls
      ensures CallRight(t, id, s.bridge.calls[id])
    {
      assert CallRight(s, id, s.bridge.calls[id]);
    }
    forall id | id in s.bridge.answered
      ensures TakenAt(t, id, s.bridge.answered[id])
    {
      assert TakenAt(s, id, s.bridge.answered[id]);
    }
  }

  lemma ClientKnows(s: System, d: Client)
    requires Knows(s) && Claims(s) && Evolves(s.client, d, Uncorrelated)
    ensures Knows(s.(client := d))
  {
    EvolvesMeans(s.client, d, Uncorrelated);
  }

  lemma ClientMoveParts(s: System, d: Client)
    requires Good(s.client) && Good(d) && Follows(s.client, d, Uncorrelated) && Knows(s) && Ledger(s)
    ensures var t := s.(client := d); Knows(t) && Ledger(t)
  {
    GoodMeans(s.client);
    InvMeans(s.client);
    GoodMeans(d);
    InvMeans(d);
    FollowsMeans(s.client, d, Uncorrelated);
    LedgerMeans(s);
    LedgerMeans(s.(client := d));
    EvolvesMeans(s.client, d, Uncorrelated);
    ClientClaims(s, d, Uncorrelated);
    ClientOwed(s, d, Uncorrelated);
    ClientAnswers(s, d, Uncorrelated);
    ClientKnows(s, d);
  }

  lemma ClientMoveKeeps(s: System, step: Step)
    requires JointInv(s) && CanMove(s, ClientMove(step))
    ensures JointInv(After(s, ClientMove(step)))
  {
    StepGood(s.client, step);
    ClientMoveParts(s, Apply(s.client, step));
  }

  lemma DeliverKnows(s: System, d: Client)
    requires Knows(s) && Claims(s) && s.seen < |s.bridge.posted| && Evolves(s.client, d, s.bridge.posted[s.seen])
    requires forall x :: s.bridge.posted[s.seen] == TerminatedFrame(x) && x in d.entries ==> Gone(d.entries[x].state)
    ensures Knows(s.(client := d, seen := s.seen + 1))
  {
    EvolvesMeans(s.client, d, s.bridge.posted[s.seen]);
    var t := s.(client := d, seen := s.seen + 1);
    assert t.bridge.posted[..t.seen] == s.bridge.posted[..s.seen] + [s.bridge.posted[s.seen]];
    forall f
      ensures Received(t, f) <==> Received(s, f) || f == s.bridge.posted[s.seen]
    {
    }
  }

  lemma DispatchGood(c: Client, f: Frame)
    requires Good(c) && Reading(c)
    ensures var d := Dispatch(c, f); Good(d) && Follows(c, d, f)
    ensures forall x :: f == TerminatedFrame(x) && x in Dispatch(c, f).entries ==> Gone(Dispatch(c, f).entries[x].state)
  {
    StepGood(c, Receive(f));
    if f.TerminatedFrame? {
      GoodMeans(c);
      ReceiveTerminationKeeps(c, f.sid);
    }
  }

  lemma DeliverParts(s: System, d: Client)
    requires Good(s.client) && Knows(s) && Ledger(s) && s.seen < |s.bridge.posted|
    requires Good(d) && Follows(s.client, d, s.bridge.posted[s.seen])
    requires forall x :: s.bridge.posted[s.seen] == TerminatedFrame(x) && x in d.entries ==> Gone(d.entries[x].state)
    ensures var t := s.(client := d, seen := s.seen + 1); Knows(t) && Ledger(t)
  {
    GoodMeans(s.client);
    InvMeans(s.client);
    GoodMeans(d);
    InvMeans(d);
    FollowsMeans(s.client, d, s.bridge.posted[s.seen]);
    LedgerMeans(s);
    LedgerMeans(s.(client := d, seen := s.seen + 1));
    EvolvesMeans(s.client, d, s.bridge.posted[s.seen]);
    ClientClaims(s, d, s.bridge.posted[s.seen]);
    ClientOwed(s, d, s.bridge.posted[s.seen]);
    ClientAnswers(s, d, s.bridge.posted[s.seen]);
    DeliverKnows(s, d);
    SeenApart(s, d);
  }

  lemma SeenApart(s: System, d: Client)
    requires Claims(s.(client := d)) && Owed(s.(client := d)) && Answers(s.(client := d))
    ensures var t := s.(client := d, seen := s.seen + 1); Claims(t) && Owed(t) && Answers(t)
  {
    var t := s.(client := d);
    var u := s.(client := d, seen := s.seen + 1);
    forall id | id in u.bridge.handlers
      ensures HandlerRight(u, id, u.bridge.handlers[id])
    {
      assert HandlerRight(t, id, t.bridge.handlers[id]);
    }
    forall id | id in u.bridge.calls
      ensures CallRight(u, id, u.bridge.calls[id])
    {
      assert CallRight(t, id, t.bridge.calls[id]);
    }
    forall id | id in u.bridge.answered
      ensures TakenAt(u, id, u.bridge.answered[id])
    {
      assert TakenAt(t, id, t.bridge.answered[id]);
    }
  }

  lemma AfterDeliver(s: System, d: Client)
    requires CanMove(s, Deliver) && d == Dispatch(s.client, s.bridge.posted[s.seen])
    ensures After(s, Deliver) == s.(client := d, seen := s.seen + 1)
  {
  }

  lemma DispatchTo(s: System) returns (d: Client)
    requires Good(s.client) && CanMove(s, Deliver)
    ensures Good(d) && Follows(s.client, d, s.bridge.posted[s.seen])
    ensures forall x :: s.bridge.posted[s.seen] == TerminatedFrame(x) && x in d.entries ==> Gone(d.entries[x].state)
    ensures After(s, Deliver) == s.(client := d, seen := s.seen + 1)
  {
    d := Dispatch(s.client, s.bridge.posted[s.seen]);
    DispatchGood(s.client, s.bridge.posted[s.seen]);
    AfterDeliver(s, d);
  }

  lemma DeliverKeeps(s: System)
    requires JointInv(s) && CanMove(s, Deliver)
    ensures JointInv(After(s, Deliver))
  {
    var d := DispatchTo(s);
    DeliverParts(s, d);
  }

  // ---------------------------------------------------------------- bridge moves

  predicate LongerPost(a: seq<Frame>, b: seq<Frame>) {
    a <= b
  }

  lemma BridgeKnows(s: System, b: Bridge, n: nat)
    requires Knows(s) && LongerPost(s.bridge.posted, b.posted) && n <= |s.client.sent|
    ensures Knows(s.(bridge := b, consumed := n))
  {
    assert b.posted[..s.seen] == s.bridge.posted[..s.seen];
  }

  /** A request other than an entry's own subscribe has another id. */
  lemma OtherId(c: Client, i: nat, y: Sid)
    requires Linked(c) && Sent(c) && i < |c.sent| && y in c.entries && c.entries[y].asking.Asked?
    requires c.sent[i].Subscribe? ==> c.sent[i].sid != y
    ensures c.entries[y].asking.req != c.sent[i].id
  {
    assert EntrySent(c.entries[y], y, c.sent);
  }

  /** The next request has not been answered, and is not one still open. */
  lemma NextUnanswered(s: System)
    requires Sent(s.client) && Answers(s) && s.consumed < |s.client.sent|
    ensures var id := s.client.sent[s.consumed].id;
      && id !in s.bridge.answered && id !in s.bridge.calls
      && forall ok :: Response(id, ok) !in s.bridge.posted
  {
  }

  /** Requests taken so far stay taken. */
  lemma LaterAnswers(s: System)
    requires Answers(s) && s.consumed < |s.client.sent|
    ensures Answers(s.(consumed := s.consumed + 1))
  {
    var t := s.(consumed := s.consumed + 1);
    forall id | id in t.bridge.handlers
      ensures HandlerRight(t, id, t.bridge.handlers[id])
    {
      assert HandlerRight(s, id, s.bridge.handlers[id]);
    }
    forall id | id in t.bridge.calls
      ensures CallRight(t, id, t.bridge.calls[id])
    {
      assert CallRight(s, id, s.bridge.calls[id]);
    }
    forall id | id in t.bridge.answered
      ensures TakenAt(t, id, t.bridge.answered[id])
    {
      assert TakenAt(s, id, s.bridge.answered[id]);
    }
  }

  /** An answer to a request that was taken and has none yet. */
  lemma AnswerAnswers(s: System, id: ReqId, ok: bool, at: nat)
    requires Answers(s) && TakenAt(s, id, at) && id !in s.bridge.handlers && id !in s.bridge.calls
    ensures Answers(s.(bridge := Answer(s.bridge, id, ok, at)))
  {
    var t := s.(bridge := Answer(s.bridge, id, ok, at));
    forall i | i in t.bridge.handlers
      ensures i !in t.bridge.answered && HandlerRight(t, i, t.bridge.handlers[i])
    {
      assert HandlerRight(s, i, s.bridge.handlers[i]);
    }
    forall i | i in t.bridge.calls
      ensures i !in t.bridge.answered && CallRight(t, i, t.bridge.calls[i])
    {
      assert CallRight(s, i, s.bridge.calls[i]);
    }
    forall i | i in t.bridge.answered
      ensures TakenAt(t, i, t.bridge.answered[i])
    {
      assert i in s.bridge.answered ==> TakenAt(s, i, s.bridge.answered[i]);
    }
  }

  /** The next request, and its entry, before the bridge takes it. */
  lemma NextRequest(s: System)
    requires Linked(s.client) && s.consumed < |s.client.sent|
    ensures match s.client.sent[s.consumed]
      case Subscribe(id, x, t) =>
        && x in s.client.entries && s.client.entries[x].asking == Asked(s.consumed, id)
        && !Dropped(s.client.entries[x], s.consumed + 1)
      case Unsubscribe(id, x) => x in s.client.entries && s.client.entries[x].hold == Told(s.consumed)
      case Other(_) => true
  {
    var r := s.client.sent[s.consumed];
    assert RequestRight(r, s.consumed, s.client.entries);
    if r.Subscribe? {
      assert EntrySent(s.client.entries[r.sid], r.sid, s.client.sent);
    }
  }

  /** An answer to a request that is not an entry's subscribe leaves every claim as it was. */
  lemma OtherAnswer(s: System, i: nat, ok: bool)
    requires Linked(s.client) && Sent(s.client) && i < |s.client.sent| && !s.client.sent[i].Subscribe?
    requires Claims(s) && Owed(s)
    ensures var t := s.(bridge := Answer(s.bridge, s.client.sent[i].id, ok, i)); Claims(t) && Owed(t)
  {
    var id := s.client.sent[i].id;
    var t := s.(bridge := Answer(s.bridge, id, ok, i));
    forall y | y in s.client.entries && s.client.entries[y].asking.Asked?
      ensures s.client.entries[y].asking.req != id
    {
      OtherId(s.client, i, y);
    }
    forall f
      ensures f in t.bridge.posted <==> f in s.bridge.posted || f == Response(id, ok)
    {
    }
  }

  lemma LaterClaims(s: System)
    requires Claims(s) && Owed(s) && s.consumed < |s.client.sent| && Linked(s.client)
    requires s.client.sent[s.consumed].Other?
    ensures var t := s.(consumed := s.consumed + 1); Claims(t) && Owed(t)
  {
    forall x | x in s.client.entries && Dropped(s.client.entries[x], s.consumed + 1)
      ensures Dropped(s.client.entries[x], s.consumed)
    {
      assert EntrySent(s.client.entries[x], x, s.client.sent);
    }
  }

  /** Only a subscribe request has a handler. */
  lemma NotHandled(s: System, i: nat)
    requires Linked(s.client) && Sent(s.client) && Answers(s) && i < |s.client.sent|
    requires s.client.sent[i].Subscribe? ==> i >= s.consumed
    ensures s.client.sent[i].id !in s.bridge.handlers
  {
    forall j | j in s.bridge.handlers
      ensures j != s.client.sent[i].id
    {
      var h := s.bridge.handlers[j];
      assert HandlerRight(s, j, h);
      assert EntrySent(s.client.entries[h.sid], h.sid, s.client.sent);
    }
  }

  lemma OpenCall(s: System, id: ReqId, at: nat)
    requires Claims(s) && Owed(s) && Answers(s) && CallRight(s, id, at) && id !in s.bridge.answered
    ensures var t := s.(bridge := s.bridge.(calls := s.bridge.calls[id := at])); Claims(t) && Owed(t) && Answers(t)
  {
    var t := s.(bridge := s.bridge.(calls := s.bridge.calls[id := at]));
    forall i | i in t.bridge.handlers
      ensures HandlerRight(t, i, t.bridge.handlers[i])
    {
      assert HandlerRight(s, i, s.bridge.handlers[i]);
    }
    forall i | i in t.bridge.calls
      ensures CallRight(t, i, t.bridge.calls[i])
    {
      assert i != id ==> CallRight(s, i, s.bridge.calls[i]);
    }
    forall i | i in t.bridge.answered
      ensures TakenAt(t, i, t.bridge.answered[i])
    {
      assert TakenAt(s, i, s.bridge.answered[i]);
    }
  }

  // ---------------------------------------------------------------- taking requests

  /** A request that was taken and not answered yet. */
  predicate Unanswered(s: System, id: ReqId, at: nat) {
    TakenAt(s, id, at) && id !in s.bridge.answered && id !in s.bridge.handlers && id !in s.bridge.calls
  }

  lemma UnsubscribeDrops(s: System)
    requires Ledger(s) && s.consumed < |s.client.sent| && s.client.sent[s.consumed].Unsubscribe?
    ensures var u := s.(bridge := Unclaim(s.bridge, s.client.sent[s.consumed].sid), consumed := s.consumed + 1);
      Ledger(u) && Unanswered(u, s.client.sent[s.consumed].id, s.consumed)
  {
    LedgerMeans(s);
    var i := s.consumed;
    var x := s.client.sent[i].sid;
    NextRequest(s);
    NextUnanswered(s);
    NotHandled(s, i);
    GiveBack(s, x);
    LaterAnswers(s);
    SameAnswers(s.(consumed := i + 1), Unclaim(s.bridge, x));
    LedgerMeans(s.(bridge := Unclaim(s.bridge, x), consumed := i + 1));
  }

  lemma LedgerAnswers(u: System, i: nat, ok: bool)
    requires Ledger(u) && i < |u.client.sent| && !u.client.sent[i].Subscribe? && Unanswered(u, u.client.sent[i].id, i)
    ensures Ledger(u.(bridge := Answer(u.bridge, u.client.sent[i].id, ok, i)))
  {
    LedgerMeans(u);
    OtherAnswer(u, i, ok);
    AnswerAnswers(u, u.client.sent[i].id, ok, i);
    LedgerMeans(u.(bridge := Answer(u.bridge, u.client.sent[i].id, ok, i)));
  }

  lemma TakeUnsubscribe(s: System, permitted: bool, max: nat, fate: Fate)
    requires Ledger(s) && s.consumed < |s.client.sent| && s.client.sent[s.consumed].Unsubscribe?
    ensures Ledger(s.(bridge := ConsumeNext(s, permitted, max, fate), consumed := s.consumed + 1))
  {
    UnsubscribeDrops(s);
    LedgerAnswers(s.(bridge := Unclaim(s.bridge, s.client.sent[s.consumed].sid), consumed := s.consumed + 1),
                  s.consumed, true);
  }

  lemma GiveBack(s: System, x: Sid)
    requires Linked(s.client) && s.consumed < |s.client.sent|
    requires x in s.client.entries && s.client.entries[x].hold == Told(s.consumed)
    requires Claims(s) && Owed(s) && s.client.sent[s.consumed].Unsubscribe? && s.client.sent[s.consumed].sid == x
    ensures var u := s.(bridge := Unclaim(s.bridge, x), consumed := s.consumed + 1); Claims(u) && Owed(u)
  {
    GivesBackClaims(s, x);
    GivesBackOwed(s, x);
  }

  lemma OthersHeld(s: System, x: Sid)
    requires Linked(s.client) && s.consumed < |s.client.sent|
    requires x in s.client.entries && s.client.entries[x].hold == Told(s.consumed)
    requires s.client.sent[s.consumed].Unsubscribe? && s.client.sent[s.consumed].sid == x
    ensures forall y :: y in s.client.entries && y != x && Dropped(s.client.entries[y], s.consumed + 1) ==>
      Dropped(s.client.entries[y], s.consumed)
  {
    forall y | y in s.client.entries && y != x && Dropped(s.client.entries[y], s.consumed + 1)
      ensures Dropped(s.client.entries[y], s.consumed)
    {
      assert EntrySent(s.client.entries[y], y, s.client.sent);
    }
  }

  lemma GivesBackClaims(s: System, x: Sid)
    requires Linked(s.client) && s.consumed < |s.client.sent| && Claims(s)
    requires x in s.client.entries && s.client.entries[x].hold == Told(s.consumed)
    requires s.client.sent[s.consumed].Unsubscribe? && s.client.sent[s.consumed].sid == x
    ensures Claims(s.(bridge := Unclaim(s.bridge, x), consumed := s.consumed + 1))
  {
    OthersHeld(s, x);
  }

  lemma GivesBackOwed(s: System, x: Sid)
    requires Linked(s.client) && s.consumed < |s.client.sent| && Owed(s)
    requires x in s.client.entries && s.client.entries[x].hold == Told(s.consumed)
    requires s.client.sent[s.consumed].Unsubscribe? && s.client.sent[s.consumed].sid == x
    ensures Owed(s.(bridge := Unclaim(s.bridge, x), consumed := s.consumed + 1))
  {
    OthersHeld(s, x);
  }

  /** Answers do not depend on the claims. */
  lemma SameAnswers(s: System, b: Bridge)
    requires Answers(s) && b.posted == s.bridge.posted && b.answered == s.bridge.answered
    requires b.handlers == s.bridge.handlers && b.calls == s.bridge.calls
    ensures Answers(s.(bridge := b))
  {
    var t := s.(bridge := b);
    forall i | i in t.bridge.handlers
      ensures HandlerRight(t, i, t.bridge.handlers[i])
    {
      assert HandlerRight(s, i, s.bridge.handlers[i]);
    }
    forall i | i in t.bridge.calls
      ensures CallRight(t, i, t.bridge.calls[i])
    {
      assert CallRight(s, i, s.bridge.calls[i]);
    }
    forall i | i in t.bridge.answered
      ensures TakenAt(t, i, t.bridge.answered[i])
    {
      assert TakenAt(s, i, s.bridge.answered[i]);
    }
  }

  /** What the bridge makes of a subscribe, claims first. */
  lemma ClaimNext(s: System, x: Sid, u: System, claim: bool)
    requires Linked(s.client) && s.consumed < |s.client.sent| && s.client.sent[s.consumed].Subscribe?
    requires s.client.sent[s.consumed].sid == x && x in s.client.entries
    requires s.client.entries[x].asking == Asked(s.consumed, s.client.sent[s.consumed].id)
    requires !Dropped(s.client.entries[x], s.consumed + 1)
    requires forall ok :: Response(s.client.sent[s.consumed].id, ok) !in s.bridge.posted
    requires Claims(s) && Owed(s) && u == Claimed(s, claim)
    ensures x !in s.bridge.subs && Claims(u) && Owed(u)
  {
    forall y | y in s.client.entries && y != x && Dropped(s.client.entries[y], s.consumed + 1)
      ensures Dropped(s.client.entries[y], s.consumed)
    {
      assert EntrySent(s.client.entries[y], y, s.client.sent);
    }
    assert TerminatedFrame(x) !in s.bridge.posted;
  }

  /** The answer to the subscribe of `x`: yes while it is claimed, no while it is not. */
  lemma OwnAnswer(s: System, x: Sid, ok: bool)
    requires Linked(s.client) && Sent(s.client) && x in s.client.entries && Taken(s.client.entries[x], s.consumed)
    requires s.consumed <= |s.client.sent|
    requires Claims(s) && Owed(s) && (s.bridge.open && ok ==> ClaimedOrOver(s.client.entries[x], x, s.bridge, s.consumed))
    requires !ok ==> x !in s.bridge.subs
    ensures var e := s.client.entries[x];
      var t := s.(bridge := Answer(s.bridge, e.asking.req, ok, e.asking.at)); Claims(t) && Owed(t)
  {
    var e := s.client.entries[x];
    var id := e.asking.req;
    var t := s.(bridge := Answer(s.bridge, id, ok, e.asking.at));
    assert EntrySent(e, x, s.client.sent);
    forall y | y in s.client.entries && y != x && s.client.entries[y].asking.Asked?
      ensures s.client.entries[y].asking.req != id
    {
      OtherId(s.client, e.asking.at, y);
    }
    forall f
      ensures f in t.bridge.posted <==> f in s.bridge.posted || f == Response(id, ok)
    {
    }
  }

  lemma SubscribeClaims(s: System, stays: bool)
    requires Ledger(s) && s.consumed < |s.client.sent| && s.client.sent[s.consumed].Subscribe?
    ensures var r := s.client.sent[s.consumed]; var u := Claimed(s, stays);
      && Ledger(u) && Unanswered(u, r.id, s.consumed) && OwnRequest(u, r.sid, r.id, s.consumed)
      && r.sid !in s.bridge.subs && s.bridge.subs == s.bridge.subscribers
  {
    LedgerMeans(s);
    NextRequest(s);
    NextUnanswered(s);
    NotHandled(s, s.consumed);
    ClaimedClaims(s, stays);
    ClaimedAnswers(s, stays);
    LedgerMeans(Claimed(s, stays));
  }

  lemma ClaimedClaims(s: System, stays: bool)
    requires Linked(s.client) && Sent(s.client) && Claims(s) && Owed(s) && Answers(s)
    requires s.consumed < |s.client.sent| && s.client.sent[s.consumed].Subscribe?
    ensures Claims(Claimed(s, stays)) && Owed(Claimed(s, stays)) && s.client.sent[s.consumed].sid !in s.bridge.subs
  {
    NextRequest(s);
    NextUnanswered(s);
    ClaimNext(s, s.client.sent[s.consumed].sid, Claimed(s, stays), stays);
  }

  lemma ClaimedAnswers(s: System, stays: bool)
    requires Answers(s) && s.consumed < |s.client.sent| && s.client.sent[s.consumed].Subscribe?
    ensures Answers(Claimed(s, stays))
  {
    LaterAnswers(s);
    SameAnswers(s.(consumed := s.consumed + 1), Claimed(s, stays).bridge);
  }

  predicate OwnRequest(s: System, x: Sid, id: ReqId, at: nat) {
    x in s.client.entries && s.client.entries[x].asking == Asked(at, id)
  }

  lemma LedgerAcks(u: System, x: Sid, id: ReqId, at: nat, ok: bool)
    requires Ledger(u) && Unanswered(u, id, at) && OwnRequest(u, x, id, at) && x in u.client.entries
    requires u.bridge.open && ok ==> ClaimedOrOver(u.client.entries[x], x, u.bridge, u.consumed)
    requires !ok ==> x !in u.bridge.subs
    ensures Ledger(u.(bridge := Answer(u.bridge, id, ok, at)))
  {
    LedgerMeans(u);
    OwnAnswer(u, x, ok);
    AnswerAnswers(u, id, ok, at);
    LedgerMeans(u.(bridge := Answer(u.bridge, id, ok, at)));
  }

  lemma LedgerHandles(u: System, x: Sid, id: ReqId, at: nat)
    requires Ledger(u) && Unanswered(u, id, at) && OwnRequest(u, x, id, at) && x in u.bridge.subs
    ensures Ledger(u.(bridge := u.bridge.(handlers := u.bridge.handlers[id := Handler(x, at)])))
  {
    LedgerMeans(u);
    OpenHandler(u, id, Handler(x, at));
    LedgerMeans(u.(bridge := u.bridge.(handlers := u.bridge.handlers[id := Handler(x, at)])));
  }

  /** The bridge once it has claimed the id of the next request, or not. */
  function Claimed(s: System, stays: bool): System
    requires s.consumed < |s.client.sent| && s.client.sent[s.consumed].Subscribe?
  {
    var r := s.client.sent[s.consumed];
    s.(bridge := if stays then Claim(s.bridge, r.sid, r.target) else s.bridge, consumed := s.consumed + 1)
  }

  predicate Stays(s: System, permitted: bool, max: nat, fate: Fate) {
    permitted && |s.bridge.subs| < max && fate != Now(false)
  }

  lemma ClaimUnclaim(b: Bridge, x: Sid, t: Target)
    requires x !in b.subs && b.subscribers == b.subs
    ensures Unclaim(Claim(b, x, t), x) == b
  {
    assert b.subs[x := t] - {x} == b.subs;
  }

  /** What becomes of the subscribe request `r` at place `i`, once its id has been claimed or not. */
  function Outcome(b: Bridge, r: Request, i: nat, stays: bool, fate: Fate): Bridge
    requires r.Subscribe?
  {
    if !stays then Answer(b, r.id, false, i)
    else if fate.Now? then Answer(b, r.id, true, i)
    else if fate.Later? then b.(handlers := b.handlers[r.id := Handler(r.sid, i)])
    else b
  }

  /** `_subscribe` is a claim followed by an answer, by a handler, or by neither. */
  lemma SubscribeOutcome(s: System, permitted: bool, max: nat, fate: Fate)
    requires s.consumed < |s.client.sent| && s.client.sent[s.consumed].Subscribe?
    requires s.client.sent[s.consumed].sid !in s.bridge.subs && s.bridge.subs == s.bridge.subscribers
    ensures var i := s.consumed; var r := s.client.sent[i]; var stays := Stays(s, permitted, max, fate);
      ConsumeNext(s, permitted, max, fate) == Outcome(Claimed(s, stays).bridge, r, i, stays, fate)
  {
    ClaimUnclaim(s.bridge, s.client.sent[s.consumed].sid, s.client.sent[s.consumed].target);
  }

  lemma OutcomeKeeps(u: System, r: Request, i: nat, stays: bool, fate: Fate)
    requires r.Subscribe? && Ledger(u) && Unanswered(u, r.id, i) && OwnRequest(u, r.sid, r.id, i)
    requires stays <==> r.sid in u.bridge.subs
    ensures Ledger(u.(bridge := Outcome(u.bridge, r, i, stays, fate)))
  {
    if !stays {
      LedgerAcks(u, r.sid, r.id, i, false);
    } else if fate.Now? {
      LedgerAcks(u, r.sid, r.id, i, true);
    } else if fate.Later? {
      LedgerHandles(u, r.sid, r.id, i);
    }
  }

  lemma TakeSubscribe(s: System, permitted: bool, max: nat, fate: Fate)
    requires Ledger(s) && s.consumed < |s.client.sent| && s.client.sent[s.consumed].Subscribe?
    ensures Ledger(s.(bridge := ConsumeNext(s, permitted, max, fate), consumed := s.consumed + 1))
  {
    var stays := Stays(s, permitted, max, fate);
    var u, r := NextClaimed(s, stays);
    var t := OutcomeIsNext(s, u, r, permitted, max, fate);
    OutcomeKeeps(u, r, s.consumed, stays, fate);
  }

  /** The next subscribe request `r` and the system `u` once its id has been claimed or not. */
  lemma NextClaimed(s: System, stays: bool) returns (u: System, r: Request)
    requires Ledger(s) && s.consumed < |s.client.sent| && s.client.sent[s.consumed].Subscribe?
    ensures r == s.client.sent[s.consumed] && u == Claimed(s, stays) && r.sid !in s.bridge.subs
    ensures Ledger(u) && Unanswered(u, r.id, s.consumed) && OwnRequest(u, r.sid, r.id, s.consumed)
    ensures (stays <==> r.sid in u.bridge.subs) && s.bridge.subs == s.bridge.subscribers
  {
    SubscribeClaims(s, stays);
    StaysClaimed(s, stays);
    r := s.client.sent[s.consumed];
    u := Claimed(s, stays);
  }

  lemma OutcomeIsNext(s: System, u: System, r: Request, permitted: bool, max: nat, fate: Fate) returns (t: System)
    requires s.consumed < |s.client.sent| && r == s.client.sent[s.consumed] && r.Subscribe?
    requires r.sid !in s.bridge.subs && s.bridge.subs == s.bridge.subscribers
    requires u == Claimed(s, Stays(s, permitted, max, fate))
    ensures t == u.(bridge := Outcome(u.bridge, r, s.consumed, Stays(s, permitted, max, fate), fate))
    ensures t == s.(bridge := ConsumeNext(s, permitted, max, fate), consumed := s.consumed + 1)
  {
    SubscribeOutcome(s, permitted, max, fate);
    t := u.(bridge := Outcome(u.bridge, r, s.consumed, Stays(s, permitted, max, fate), fate));
  }

  lemma StaysClaimed(s: System, stays: bool)
    requires s.consumed < |s.client.sent| && s.client.sent[s.consumed].Subscribe?
    requires s.client.sent[s.consumed].sid !in s.bridge.subs
    ensures stays <==> s.client.sent[s.consumed].sid in Claimed(s, stays).bridge.subs
  {
  }

  lemma OtherTaken(s: System)
    requires Ledger(s) && s.consumed < |s.client.sent| && s.client.sent[s.consumed].Other?
    ensures var u := s.(consumed := s.consumed + 1); Ledger(u) && Unanswered(u, s.client.sent[s.consumed].id, s.consumed)
  {
    LedgerMeans(s);
    NextUnanswered(s);
    NotHandled(s, s.consumed);
    LaterClaims(s);
    LaterAnswers(s);
    LedgerMeans(s.(consumed := s.consumed + 1));
  }

  lemma LedgerCalls(u: System, id: ReqId, at: nat)
    requires Ledger(u) && Unanswered(u, id, at) && CallRight(u, id, at)
    ensures Ledger(u.(bridge := u.bridge.(calls := u.bridge.calls[id := at])))
  {
    LedgerMeans(u);
    OpenCall(u, id, at);
    LedgerMeans(u.(bridge := u.bridge.(calls := u.bridge.calls[id := at])));
  }

  lemma TakeOther(s: System, permitted: bool, max: nat, fate: Fate)
    requires Ledger(s) && s.consumed < |s.client.sent| && s.client.sent[s.consumed].Other?
    ensures Ledger(s.(bridge := ConsumeNext(s, permitted, max, fate), consumed := s.consumed + 1))
  {
    var i := s.consumed;
    var u := s.(consumed := i + 1);
    OtherTaken(s);
    match fate
    case Now(ok) => LedgerAnswers(u, i, ok);
    case Later => LedgerCalls(u, s.client.sent[i].id, i);
    case Never =>
  }

  lemma OpenHandler(s: System, id: ReqId, h: Handler)
    requires Claims(s) && Owed(s) && Answers(s) && HandlerRight(s, id, h) && id !in s.bridge.answered && h.sid in s.bridge.subs
    ensures var t := s.(bridge := s.bridge.(handlers := s.bridge.handlers[id := h])); Claims(t) && Owed(t) && Answers(t)
  {
    var t := s.(bridge := s.bridge.(handlers := s.bridge.handlers[id := h]));
    forall i | i in t.bridge.handlers
      ensures HandlerRight(t, i, t.bridge.handlers[i])
    {
      assert i != id ==> HandlerRight(s, i, s.bridge.handlers[i]);
    }
    forall i | i in t.bridge.calls
      ensures CallRight(t, i, t.bridge.calls[i])
    {
      assert CallRight(s, i, s.bridge.calls[i]);
    }
    forall i | i in t.bridge.answered
      ensures TakenAt(t, i, t.bridge.answered[i])
    {
      assert TakenAt(s, i, s.bridge.answered[i]);
    }
  }

  // ---------------------------------------------------------------- the bridge on its own

  lemma HandlerLeaves(s: System, id: ReqId, ok: bool)
    requires Ledger(s) && id in s.bridge.handlers
    ensures var h := s.bridge.handlers[id];
      var b1 := s.bridge.(handlers := s.bridge.handlers - {id});
      var u := s.(bridge := if ok then b1 else Unclaim(b1, h.sid));
      && Ledger(if ok then u else s) && Unanswered(u, id, h.at) && OwnRequest(u, h.sid, id, h.at)
      && (s.bridge.open ==> ClaimedOrOver(s.client.entries[h.sid], h.sid, s.bridge, s.consumed))
  {
    LedgerMeans(s);
    var h := s.bridge.handlers[id];
    assert HandlerRight(s, id, h);
    assert EntrySent(s.client.entries[h.sid], h.sid, s.client.sent);
    CallsApart(s, id);
    HandlerGone(s, id);
    LedgerMeans(s.(bridge := s.bridge.(handlers := s.bridge.handlers - {id})));
  }

  lemma CallsApart(s: System, id: ReqId)
    requires Linked(s.client) && Sent(s.client) && Answers(s) && id in s.bridge.handlers
    ensures id !in s.bridge.calls
  {
    var h := s.bridge.handlers[id];
    assert HandlerRight(s, id, h);
    assert EntrySent(s.client.entries[h.sid], h.sid, s.client.sent);
    forall i | i in s.bridge.calls
      ensures i != id
    {
      assert CallRight(s, i, s.bridge.calls[i]);
    }
  }

  lemma HandlerGone(s: System, id: ReqId)
    requires Claims(s) && Owed(s) && Answers(s) && id in s.bridge.handlers
    ensures var t := s.(bridge := s.bridge.(handlers := s.bridge.handlers - {id})); Claims(t) && Owed(t) && Answers(t)
  {
    var t := s.(bridge := s.bridge.(handlers := s.bridge.handlers - {id}));
    forall i | i in t.bridge.handlers
      ensures HandlerRight(t, i, t.bridge.handlers[i])
    {
      assert HandlerRight(s, i, s.bridge.handlers[i]);
    }
    forall i | i in t.bridge.calls
      ensures CallRight(t, i, t.bridge.calls[i])
    {
      assert CallRight(s, i, s.bridge.calls[i]);
    }
    forall i | i in t.bridge.answered
      ensures TakenAt(t, i, t.bridge.answered[i])
    {
      assert TakenAt(s, i, s.bridge.answered[i]);
    }
  }

  lemma LedgerUnclaims(s: System, id: ReqId)
    requires Ledger(s) && id in s.bridge.handlers
    ensures var h := s.bridge.handlers[id];
      var u := s.(bridge := Unclaim(s.bridge.(handlers := s.bridge.handlers - {id}), h.sid));
      && Ledger(u) && Unanswered(u, id, h.at) && OwnRequest(u, h.sid, id, h.at)
  {
    LedgerMeans(s);
    var h := s.bridge.handlers[id];
    assert HandlerRight(s, id, h);
    var s1 := s.(bridge := s.bridge.(handlers := s.bridge.handlers - {id}));
    HandlerGone(s, id);
    LedgerMeans(s1);
    HandlerLeaves(s, id, true);
    UnclaimUnacked(s1, h.sid, id);
    SameAnswers(s1, Unclaim(s1.bridge, h.sid));
    LedgerMeans(s1.(bridge := Unclaim(s1.bridge, h.sid)));
  }

  /** Dropping the claim of an id that was never acknowledged and has no other handler. */
  lemma UnclaimUnacked(s: System, x: Sid, id: ReqId)
    requires Claims(s) && Owed(s) && Answers(s) && x in s.client.entries
    requires s.client.entries[x].asking.Asked? && s.client.entries[x].asking.req == id
    requires id !in s.bridge.answered && id !in s.bridge.handlers
    ensures Claims(s.(bridge := Unclaim(s.bridge, x))) && Owed(s.(bridge := Unclaim(s.bridge, x)))
  {
    forall j | j in s.bridge.handlers
      ensures s.bridge.handlers[j].sid != x
    {
      assert HandlerRight(s, j, s.bridge.handlers[j]);
    }
  }

  lemma FinishHandlerKeeps(s: System, id: ReqId, ok: bool)
    requires Ledger(s) && id in s.bridge.handlers
    ensures Ledger(s.(bridge := HandlerDone(s.bridge, id, ok)))
  {
    var h := s.bridge.handlers[id];
    var b1 := s.bridge.(handlers := s.bridge.handlers - {id});
    if ok {
      HandlerLeaves(s, id, true);
      LedgerAcks(s.(bridge := b1), h.sid, id, h.at, true);
    } else {
      LedgerUnclaims(s, id);
      LedgerAcks(s.(bridge := Unclaim(b1, h.sid)), h.sid, id, h.at, false);
    }
  }

  lemma CallLeaves(s: System, id: ReqId)
    requires Ledger(s) && id in s.bridge.calls
    ensures var at := s.bridge.calls[id]; var u := s.(bridge := s.bridge.(calls := s.bridge.calls - {id}));
      Ledger(u) && Unanswered(u, id, at) && at < |u.client.sent| && !u.client.sent[at].Subscribe? && u.client.sent[at].id == id
  {
    LedgerMeans(s);
    var u := s.(bridge := s.bridge.(calls := s.bridge.calls - {id}));
    assert CallRight(s, id, s.bridge.calls[id]);
    NotHandled(s, s.bridge.calls[id]);
    forall i | i in u.bridge.handlers
      ensures HandlerRight(u, i, u.bridge.handlers[i])
    {
      assert HandlerRight(s, i, s.bridge.handlers[i]);
    }
    forall i | i in u.bridge.calls
      ensures CallRight(u, i, u.bridge.calls[i])
    {
      assert CallRight(s, i, s.bridge.calls[i]);
    }
    forall i | i in u.bridge.answered
      ensures TakenAt(u, i, u.bridge.answered[i])
    {
      assert TakenAt(s, i, s.bridge.answered[i]);
    }
    assert Claims(u) && Owed(u) && Answers(u);
    LedgerMeans(u);
  }

  lemma FinishOtherKeeps(s: System, id: ReqId, ok: bool)
    requires Ledger(s) && id in s.bridge.calls
    ensures Ledger(s.(bridge := CallDone(s.bridge, id, ok)))
  {
    CallLeaves(s, id);
    LedgerAnswers(s.(bridge := s.bridge.(calls := s.bridge.calls - {id})), s.bridge.calls[id], ok);
  }

  lemma TerminateClaims(s: System, xs: seq<Sid>)
    requires Claims(s) && Owed(s) && forall x :: x in xs ==> x in s.bridge.subscribers
    ensures var t := s.(bridge := TerminateAll(s.bridge, xs)); Claims(t) && Owed(t)
  {
    var t := s.(bridge := TerminateAll(s.bridge, xs));
    TerminatedPosts(s.bridge, xs);
  }

  lemma TerminatedPosts(b: Bridge, xs: seq<Sid>)
    ensures var d := TerminateAll(b, xs);
      && (forall x :: TerminatedFrame(x) in d.posted <==> TerminatedFrame(x) in b.posted || x in xs)
      && (forall id, ok :: Response(id, ok) in d.posted <==> Response(id, ok) in b.posted)
  {
    var d := TerminateAll(b, xs);
    forall x | x in xs
      ensures TerminatedFrame(x) in d.posted
    {
      var i :| 0 <= i < |xs| && xs[i] == x;
      assert d.posted[|b.posted| + i] == TerminatedFrame(x);
    }
  }

  lemma PostKeepsAnswers(s: System, b: Bridge)
    requires Answers(s) && b.answered == s.bridge.answered && b.handlers == s.bridge.handlers && b.calls == s.bridge.calls
    requires forall id, ok :: Response(id, ok) in b.posted ==> Response(id, ok) in s.bridge.posted
    ensures Answers(s.(bridge := b))
  {
    var t := s.(bridge := b);
    forall i | i in t.bridge.handlers
      ensures HandlerRight(t, i, t.bridge.handlers[i])
    {
      assert HandlerRight(s, i, s.bridge.handlers[i]);
    }
    forall i | i in t.bridge.calls
      ensures CallRight(t, i, t.bridge.calls[i])
    {
      assert CallRight(s, i, s.bridge.calls[i]);
    }
    forall i | i in t.bridge.answered
      ensures TakenAt(t, i, t.bridge.answered[i])
    {
      assert TakenAt(s, i, s.bridge.answered[i]);
    }
  }

  lemma TerminateKeeps(s: System, xs: seq<Sid>)
    requires Ledger(s) && forall x :: x in xs ==> x in s.bridge.subscribers
    ensures Ledger(s.(bridge := TerminateAll(s.bridge, xs)))
  {
    LedgerMeans(s);
    TerminateClaims(s, xs);
    TerminatedPosts(s.bridge, xs);
    PostKeepsAnswers(s, TerminateAll(s.bridge, xs));
    LedgerMeans(s.(bridge := TerminateAll(s.bridge, xs)));
  }

  lemma PostKeeps(s: System, f: Frame)
    requires Ledger(s) && (f.EventFrame? || f.Uncorrelated?)
    ensures Ledger(s.(bridge := Post(s.bridge, f)))
  {
    LedgerMeans(s);
    var b := Post(s.bridge, f);
    PostedIs(s.bridge, f);
    PostKeepsAnswers(s, b);
    PostKeepsClaims(s, b);
    LedgerMeans(s.(bridge := b));
  }

  lemma PostedIs(b: Bridge, f: Frame)
    requires f.EventFrame? || f.Uncorrelated?
    ensures NoNews(b, Post(b, f))
  {
  }

  /** Nothing that the ledger speaks of has been posted. */
  ghost predicate NoNews(b: Bridge, d: Bridge) {
    && d == b.(posted := d.posted)
    && (forall id, ok :: Response(id, ok) in d.posted <==> Response(id, ok) in b.posted)
    && (forall x :: TerminatedFrame(x) in d.posted <==> TerminatedFrame(x) in b.posted)
  }

  lemma PostKeepsClaims(s: System, b: Bridge)
    requires Claims(s) && Owed(s) && NoNews(s.bridge, b)
    ensures Claims(s.(bridge := b)) && Owed(s.(bridge := b))
  {
  }

  lemma CloseKeepsLedger(s: System)
    requires Ledger(s)
    ensures Ledger(s.(bridge := CloseConnection(s.bridge)))
  {
    LedgerMeans(s);
    PostKeepsAnswers(s, CloseConnection(s.bridge));
    LedgerMeans(s.(bridge := CloseConnection(s.bridge)));
  }

  lemma ConsumeKeeps(s: System, permitted: bool, max: nat, fate: Fate)
    requires Ledger(s) && s.consumed < |s.client.sent|
    ensures Ledger(s.(bridge := ConsumeNext(s, permitted, max, fate), consumed := s.consumed + 1))
  {
    match s.client.sent[s.consumed]
    case Subscribe(_, _, _) => TakeSubscribe(s, permitted, max, fate);
    case Unsubscribe(_, _) => TakeUnsubscribe(s, permitted, max, fate);
    case Other(_) => TakeOther(s, permitted, max, fate);
  }

  lemma ConsumeMoveLedger(s: System, permitted: bool, max: nat, fate: Fate)
    requires Ledger(s) && CanMove(s, Consume(permitted, max, fate))
    ensures Ledger(After(s, Consume(permitted, max, fate)))
  {
    AfterConsume(s, permitted, max, fate);
    ConsumeKeeps(s, permitted, max, fate);
  }

  lemma AfterConsume(s: System, permitted: bool, max: nat, fate: Fate)
    requires CanMove(s, Consume(permitted, max, fate))
    ensures After(s, Consume(permitted, max, fate))
      == s.(bridge := ConsumeNext(s, permitted, max, fate), consumed := s.consumed + 1)
  {
  }

  lemma HandlerMoveLedger(s: System, id: ReqId, ok: bool)
    requires Ledger(s) && CanMove(s, FinishHandler(id, ok))
    ensures Ledger(After(s, FinishHandler(id, ok)))
  {
    FinishHandlerKeeps(s, id, ok);
  }

  lemma TerminateMoveLedger(s: System, xs: seq<Sid>)
    requires Ledger(s) && CanMove(s, TerminateMove(xs))
    ensures Ledger(After(s, TerminateMove(xs)))
  {
    TerminateKeeps(s, xs);
  }

  lemma BridgeMoveLedger(s: System, m: Move)
    requires Ledger(s) && CanMove(s, m) && !m.ClientMove? && !m.Deliver?
    ensures Ledger(After(s, m))
  {
    match m
    case Consume(permitted, max, fate) => ConsumeMoveLedger(s, permitted, max, fate);
    case FinishHandler(id, ok) => HandlerMoveLedger(s, id, ok);
    case FinishOther(id, ok) => FinishOtherKeeps(s, id, ok);
    case TerminateMove(xs) => TerminateMoveLedger(s, xs);
    case Emit(x, data) => PostKeeps(s, EventFrame(x, data));
    case Noise => PostKeeps(s, Uncorrelated);
    case CloseMove => CloseKeepsLedger(s);
  }

  lemma ConsumePosts(s: System, permitted: bool, max: nat, fate: Fate)
    requires s.consumed < |s.client.sent|
    ensures LongerPost(s.bridge.posted, ConsumeNext(s, permitted, max, fate).posted)
  {
    match s.client.sent[s.consumed]
    case Subscribe(id, x, t) => SubscribePosts(s.bridge, id, x, t, s.consumed, permitted, max, fate);
    case Unsubscribe(id, x) => AnswerPosts(Unclaim(s.bridge, x), id, true, s.consumed);
    case Other(id) => OtherPosts(s.bridge, id, s.consumed, fate);
  }

  lemma AnswerPosts(b: Bridge, id: ReqId, ok: bool, at: nat)
    ensures LongerPost(b.posted, Answer(b, id, ok, at).posted)
  {
  }

  lemma SubscribePosts(b: Bridge, id: ReqId, x: Sid, t: Target, at: nat, permitted: bool, max: nat, fate: Fate)
    ensures LongerPost(b.posted, OnSubscribe(b, id, x, t, at, permitted, max, fate).posted)
  {
    hide Answer;
    AnswerPosts(b, id, false, at);
    AnswerPosts(b, id, true, at);
    AnswerPosts(Claim(b, x, t), id, true, at);
    AnswerPosts(Unclaim(Claim(b, x, t), x), id, false, at);
  }

  lemma OtherPosts(b: Bridge, id: ReqId, at: nat, fate: Fate)
    ensures LongerPost(b.posted, OnOther(b, id, at, fate).posted)
  {
  }

  lemma ConsumeMoveKnows(s: System, permitted: bool, max: nat, fate: Fate)
    requires Knows(s) && CanMove(s, Consume(permitted, max, fate))
    ensures Knows(After(s, Consume(permitted, max, fate)))
  {
    ConsumePosts(s, permitted, max, fate);
    BridgeKnows(s, ConsumeNext(s, permitted, max, fate), s.consumed + 1);
  }

  lemma BridgeMoveKnows(s: System, m: Move)
    requires Knows(s) && CanMove(s, m) && !m.ClientMove? && !m.Deliver?
    ensures Knows(After(s, m)) && After(s, m).client == s.client
  {
    match m
    case Consume(permitted, max, fate) => ConsumeMoveKnows(s, permitted, max, fate);
    case FinishHandler(id, ok) => BridgeKnows(s, HandlerDone(s.bridge, id, ok), s.consumed);
    case FinishOther(id, ok) => BridgeKnows(s, CallDone(s.bridge, id, ok), s.consumed);
    case TerminateMove(xs) => BridgeKnows(s, TerminateAll(s.bridge, xs), s.consumed);
    case Emit(x, data) => BridgeKnows(s, Post(s.bridge, EventFrame(x, data)), s.consumed);
    case Noise => BridgeKnows(s, Post(s.bridge, Uncorrelated), s.consumed);
    case CloseMove => BridgeKnows(s, CloseConnection(s.bridge), s.consumed);
  }

  /** Every move of the client, the channels or the bridge keeps the joint invariant. */
  lemma MoveKeeps(s: System, m: Move)
    requires JointInv(s) && CanMove(s, m)
    ensures JointInv(After(s, m))
  {
    match m
    case ClientMove(step) => ClientMoveKeeps(s, step);
    case Deliver => DeliverKeeps(s);
    case _ =>
      BridgeMoveLedger(s, m);
      BridgeMoveKnows(s, m);
  }
}
