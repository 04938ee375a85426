/**
 * The polling publisher trigger (services/publisher_trigger_service.py).
 * Every tick peeks the review-approved queue, orders the items by creation
 * time and, for each item whose record exists, is approved and is not yet
 * published, runs the publisher agent on it. A tick that raises is logged
 * and the next tick runs all the same.
 *
 * The review queue module this file imports (services/review_queue_service.py)
 * is not part of this model; its `get_approved_items` is modelled by the
 * shared queue service's peek of the approved queue with no account filter
 * (ReviewQueueService.Peeked with account ""). The publisher agent is a
 * parameter; it is told to call `publish_content_by_id` and nothing else,
 * and the model takes it at its word (RunsPublishTool): the methods run
 * that tool (PublisherTools.PublishContentById). `readFails(id)`
 * says that reading the record raises and `agentFails(id)` that the agent
 * run raises; either ends the tick.
 */
module PublisherTriggerService {
  import opened Wrappers
  import opened Docs
  import opened Ordering
  import opened Store
  import opened AzureBusService
  import CosmosDbService
  import RQ = ReviewQueueService
  import PT = PublisherTools

  /** The guards of `_tick` on a stored record. */
  predicate Publishable(record: Doc)
  {
    Lookup(record, "approval_status") == Str("approved") && Lookup(record, "publish_status") != Str("published")
  }

  /** The store, the ids the agent was run for, the Instagram calls made, and whether the tick raised. */
  datatype Tick = Tick(items: map<string, Doc>, triggered: seq<string>, calls: seq<PT.IgCall>, raised: bool)

  /** What the publisher agent does when told to publish one content id: the store it leaves and its Instagram calls. */
  type Agent = (map<string, Doc>, string) -> PT.Run

  /**
   * The agent does what its instructions say: it calls `publish_content_by_id`
   * on the id it was given and nothing else.
   */
  ghost predicate RunsPublishTool(agent: Agent, igs: PT.Accounts, now: string)
  {
    forall items, id {:trigger PT.PublishByIdRun(items, id, igs, now)} :: agent(items, id) == PT.PublishByIdRun(items, id, igs, now)
  }

  /** One approved item of a tick that has not raised yet. */
  function TickStep(t: Tick, item: Doc, agent: Agent, readFails: string -> bool, agentFails: string -> bool): Tick
  {
    var v := RQ.QueueItemId(item);
    if !Truthy(v) || !v.Str? then t
    else if readFails(v.s) then Tick(t.items, t.triggered, t.calls, true)
    else if v.s !in t.items || !Publishable(t.items[v.s]) then t
    else if agentFails(v.s) then Tick(t.items, t.triggered, t.calls, true)
    else
      var r := agent(t.items, v.s);
      Tick(r.items, t.triggered + [v.s], t.calls + r.calls, false)
  }

  /** The items of a tick taken in order; once one raises, the rest are not looked at. */
  function TickRun(items: map<string, Doc>, rows: seq<Doc>, agent: Agent, readFails: string -> bool,
                   agentFails: string -> bool): Tick
  {
    if rows == [] then Tick(items, [], [], false)
    else
      var prev := TickRun(items, rows[..|rows| - 1], agent, readFails, agentFails);
      if prev.raised then prev else TickStep(prev, rows[|rows| - 1], agent, readFails, agentFails)
  }

  /** What `_tick` looks at: the approved items, oldest first. */
  function TickRows(approved: seq<Queued>): seq<Doc>
  {
    SortBy(RQ.Peeked(approved, ""), CreatedAt, false)
  }

  lemma TickRunSnoc(items: map<string, Doc>, rows: seq<Doc>, i: nat, agent: Agent,
                    readFails: string -> bool, agentFails: string -> bool)
    requires i < |rows|
    requires !TickRun(items, rows[..i], agent, readFails, agentFails).raised
    ensures TickRun(items, rows[..i + 1], agent, readFails, agentFails)
         == TickStep(TickRun(items, rows[..i], agent, readFails, agentFails), rows[i], agent, readFails, agentFails)
  {
    assert rows[..i + 1][..i] == rows[..i];
  }

  /** A tick that raised keeps what it did before and does nothing more. */
  lemma {:induction false} RaisedSticks(items: map<string, Doc>, rows: seq<Doc>, i: nat, agent: Agent,
                                         readFails: string -> bool, agentFails: string -> bool)
    requires i <= |rows|
    requires TickRun(items, rows[..i], agent, readFails, agentFails).raised
    ensures TickRun(items, rows, agent, readFails, agentFails) == TickRun(items, rows[..i], agent, readFails, agentFails)
    decreases |rows| - i
  {
    if i < |rows| {
      assert rows[..i + 1][..i] == rows[..i];
      RaisedSticks(items, rows, i + 1, agent, readFails, agentFails);
    } else {
      assert rows[..i] == rows;
    }
  }

  /** The body of `_tick`'s loop for one item. */
  method TickItem(c: Container, item: Doc, triggered: seq<string>, calls: seq<PT.IgCall>, igs: PT.Accounts, now: string,
                  agent: Agent, readFails: string -> bool, agentFails: string -> bool)
    returns (triggered': seq<string>, calls': seq<PT.IgCall>, raised: bool)
    requires c.Valid() && RunsPublishTool(agent, igs, now)
    modifies c`items
    ensures c.Valid()
    ensures Tick(c.items, triggered', calls', raised)
         == TickStep(Tick(old(c.items), triggered, calls, false), item, agent, readFails, agentFails)
  {
    triggered', calls', raised := triggered, calls, false;
    var v := RQ.QueueItemId(item);
    if !Truthy(v) || !v.Str? {
      return;
    }
    if readFails(v.s) {
      return triggered, calls, true;
    }
    var record := CosmosDbService.GetContentById(c, v.s);
    if record.None? || Lookup(record.value, "approval_status") != Str("approved")
       || Lookup(record.value, "publish_status") == Str("published") {
      return;
    }
    if agentFails(v.s) {
      return triggered, calls, true;
    }
    var _, cs := PT.PublishContentById(c, v.s, igs, now);
    triggered' := triggered + [v.s];
    calls' := calls + cs;
  }

  /** `_tick`. */
  method RunTick(c: Container, approved: Queue, igs: PT.Accounts, now: string, agent: Agent, readFails: string -> bool,
                 agentFails: string -> bool)
    returns (t: Tick)
    requires c.Valid() && RunsPublishTool(agent, igs, now)
    modifies c`items
    ensures c.Valid() && t.items == c.items
    ensures t == TickRun(old(c.items), TickRows(approved.entries), agent, readFails, agentFails)
  {
    var peeked := RQ.PeekQueue(approved, "");
    var rows := SortBy(peeked, CreatedAt, false);
    ghost var items0 := c.items;
    var triggered, calls, raised := [], [], false;
    var i := 0;
    while i < |rows|
      invariant 0 <= i <= |rows| && c.Valid()
      invariant Tick(c.items, triggered, calls, raised) == TickRun(items0, rows[..i], agent, readFails, agentFails)
      invariant !raised
    {
      TickRunSnoc(items0, rows, i, agent, readFails, agentFails);
      triggered, calls, raised := TickItem(c, rows[i], triggered, calls, igs, now, agent, readFails, agentFails);
      i := i + 1;
      if raised {
        RaisedSticks(items0, rows, i, agent, readFails, agentFails);
        return Tick(c.items, triggered, calls, raised);
      }
    }
    assert rows[..|rows|] == rows;
    t := Tick(c.items, triggered, calls, raised);
  }

  /**
   * Items are taken oldest first: the rows of a tick are the peeked approved
   * items already in ascending `created_at`, so the second sort keeps them
   * as they are.
   */
  lemma TickOrder(approved: seq<Queued>)
    ensures TickRows(approved) == RQ.Peeked(approved, "")
    ensures SortedBy(TickRows(approved), CreatedAt, false)
  {
    RQ.PeekSpec(approved, "");
    SortBySortedId(RQ.Peeked(approved, ""), CreatedAt, false);
  }

  /**
   * The agent is run for an item exactly when its id is set, reading the
   * record does not raise, the record exists, is approved and is not
   * published, and the agent run itself does not raise; an item without an
   * id, without a record or with a record that fails the guards changes
   * nothing.
   */
  lemma TriggerRule(t: Tick, item: Doc, agent: Agent, readFails: string -> bool, agentFails: string -> bool)
    ensures var v := RQ.QueueItemId(item); var s := TickStep(t, item, agent, readFails, agentFails);
      && (|s.triggered| > |t.triggered| <==>
            (v.Str? && v.s != [] && !readFails(v.s) && v.s in t.items && Publishable(t.items[v.s]) && !agentFails(v.s)))
      && (|s.triggered| > |t.triggered| ==> s.triggered == t.triggered + [v.s] && s.calls[..|t.calls|] == t.calls)
      && ((!Truthy(v) || !v.Str? || (!readFails(v.s) && (v.s !in t.items || !Publishable(t.items[v.s])))) ==> s == t)
  {
    var v := RQ.QueueItemId(item);
    var s := TickStep(t, item, agent, readFails, agentFails);
    if |s.triggered| > |t.triggered| {
      assert (t.calls + agent(t.items, v.s).calls)[..|t.calls|] == t.calls;
    }
  }

  /** Every id the agent was run for is the id of one of the tick's items. */
  lemma {:induction false} TriggeredFromRows(items: map<string, Doc>, rows: seq<Doc>, agent: Agent,
                                               readFails: string -> bool, agentFails: string -> bool)
    ensures forall id :: id in TickRun(items, rows, agent, readFails, agentFails).triggered ==>
      exists i :: 0 <= i < |rows| && RQ.QueueItemId(rows[i]) == Str(id)
  {
    if rows != [] {
      var init := rows[..|rows| - 1];
      TriggeredFromRows(items, init, agent, readFails, agentFails);
      forall id | id in TickRun(items, rows, agent, readFails, agentFails).triggered
        ensures exists i :: 0 <= i < |rows| && RQ.QueueItemId(rows[i]) == Str(id)
      {
        if id in TickRun(items, init, agent, readFails, agentFails).triggered {
          var i :| 0 <= i < |init| && RQ.QueueItemId(init[i]) == Str(id);
          assert rows[i] == init[i];
        } else {
          assert RQ.QueueItemId(rows[|rows| - 1]) == Str(id);
        }
      }
    }
  }

  /**
   * Once the agent has published a record, a later item with the same id does
   * not run the agent again: the record is now marked published.
   */
  lemma PublishedNotRetriggered(t: Tick, item: Doc, later: Doc, igs: PT.Accounts, now: string, agent: Agent,
                                readFails: string -> bool, agentFails: string -> bool)
    requires RunsPublishTool(agent, igs, now)
    requires forall k :: k in t.items ==> IdOf(t.items[k]) == Some(k)
    requires RQ.QueueItemId(later) == RQ.QueueItemId(item)
    requires var s := TickStep(t, item, agent, readFails, agentFails);
      |s.triggered| > |t.triggered| && agent(t.items, RQ.QueueItemId(item).s).outcome.Published?
    ensures var s := TickStep(t, item, agent, readFails, agentFails);
      TickStep(s, later, agent, readFails, agentFails).triggered == s.triggered
  {
    var v := RQ.QueueItemId(item);
    assert v.s in t.items;
    var r := PT.PublishByIdRun(t.items, v.s, igs, now);
    assert agent(t.items, v.s) == r;
    PublishMarksRecord(t.items, v.s, igs, now);
  }

  /** A record the publish tool published is stored with `publish_status` "published". */
  lemma PublishMarksRecord(items: map<string, Doc>, id: string, igs: PT.Accounts, now: string)
    requires id in items && IdOf(items[id]) == Some(id)
    requires PT.PublishByIdRun(items, id, igs, now).outcome.Published?
    ensures var r := PT.PublishByIdRun(items, id, igs, now);
      id in r.items && Lookup(r.items[id], "publish_status") == Str("published")
  {
    var record := items[id];
    PT.MarkedOnlyWhenPublished(items, record, igs(PT.AccountOf(record)), now);
    assert PT.ContentId(record) == Str(id);
  }

  /** Ticks of `run_forever`: the store, the ids triggered in every tick, and which ticks raised. */
  datatype Rounds = Rounds(items: map<string, Doc>, triggered: seq<string>, calls: seq<PT.IgCall>, raised: seq<bool>)

  /** `_tick` on the given tick rows, as a function of the store it starts from. */
  function TickOn(rows: seq<Doc>, agent: Agent, readFails: string -> bool, agentFails: string -> bool)
    : map<string, Doc> -> Tick
  {
    items => TickRun(items, rows, agent, readFails, agentFails)
  }

  /**
   * `rounds` ticks of `run_forever`, each one `tick` from the store the
   * previous left; `peekFails(n)` says that tick `n` raises before looking
   * at any item. A tick that raised is followed by the next.
   */
  function RunRounds(items: map<string, Doc>, rounds: nat, peekFails: nat -> bool, tick: map<string, Doc> -> Tick): (r: Rounds)
    ensures |r.raised| == rounds
  {
    if rounds == 0 then Rounds(items, [], [], [])
    else
      var prev := RunRounds(items, rounds - 1, peekFails, tick);
      var t := if peekFails(rounds - 1) then Tick(prev.items, [], [], true) else tick(prev.items);
      Rounds(t.items, prev.triggered + t.triggered, prev.calls + t.calls, prev.raised + [t.raised])
  }

  /** `run_forever`, for a given number of ticks; the sleep between ticks is not modelled. */
  method RunForever(c: Container, approved: Queue, rounds: nat, peekFails: nat -> bool, igs: PT.Accounts, now: string,
                    agent: Agent, readFails: string -> bool, agentFails: string -> bool)
    returns (r: Rounds)
    requires c.Valid() && RunsPublishTool(agent, igs, now)
    modifies c`items
    ensures c.Valid()
    ensures r == RunRounds(old(c.items), rounds, peekFails, TickOn(TickRows(approved.entries), agent, readFails, agentFails))
  {
    r := Rounds(c.items, [], [], []);
    ghost var tick := TickOn(TickRows(approved.entries), agent, readFails, agentFails);
    for n := 0 to rounds
      invariant c.Valid() && r.items == c.items
      invariant r == RunRounds(old(c.items), n, peekFails, tick)
    {
      r := RunRound(c, approved, igs, now, agent, readFails, agentFails, n, peekFails, r, old(c.items));
    }
  }

  /** Tick `n` of `run_forever`, added to the ticks before it. */
  method RunRound(c: Container, approved: Queue, igs: PT.Accounts, now: string, agent: Agent, readFails: string -> bool,
                  agentFails: string -> bool, n: nat, peekFails: nat -> bool, r: Rounds, ghost items0: map<string, Doc>)
    returns (r': Rounds)
    requires c.Valid() && RunsPublishTool(agent, igs, now) && r.items == c.items
    requires r == RunRounds(items0, n, peekFails, TickOn(TickRows(approved.entries), agent, readFails, agentFails))
    modifies c`items
    ensures c.Valid() && r'.items == c.items
    ensures r' == RunRounds(items0, n + 1, peekFails, TickOn(TickRows(approved.entries), agent, readFails, agentFails))
  {
    if peekFails(n) {
      return r.(raised := r.raised + [true]);
    }
    var t := RunTick(c, approved, igs, now, agent, readFails, agentFails);
    r' := Rounds(t.items, r.triggered + t.triggered, r.calls + t.calls, r.raised + [t.raised]);
  }

  /** `a` is the start of `b`. */
  predicate Prefix<T(==)>(a: seq<T>, b: seq<T>)
  {
    |a| <= |b| && b[..|a|] == a
  }

  /**
   * Later ticks only add to what earlier ones did: whether a tick raised,
   * the ids triggered and the calls made in the first `n` ticks are the
   * start of those of all `rounds` ticks.
   */
  lemma {:induction false} EarlierTicksKept(items: map<string, Doc>, rounds: nat, peekFails: nat -> bool,
                                             tick: map<string, Doc> -> Tick, n: nat)
    requires n <= rounds
    ensures var r := RunRounds(items, rounds, peekFails, tick);
      var p := RunRounds(items, n, peekFails, tick);
      Prefix(p.raised, r.raised) && Prefix(p.triggered, r.triggered) && Prefix(p.calls, r.calls)
    decreases rounds - n
  {
    if n < rounds {
      EarlierTicksKept(items, rounds, peekFails, tick, n + 1);
      var r := RunRounds(items, rounds, peekFails, tick);
      var p := RunRounds(items, n, peekFails, tick);
      var q := RunRounds(items, n + 1, peekFails, tick);
      assert Prefix(p.raised, q.raised) && Prefix(p.triggered, q.triggered) && Prefix(p.calls, q.calls);
      assert r.raised[..|p.raised|] == r.raised[..|q.raised|][..|p.raised|];
      assert r.triggered[..|p.triggered|] == r.triggered[..|q.triggered|][..|p.triggered|];
      assert r.calls[..|p.calls|] == r.calls[..|q.calls|][..|p.calls|];
    }
  }
}
