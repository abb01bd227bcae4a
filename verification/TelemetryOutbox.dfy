/** The durable telemetry outbox and the service that drains it: first write wins, every
    row is retried until the warehouse acknowledged it, and retries back off. */
module TelemetryOutbox {

  // ------------------------------------------------------------------ rows

  datatype RowStatus = Pending | Failed | Synced

  datatype OutboxRow = OutboxRow(kind: string, key: string, payload: string, status: RowStatus, attempts: nat)
  {
    predicate Selectable() { !status.Synced? }

    function Marked(synced: bool): OutboxRow {
      this.(status := if synced then Synced else Failed, attempts := attempts + 1)
    }
  }

  /** A request to enqueue. */
  datatype Item = Item(kind: string, key: string, payload: string)

  predicate SameKey(row: OutboxRow, item: Item) {
    row.kind == item.kind && row.key == item.key
  }

  /** `INSERT OR IGNORE` under the unique key (kind, stable key); a row id is its place in
      the creation order. */
  function Enqueued(outbox: seq<OutboxRow>, item: Item): seq<OutboxRow> {
    if exists row :: row in outbox && SameKey(row, item) then outbox
    else outbox + [OutboxRow(item.kind, item.key, item.payload, Pending, 0)]
  }

  /** The payload a key was first requested with. */
  function FirstPayload(requests: seq<Item>, kind: string, key: string): (payload: string)
    requires exists r :: r in requests && r.kind == kind && r.key == key
    decreases |requests|
  {
    if requests[0].kind == kind && requests[0].key == key then requests[0].payload
    else
      assert requests == [requests[0]] + requests[1..];
      FirstPayload(requests[1..], kind, key)
  }

  predicate Requested(requests: seq<Item>, kind: string, key: string) {
    exists r :: r in requests && r.kind == kind && r.key == key
  }

  /** One row for every requested key, with its first payload, and no other row. */
  ghost predicate FirstWriteWins(outbox: seq<OutboxRow>, requests: seq<Item>) {
    && (forall i, j :: 0 <= i < j < |outbox| ==> outbox[i].kind != outbox[j].kind || outbox[i].key != outbox[j].key)
    && (forall r :: r in requests ==> exists row :: row in outbox && SameKey(row, r))
    && (forall row :: row in outbox ==>
          Requested(requests, row.kind, row.key) && row.payload == FirstPayload(requests, row.kind, row.key))
  }

  lemma {:induction false} FirstPayloadKept(requests: seq<Item>, item: Item, kind: string, key: string)
    ensures Requested(requests, kind, key) ==>
      Requested(requests + [item], kind, key) &&
        FirstPayload(requests + [item], kind, key) == FirstPayload(requests, kind, key)
    ensures !Requested(requests, kind, key) && item.kind == kind && item.key == key ==>
      Requested(requests + [item], kind, key) && FirstPayload(requests + [item], kind, key) == item.payload
    decreases |requests|
  {
    assert item in requests + [item];
    if requests == [] {
      assert requests + [item] == [item];
    } else {
      assert requests == [requests[0]] + requests[1..];
      assert (requests + [item])[1..] == requests[1..] + [item];
      FirstPayloadKept(requests[1..], item, kind, key);
    }
  }

  lemma NewKeyIsNew(outbox: seq<OutboxRow>, requests: seq<Item>, item: Item)
    requires FirstWriteWins(outbox, requests)
    requires !exists row :: row in outbox && SameKey(row, item)
    ensures !Requested(requests, item.kind, item.key)
  {
  }

  /** Enqueueing keeps the first write and everything already stored. */
  lemma EnqueueKeepsFirst(outbox: seq<OutboxRow>, requests: seq<Item>, item: Item)
    requires FirstWriteWins(outbox, requests)
    ensures FirstWriteWins(Enqueued(outbox, item), requests + [item])
    ensures outbox <= Enqueued(outbox, item)
  {
    var after := Enqueued(outbox, item);
    if after != outbox { NewKeyIsNew(outbox, requests, item); }
    forall row | row in after
      ensures Requested(requests + [item], row.kind, row.key)
      ensures row.payload == FirstPayload(requests + [item], row.kind, row.key)
    {
      FirstPayloadKept(requests, item, row.kind, row.key);
    }
    if after != outbox { assert after[|outbox|] in after; }
  }

  // ------------------------------------------------------------------ selection

  /** The ids of the rows still to be synchronised, oldest first. */
  function PendingIds(outbox: seq<OutboxRow>): (ids: seq<nat>)
    ensures forall id :: id in ids <==> 0 <= id < |outbox| && outbox[id].Selectable()
    ensures forall a, b :: 0 <= a < b < |ids| ==> ids[a] < ids[b]
    decreases |outbox|
  {
    if outbox == [] then []
    else
      var n := |outbox| - 1;
      assert forall a :: 0 <= a < |PendingIds(outbox[..n])| ==> PendingIds(outbox[..n])[a] in PendingIds(outbox[..n]);
      PendingIds(outbox[..n]) + (if outbox[n].Selectable() then [n] else [])
  }

  function Min(a: nat, b: nat): nat { if a < b then a else b }

  function DueAt(id: nat, retryAt: map<nat, real>, now: real, force: bool): bool {
    force || (if id in retryAt then retryAt[id] else 0.0) <= now
  }

  function DueIds(ids: seq<nat>, retryAt: map<nat, real>, now: real, force: bool): (due: seq<nat>)
    ensures forall id :: id in due <==> id in ids && DueAt(id, retryAt, now, force)
    ensures |due| <= |ids|
    decreases |ids|
  {
    if ids == [] then []
    else (if DueAt(ids[0], retryAt, now, force) then [ids[0]] else []) + DueIds(ids[1..], retryAt, now, force)
  }

  datatype Config = Config(base: real, max: real, batchSize: nat, scanLimit: nat)
  {
    predicate Valid() {
      0.0 < base <= max && 0 < batchSize <= scanLimit
    }
  }

  datatype Walked = Walked(eligible: seq<nat>, deferred: nat)

  /** The scan of one flush: due rows are collected until the batch is full, others are
      counted as deferred. */
  function Walk(ids: seq<nat>, room: nat, retryAt: map<nat, real>, now: real, force: bool): Walked
    decreases |ids|
  {
    if ids == [] || room == 0 then Walked([], 0)
    else if DueAt(ids[0], retryAt, now, force) then
      var w := Walk(ids[1..], room - 1, retryAt, now, force);
      Walked([ids[0]] + w.eligible, w.deferred)
    else
      var w := Walk(ids[1..], room, retryAt, now, force);
      Walked(w.eligible, w.deferred + 1)
  }

  /** The scan one row further on. */
  lemma {:induction false} WalkNext(ids: seq<nat>, k: nat, found: seq<nat>, passed: nat, room: nat,
                                    retryAt: map<nat, real>, now: real, force: bool)
    requires k < |ids| && room > 0
    ensures var rest := Walk(ids[k..], room, retryAt, now, force);
      var all := Walked(found + rest.eligible, passed + rest.deferred);
      if DueAt(ids[k], retryAt, now, force) then
        var later := Walk(ids[k + 1..], room - 1, retryAt, now, force);
        all == Walked((found + [ids[k]]) + later.eligible, passed + later.deferred)
      else
        var later := Walk(ids[k + 1..], room, retryAt, now, force);
        all == Walked(found + later.eligible, (passed + 1) + later.deferred)
  {
    assert ids[k..][0] == ids[k] && ids[k..][1..] == ids[k + 1..];
    var later := Walk(ids[k + 1..], room - 1, retryAt, now, force);
    assert found + ([ids[k]] + later.eligible) == (found + [ids[k]]) + later.eligible;
  }

  lemma TakeFirst(id: nat, due: seq<nat>, room: nat)
    requires room > 0
    ensures ([id] + due)[..Min(room, |due| + 1)] == [id] + due[..Min(room - 1, |due|)]
  {
  }

  /** The scan with its early exit collects the first due rows, and counts what it passes. */
  lemma {:induction false} WalkSelects(ids: seq<nat>, room: nat, retryAt: map<nat, real>, now: real, force: bool)
    ensures var w := Walk(ids, room, retryAt, now, force);
      var due := DueIds(ids, retryAt, now, force);
      && w.eligible == due[..Min(room, |due|)]
      && (|w.eligible| < room ==> w.deferred == |ids| - |due|)
      && (force ==> w.deferred == 0)
    decreases |ids|
  {
    if ids != [] && room > 0 {
      var due := DueIds(ids[1..], retryAt, now, force);
      if DueAt(ids[0], retryAt, now, force) {
        WalkSelects(ids[1..], room - 1, retryAt, now, force);
        TakeFirst(ids[0], due, room);
      } else {
        WalkSelects(ids[1..], room, retryAt, now, force);
        assert [] + due == due;
      }
    }
  }

  /** The rows one flush attempts: of the oldest `scanLimit` unsynchronised rows the first
      `batchSize` that are due. */
  function Selected(outbox: seq<OutboxRow>, config: Config, retryAt: map<nat, real>, now: real, force: bool): seq<nat> {
    var pending := PendingIds(outbox);
    var due := DueIds(pending[..Min(config.scanLimit, |pending|)], retryAt, now, force);
    due[..Min(config.batchSize, |due|)]
  }

  // ------------------------------------------------------------------ backoff

  function Pow2(n: nat): real {
    if n == 0 then 1.0 else 2.0 * Pow2(n - 1)
  }

  function MinReal(a: real, b: real): real { if a < b then a else b }

  function Times(a: real, b: real): real { a * b }

  function RetryDelay(config: Config, attempt: int): real {
    MinReal(config.max, Times(config.base, Pow2(Exponent(attempt))))
  }

  lemma {:induction false} Pow2Monotone(a: nat, b: nat)
    requires a <= b
    ensures 1.0 <= Pow2(a) <= Pow2(b)
    decreases b
  {
    if a == b {
      if a > 0 { Pow2Monotone(a - 1, a - 1); }
    } else {
      Pow2Monotone(a, b - 1);
    }
  }

  function Exponent(attempt: int): nat {
    if attempt - 1 < 0 then 0 else if attempt - 1 > 30 then 30 else attempt - 1
  }

  /** The delay never falls and stays within the configured bounds. */
  lemma BackoffIsBounded(config: Config, a: int, b: int)
    requires config.Valid() && a <= b
    ensures config.base <= RetryDelay(config, a) <= RetryDelay(config, b) <= config.max
  {
    var x, y := Pow2(Exponent(a)), Pow2(Exponent(b));
    Pow2Monotone(0, Exponent(a));
    Pow2Monotone(Exponent(a), Exponent(b));
    Scale(config.base, x, y);
    Capped(config.base, Times(config.base, x), Times(config.base, y), config.max);
  }

  lemma Capped(base: real, x: real, y: real, max: real)
    requires base <= x <= y && base <= max
    ensures base <= MinReal(max, x) <= MinReal(max, y) <= max
  {
  }

  /** It doubles until it reaches the bound, up to the thirty-first attempt, and then stays. */
  lemma BackoffDoubles(config: Config, a: int)
    requires config.Valid()
    ensures 1 <= a <= 30 ==> RetryDelay(config, a + 1) == MinReal(config.max, 2.0 * RetryDelay(config, a))
    ensures a >= 31 ==> RetryDelay(config, a) == RetryDelay(config, 31)
  {
    if 1 <= a <= 30 {
      Pow2Monotone(0, a - 1);
      Scale(config.base, Pow2(a - 1), Pow2(a - 1));
      Double(config.base, Pow2(a - 1), Pow2(a));
    }
  }

  lemma Double(c: real, x: real, y: real)
    requires y == 2.0 * x
    ensures Times(c, y) == 2.0 * Times(c, x)
  {
  }

  lemma Scale(c: real, x: real, y: real)
    requires c >= 0.0 && 1.0 <= x <= y
    ensures c <= Times(c, x) <= Times(c, y)
  {
    assert c * (x - 1.0) >= 0.0 && c * (y - x) >= 0.0;
  }

  // ------------------------------------------------------------------ one attempt

  /** How the warehouse call for a row ends. */
  datatype Sync = Acked | NotAcked | Raised(retryable: bool)

  /** What a flush cannot know: the answer for each row, whether a mark fails to be stored,
      the clock when a failure is recorded, and what is enqueued meanwhile. */
  datatype World = World(
    sync: nat -> Sync,
    markSyncedFails: nat -> bool,
    markFailedFails: nat -> bool,
    clock: nat -> real,
    arrivals: nat -> seq<Item>,
    schedule: seq<nat> -> seq<nat>)
  {
    /** Attempts run concurrently, so they may finish in any order. */
    ghost predicate SchedulesAll() {
      forall ids :: Reorders(schedule(ids), ids)
    }
  }

  ghost predicate Reorders(order: seq<nat>, ids: seq<nat>) {
    Distinct(ids) ==> |order| == |ids| && Distinct(order) && forall id :: id in order <==> id in ids
  }

  ghost predicate Distinct(ids: seq<nat>) {
    forall a, b :: 0 <= a < b < |ids| ==> ids[a] != ids[b]
  }

  predicate Malformed(row: OutboxRow) {
    row.kind == "" || row.key == ""
  }

  predicate Acknowledged(row: OutboxRow, id: nat, world: World) {
    !Malformed(row) && world.sync(id).Acked?
  }

  predicate Succeeds(row: OutboxRow, id: nat, world: World) {
    Acknowledged(row, id, world) && !world.markSyncedFails(id)
  }

  function Attempted(row: OutboxRow, id: nat, world: World): OutboxRow {
    if Succeeds(row, id, world) then row.Marked(true)
    else if world.markFailedFails(id) then row
    else row.Marked(false)
  }

  /** Only a retryable provider error earns the growing delay; all else waits the maximum. */
  function DelayAfter(config: Config, row: OutboxRow, id: nat, world: World): real {
    if !Malformed(row) && world.sync(id).Raised? && world.sync(id).retryable then RetryDelay(config, row.attempts + 1)
    else config.max
  }

  // ------------------------------------------------------------------ the repository

  class OperationalRepository {
    var outbox: seq<OutboxRow>
    /** Every request so far, and every row the warehouse has acknowledged. */
    ghost var requests: seq<Item>
    ghost var acknowledged: set<nat>

    ghost predicate Valid()
      reads this
    {
      && FirstWriteWins(outbox, requests)
      && (forall id :: 0 <= id < |outbox| && outbox[id].status.Synced? ==> id in acknowledged)
    }

    constructor ()
      ensures Valid() && outbox == [] && requests == [] && acknowledged == {}
    {
      outbox, requests, acknowledged := [], [], {};
    }

    method Enqueue(item: Item)
      requires Valid()
      modifies this`outbox, this`requests
      ensures Valid() && requests == old(requests) + [item]
      ensures outbox == Enqueued(old(outbox), item) && old(outbox) <= outbox
    {
      EnqueueKeepsFirst(outbox, requests, item);
      outbox := Enqueued(outbox, item);
      requests := requests + [item];
    }

    method EnqueueAll(items: seq<Item>)
      requires Valid()
      modifies this`outbox, this`requests
      ensures Valid() && requests == old(requests) + items && old(outbox) <= outbox
    {
      for i := 0 to |items|
        invariant Valid() && requests == old(requests) + items[..i] && old(outbox) <= outbox
      {
        AppendNext(old(requests), items, i);
        Enqueue(items[i]);
      }
      assert items[..|items|] == items;
    }

    method PendingOutbox(limit: nat) returns (ids: seq<nat>)
      ensures ids == PendingIds(outbox)[..Min(limit, |PendingIds(outbox)|)]
    {
      var pending := PendingIds(outbox);
      ids := pending[..Min(limit, |pending|)];
    }

    method MarkOutbox(id: nat, synced: bool)
      requires Valid() && id < |outbox| && (synced ==> id in acknowledged)
      modifies this`outbox
      ensures Valid() && outbox == old(outbox)[id := old(outbox)[id].Marked(synced)]
    {
      MarkKeepsFirst(outbox, requests, id, synced);
      outbox := outbox[id := outbox[id].Marked(synced)];
    }
  }

  lemma AppendNext(before: seq<Item>, items: seq<Item>, i: nat)
    requires i < |items|
    ensures (before + items[..i]) + [items[i]] == before + items[..i + 1]
  {
  }

  lemma MarkKeepsFirst(outbox: seq<OutboxRow>, requests: seq<Item>, id: nat, synced: bool)
    requires id < |outbox| && FirstWriteWins(outbox, requests)
    ensures FirstWriteWins(outbox[id := outbox[id].Marked(synced)], requests)
  {
    var after := outbox[id := outbox[id].Marked(synced)];
    forall i | 0 <= i < |outbox|
      ensures after[i] in after && after[i].kind == outbox[i].kind
      ensures after[i].key == outbox[i].key && after[i].payload == outbox[i].payload
    {
    }
    forall r | r in requests ensures exists row :: row in after && SameKey(row, r) {
      var row :| row in outbox && SameKey(row, r);
      var i :| 0 <= i < |outbox| && outbox[i] == row;
      assert SameKey(after[i], r);
    }
    forall row | row in after
      ensures Requested(requests, row.kind, row.key) && row.payload == FirstPayload(requests, row.kind, row.key)
    {
      var i :| 0 <= i < |after| && after[i] == row;
      assert outbox[i] in outbox;
    }
  }

  // ------------------------------------------------------------------ the service

  datatype FlushResult = FlushResult(selected: nat, synced: nat, failed: nat, deferred: nat)

  datatype Operation = Request(item: Item) | Flushed(force: bool, now: real, world: World)

  class TelemetryService {
    const repository: OperationalRepository
    const config: Config
    var retryAt: map<nat, real>

    constructor (repository: OperationalRepository, config: Config)
      requires config.Valid()
      ensures this.repository == repository && this.config == config && retryAt == map[]
    {
      this.repository, this.config := repository, config;
      retryAt := map[];
    }

    /** One attempt on one row, with whatever is enqueued meanwhile. */
    method SyncItem(id: nat, world: World) returns (ok: bool)
      requires repository.Valid() && id < |repository.outbox| && repository.outbox[id].Selectable()
      modifies this`retryAt, repository
      ensures repository.Valid() && repository.requests == old(repository.requests) + world.arrivals(id)
      ensures ok == Succeeds(old(repository.outbox[id]), id, world)
      ensures AfterOne(Drain(old(repository.outbox), old(retryAt), old(repository.acknowledged)), id, config, world,
                       Drain(repository.outbox, retryAt, repository.acknowledged))
    {
      var row := repository.outbox[id];
      repository.EnqueueAll(world.arrivals(id));
      if Acknowledged(row, id, world) { repository.acknowledged := repository.acknowledged + {id}; }
      if Succeeds(row, id, world) {
        repository.MarkOutbox(id, true);
        retryAt := retryAt - {id};
        return true;
      }
      RecordFailure(id, row, world);
      return false;
    }

    /** One bounded batch. */
    method Flush(force: bool, now: real, world: World) returns (result: FlushResult)
      requires repository.Valid() && config.Valid() && world.SchedulesAll()
      modifies this`retryAt, repository
      ensures repository.Valid() && old(repository.requests) <= repository.requests
      ensures var rows := old(repository.outbox);
        var selected := Selected(rows, config, old(retryAt), now, force);
        var ids := IdsOf(selected);
        && result.selected == |selected| <= config.batchSize
        && result.synced + result.failed == result.selected
        && result.synced == |Succeeding(rows, ids, world)|
        && (force ==> result.deferred == 0)
        && After(Drain(rows, old(retryAt), old(repository.acknowledged)), ids, config, world,
                 Drain(repository.outbox, retryAt, repository.acknowledged))
    {
      var pending := repository.PendingOutbox(config.scanLimit);
      var eligible, deferred := CollectDue(pending, now, force);
      WalkSelects(pending, config.batchSize, retryAt, now, force);
      SelectedRows(repository.outbox, config, retryAt, now, force);
      var order := world.schedule(eligible);
      assert Reorders(order, eligible);
      assert IdsOf(order) == IdsOf(eligible);
      var synced := SyncAll(order, world);
      result := FlushResult(|eligible|, synced, |order| - synced, deferred);
    }

    /** The attempts of one batch, in the order they happen to finish. */
    method SyncAll(order: seq<nat>, world: World) returns (synced: nat)
      requires repository.Valid() && Distinct(order)
      requires forall id :: id in order ==> id < |repository.outbox| && repository.outbox[id].Selectable()
      modifies this`retryAt, repository
      ensures repository.Valid() && old(repository.requests) <= repository.requests
      ensures synced == |Succeeding(old(repository.outbox), IdsOf(order), world)| <= |order|
      ensures After(Drain(old(repository.outbox), old(retryAt), old(repository.acknowledged)), IdsOf(order), config,
        world,
                    Drain(repository.outbox, retryAt, repository.acknowledged))
    {
      synced := 0;
      ghost var start := Drain(repository.outbox, retryAt, repository.acknowledged);
      ghost var done := {};
      for k := 0 to |order|
        invariant repository.Valid() && old(repository.requests) <= repository.requests && done == IdsOf(order[..k])
        invariant synced == |Succeeding(start.rows, done, world)| <= k
        invariant After(start, done, config, world, Drain(repository.outbox, retryAt, repository.acknowledged))
      {
        ghost var before := Drain(repository.outbox, retryAt, repository.acknowledged);
        TakeNext(order, k);
        assert order[k] in order;
        NotYet(start, done, order[k], config, world, before);
        var ok := SyncItem(order[k], world);
        NextAfter(start, done, order[k], config, world, before,
          Drain(repository.outbox, retryAt, repository.acknowledged));
        OneMore(start.rows, done, order[k], world);
        done := done + {order[k]};
        if ok { synced := synced + 1; }
      }
      assert order[..|order|] == order;
    }

    method CollectDue(pending: seq<nat>, now: real, force: bool) returns (eligible: seq<nat>, deferred: nat)
      requires config.Valid()
      ensures Walked(eligible, deferred) == Walk(pending, config.batchSize, retryAt, now, force)
    {
      eligible, deferred := [], 0;
      ghost var all := Walk(pending, config.batchSize, retryAt, now, force);
      assert pending[0..] == pending;
      for k := 0 to |pending|
        invariant |eligible| < config.batchSize
        invariant var rest := Walk(pending[k..], config.batchSize - |eligible|, retryAt, now, force);
          all == Walked(eligible + rest.eligible, deferred + rest.deferred)
      {
        WalkNext(pending, k, eligible, deferred, config.batchSize - |eligible|, retryAt, now, force);
        if DueAt(pending[k], retryAt, now, force) {
          eligible := eligible + [pending[k]];
          if |eligible| >= config.batchSize { break; }
        } else {
          deferred := deferred + 1;
        }
      }
    }

    /** A whole life of the outbox: any sequence of enqueues and flushes. Every requested
        item keeps one row with its first payload, and a row is only ever called
        synchronised after the warehouse acknowledged it. */
    method Serve(operations: seq<Operation>)
      requires repository.Valid() && config.Valid()
      requires forall op :: op in operations && op.Flushed? ==> op.world.SchedulesAll()
      modifies this`retryAt, repository
      ensures repository.Valid() && old(repository.requests) <= repository.requests
      ensures forall op :: op in operations && op.Request? ==> op.item in repository.requests
      ensures forall id :: 0 <= id < |repository.outbox| && id !in repository.acknowledged ==>
        repository.outbox[id].Selectable()
    {
      for k := 0 to |operations|
        invariant repository.Valid() && old(repository.requests) <= repository.requests
        invariant forall j :: 0 <= j < k && operations[j].Request? ==> operations[j].item in repository.requests
      {
        match operations[k] {
          case Request(item) => repository.Enqueue(item);
          case Flushed(force, now, world) =>
            assert operations[k] in operations;
            var _ := Flush(force, now, world);
        }
      }
    }

    method RecordFailure(id: nat, row: OutboxRow, world: World)
      requires repository.Valid() && id < |repository.outbox|
      modifies this`retryAt, repository`outbox
      ensures repository.Valid()
      ensures repository.outbox ==
        if world.markFailedFails(id) then old(repository.outbox)
        else old(repository.outbox)[id := old(repository.outbox)[id].Marked(false)]
      ensures retryAt == old(retryAt)[id := world.clock(id) + DelayAfter(config, row, id, world)]
    {
      if !world.markFailedFails(id) { repository.MarkOutbox(id, false); }
      var delay := RetryDelay(config, row.attempts + 1);
      if !(!Malformed(row) && world.sync(id).Raised? && world.sync(id).retryable) { delay := config.max; }
      retryAt := retryAt[id := world.clock(id) + delay];
    }
  }

  /** What draining changes: the rows, the retry times, and (in the warehouse) the
      acknowledged rows. */
  datatype Drain = Drain(rows: seq<OutboxRow>, retryAt: map<nat, real>, acknowledged: set<nat>)

  /** One attempt: its row, its retry time and its acknowledgement; nothing else changes,
      except that rows may be added. */
  ghost predicate AfterOne(before: Drain, id: nat, config: Config, world: World, after: Drain)
    requires id < |before.rows|
  {
    var row := before.rows[id];
    && |before.rows| <= |after.rows| && after.rows[..|before.rows|] == before.rows[id := Attempted(row, id, world)]
    && after.retryAt == (if Succeeds(row, id, world) then before.retryAt - {id}
                         else before.retryAt[id := world.clock(id) + DelayAfter(config, row, id, world)])
    && after.acknowledged == before.acknowledged + (if Acknowledged(row, id, world) then {id} else {})
  }

  /** One attempt on each of `ids`: every other old row is untouched. */
  ghost predicate After(before: Drain, ids: set<nat>, config: Config, world: World, after: Drain) {
    && |before.rows| <= |after.rows|
    && (forall id :: 0 <= id < |before.rows| ==>
          after.rows[id] == if id in ids then Attempted(before.rows[id], id, world) else before.rows[id])
    && (forall id :: RetryRecorded(before, id in ids, id, config, world, after))
    && (forall id :: id in after.acknowledged <==>
          id in before.acknowledged || (id in ids && id < |before.rows| && Acknowledged(before.rows[id], id, world)))
  }

  ghost predicate RetryRecorded(before: Drain, tried: bool, id: nat, config: Config, world: World, after: Drain) {
    if tried && id < |before.rows| then
      if Succeeds(before.rows[id], id, world) then id !in after.retryAt
      else id in after.retryAt && after.retryAt[id] == world.clock(id) + DelayAfter(config, before.rows[id], id, world)
    else
      (id in after.retryAt <==> id in before.retryAt) &&
        (id in after.retryAt ==> after.retryAt[id] == before.retryAt[id])
  }

  lemma NotYet(start: Drain, done: set<nat>, next: nat, config: Config, world: World, before: Drain)
    requires next < |start.rows| && next !in done && After(start, done, config, world, before)
    ensures next < |before.rows| && before.rows[next] == start.rows[next]
  {
  }

  lemma NextAfter(start: Drain, done: set<nat>, next: nat, config: Config, world: World, before: Drain, after: Drain)
    requires next < |start.rows| && next !in done
    requires After(start, done, config, world, before)
    requires AfterOne(before, next, config, world, after)
    ensures After(start, done + {next}, config, world, after)
  {
    forall id | 0 <= id < |start.rows|
      ensures after.rows[id] == if id in done + {next} then Attempted(start.rows[id], id, world) else start.rows[id]
    {
      assert after.rows[id] == after.rows[..|before.rows|][id];
    }
    forall id ensures RetryRecorded(start, id in done + {next}, id, config, world, after) {
      assert RetryRecorded(start, id in done, id, config, world, before);
    }
  }

  function IdsOf(ids: seq<nat>): set<nat> {
    set id | id in ids
  }

  /** The rows of a batch that are acknowledged and marked so. */
  function Succeeding(rows: seq<OutboxRow>, ids: set<nat>, world: World): set<nat> {
    set id | id in ids && id < |rows| && Succeeds(rows[id], id, world)
  }

  lemma OneMore(rows: seq<OutboxRow>, done: set<nat>, next: nat, world: World)
    requires next < |rows| && next !in done
    ensures |Succeeding(rows, done + {next}, world)| ==
      |Succeeding(rows, done, world)| + if Succeeds(rows[next], next, world) then 1 else 0
  {
    var before, after := Succeeding(rows, done, world), Succeeding(rows, done + {next}, world);
    if Succeeds(rows[next], next, world) {
      assert after == before + {next} && next !in before;
    } else {
      assert after == before;
    }
  }

  ghost predicate AllSucceed(before: seq<OutboxRow>, ids: set<nat>, world: World) {
    forall id :: 0 <= id < |before| && id in ids ==> Succeeds(before[id], id, world)
  }

  lemma TakeNext(order: seq<nat>, k: nat)
    requires k < |order| && Distinct(order)
    ensures order[k] !in IdsOf(order[..k])
    ensures IdsOf(order[..k + 1]) == IdsOf(order[..k]) + {order[k]}
  {
    assert order[..k + 1] == order[..k] + [order[k]];
  }

  predicate Increasing(ids: seq<nat>) {
    forall a, b :: 0 <= a < b < |ids| ==> ids[a] < ids[b]
  }

  lemma {:induction false} DueIdsIncrease(ids: seq<nat>, retryAt: map<nat, real>, now: real, force: bool)
    requires Increasing(ids)
    ensures Increasing(DueIds(ids, retryAt, now, force))
    decreases |ids|
  {
    if ids != [] {
      var due := DueIds(ids[1..], retryAt, now, force);
      RestIncreases(ids);
      DueIdsIncrease(ids[1..], retryAt, now, force);
      PrependIncreasing(ids[0], ids[1..], due);
      assert [] + due == due;
    }
  }

  lemma RestIncreases(ids: seq<nat>)
    requires ids != [] && Increasing(ids)
    ensures Increasing(ids[1..]) && [ids[0]] + ids[1..] == ids
  {
  }

  lemma PrependIncreasing(id: nat, ids: seq<nat>, due: seq<nat>)
    requires Increasing([id] + ids) && Increasing(due) && forall d :: d in due ==> d in ids
    ensures Increasing([id] + due)
  {
    forall b | 0 <= b < |due| ensures id < due[b] {
      assert due[b] in due;
      var c :| 0 <= c < |ids| && ids[c] == due[b];
      assert ([id] + ids)[0] == id && ([id] + ids)[c + 1] == due[b];
    }
  }

  /** What a selection is made of. */
  lemma SelectedRows(outbox: seq<OutboxRow>, config: Config, retryAt: map<nat, real>, now: real, force: bool)
    requires config.Valid()
    ensures var selected := Selected(outbox, config, retryAt, now, force);
      && Distinct(selected) && |selected| <= config.batchSize
      && forall id :: id in selected ==> id < |outbox| && outbox[id].Selectable() && DueAt(id, retryAt, now, force)
  {
    var pending := PendingIds(outbox);
    var scan := pending[..Min(config.scanLimit, |pending|)];
    DueIdsIncrease(scan, retryAt, now, force);
    var due := DueIds(scan, retryAt, now, force);
    var selected := Selected(outbox, config, retryAt, now, force);
    forall id | id in selected ensures id < |outbox| && outbox[id].Selectable() && DueAt(id, retryAt, now, force) {
      assert id in due && id in scan && id in pending;
    }
  }

  // ------------------------------------------------------------------ progress

  lemma {:induction false} ForcedMeansAllDue(ids: seq<nat>, retryAt: map<nat, real>, now: real)
    ensures DueIds(ids, retryAt, now, true) == ids
    decreases |ids|
  {
    if ids != [] { ForcedMeansAllDue(ids[1..], retryAt, now); }
  }

  lemma {:induction false} IncreasingIsUnique(a: seq<nat>, b: seq<nat>)
    requires Increasing(a) && Increasing(b) && forall id :: id in a <==> id in b
    ensures a == b
    decreases |a|
  {
    if a == [] {
      assert forall k :: 0 <= k < |b| ==> b[k] in b;
    } else {
      assert a[|a| - 1] in a && a[|a| - 1] in b;
      DropLast(a);
      DropLast(b);
      assert b[|b| - 1] in b && a[|a| - 1] == b[|b| - 1];
      var x, y := a[..|a| - 1], b[..|b| - 1];
      forall id ensures id in x <==> id in y {
        assert id in x <==> id in a && id != a[|a| - 1];
        assert id in y <==> id in b && id != b[|b| - 1];
      }
      IncreasingIsUnique(x, y);
    }
  }

  lemma DropLast(a: seq<nat>)
    requires a != [] && Increasing(a)
    ensures Increasing(a[..|a| - 1])
    ensures forall id :: id in a[..|a| - 1] <==> id in a && id != a[|a| - 1]
    ensures forall id :: id in a ==> id <= a[|a| - 1]
  {
  }

  /** A forced flush that succeeds on every row removes exactly the oldest batch. */
  lemma ForcedFlushDrains(before: Drain, config: Config, now: real, world: World, after: Drain)
    requires config.Valid() && |after.rows| == |before.rows|
    requires var ids := IdsOf(Selected(before.rows, config, before.retryAt, now, true));
      After(before, ids, config, world, after) && AllSucceed(before.rows, ids, world)
    ensures var pending := PendingIds(before.rows);
      && Selected(before.rows, config, before.retryAt, now, true) == pending[..Min(config.batchSize, |pending|)]
      && PendingIds(after.rows) == pending[Min(config.batchSize, |pending|)..]
  {
    ForcedSelection(before.rows, config, before.retryAt, now);
    Drained(before, Min(config.batchSize, |PendingIds(before.rows)|), config, world, after);
  }

  lemma ForcedSelection(rows: seq<OutboxRow>, config: Config, retryAt: map<nat, real>, now: real)
    requires config.Valid()
    ensures var pending := PendingIds(rows);
      Selected(rows, config, retryAt, now, true) == pending[..Min(config.batchSize, |pending|)]
  {
    var pending := PendingIds(rows);
    ForcedMeansAllDue(pending[..Min(config.scanLimit, |pending|)], retryAt, now);
  }

  lemma Drained(before: Drain, n: nat, config: Config, world: World, after: Drain)
    requires |after.rows| == |before.rows| && n <= |PendingIds(before.rows)|
    requires var ids := IdsOf(PendingIds(before.rows)[..n]);
      After(before, ids, config, world, after) && AllSucceed(before.rows, ids, world)
    ensures PendingIds(after.rows) == PendingIds(before.rows)[n..]
  {
    var pending := PendingIds(before.rows);
    assert pending == pending[..n] + pending[n..];
    forall id ensures id in PendingIds(after.rows) <==> id in pending[n..] {
      assert id in IdsOf(pending[..n]) <==> id in pending[..n];
      if id in pending[..n] { Once(pending, n, id); }
      else { assert id in pending <==> id in pending[n..]; }
    }
    IncreasingIsUnique(PendingIds(after.rows), pending[n..]);
  }

  lemma Once(ids: seq<nat>, n: nat, id: nat)
    requires Increasing(ids) && n <= |ids| && id in ids[..n]
    ensures id !in ids[n..]
  {
  }

  lemma {:induction false} DueIdsAppend(a: seq<nat>, b: seq<nat>, retryAt: map<nat, real>, now: real, force: bool)
    ensures DueIds(a + b, retryAt, now, force) == DueIds(a, retryAt, now, force) + DueIds(b, retryAt, now, force)
    decreases |a|
  {
    if a == [] {
      assert [] + b == b;
    } else {
      assert (a + b)[0] == a[0] && (a + b)[1..] == a[1..] + b;
      DueIdsAppend(a[1..], b, retryAt, now, force);
      var head := if DueAt(a[0], retryAt, now, force) then [a[0]] else [];
      assert (head + DueIds(a[1..], retryAt, now, force)) + DueIds(b, retryAt, now, force)
          == head + (DueIds(a[1..], retryAt, now, force) + DueIds(b, retryAt, now, force));
    }
  }

  /** Exactly which unsynchronised row a flush attempts, counted from the oldest: it is due,
      it lies within the scan limit, and fewer older rows are due than the batch holds. */
  lemma {:induction false} AttemptedExactly(outbox: seq<OutboxRow>, config: Config, retryAt: map<nat, real>, now: real,
                                            force: bool, k: nat)
    requires k < |PendingIds(outbox)|
    ensures var pending := PendingIds(outbox);
      pending[k] in Selected(outbox, config, retryAt, now, force) <==>
        && k < config.scanLimit && DueAt(pending[k], retryAt, now, force)
        && |DueIds(pending[..k], retryAt, now, force)| < config.batchSize
  {
    var pending := PendingIds(outbox);
    var scan := pending[..Min(config.scanLimit, |pending|)];
    if k < config.scanLimit {
      assert scan[k] == pending[k] && scan[..k] == pending[..k];
      FirstOfDue(scan, k, config.batchSize, retryAt, now, force);
    } else {
      assert pending[k] !in scan;
    }
  }

  /** A row is among the first due ones exactly if it is due and few older ones are. */
  lemma {:induction false} FirstOfDue(ids: seq<nat>, k: nat, room: nat, retryAt: map<nat, real>, now: real, force: bool)
    requires Increasing(ids) && k < |ids|
    ensures var due := DueIds(ids, retryAt, now, force);
      ids[k] in due[..Min(room, |due|)] <==>
        DueAt(ids[k], retryAt, now, force) && |DueIds(ids[..k], retryAt, now, force)| < room
  {
    var due := DueIds(ids, retryAt, now, force);
    if DueAt(ids[k], retryAt, now, force) {
      DuePlace(ids, k, retryAt, now, force);
      DueIdsIncrease(ids, retryAt, now, force);
      InFirst(due, |DueIds(ids[..k], retryAt, now, force)|, Min(room, |due|));
    } else {
      assert ids[k] !in due;
    }
  }

  lemma {:induction false} DuePlace(ids: seq<nat>, k: nat, retryAt: map<nat, real>, now: real, force: bool)
    requires k < |ids| && DueAt(ids[k], retryAt, now, force)
    ensures var due, place := DueIds(ids, retryAt, now, force), |DueIds(ids[..k], retryAt, now, force)|;
      place < |due| && due[place] == ids[k]
  {
    assert ids == ids[..k] + ids[k..];
    DueIdsAppend(ids[..k], ids[k..], retryAt, now, force);
    assert DueIds(ids[k..], retryAt, now, force)[0] == ids[k];
  }

  lemma InFirst(ids: seq<nat>, k: nat, n: nat)
    requires Increasing(ids) && k < |ids| && n <= |ids|
    ensures ids[k] in ids[..n] <==> k < n
  {
    if k < n { assert ids[..n][k] == ids[k]; }
  }

  /** The scan limit starves: a row behind `scanLimit` older unsynchronised rows is not
      attempted by any flush, forced or not, for as long as those stay unsynchronised. */
  lemma ScanLimitStarves(outbox: seq<OutboxRow>, config: Config, retryAt: map<nat, real>, now: real, force: bool,
                         k: nat)
    requires config.Valid()
    ensures config.scanLimit <= k < |PendingIds(outbox)| ==>
      PendingIds(outbox)[k] !in Selected(outbox, config, retryAt, now, force)
  {
    if config.scanLimit <= k < |PendingIds(outbox)| { AttemptedExactly(outbox, config, retryAt, now, force, k); }
  }
}
