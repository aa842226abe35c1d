/** The request recorder of a successor: events queue up while older cores still
    write the history, and a placeholder settles them meanwhile. */
module Recorder {
  import opened Seqs

  /** What an event says of its request.  The numbers stand for the details of a
      start, of a later report and of an ending. */
  datatype Kind =
    | Start(what: nat)
    | Note(what: nat)
    | End(how: nat)
    | LocalAnswer
    | Unrelated

  /** An event and the length of its serialized form. */
  datatype Event = Event(id: nat, kind: Kind, size: nat)

  // ------------------------------------------------------------- the queue

  function Bytes(s: seq<Event>): nat {
    if s == [] then 0 else s[0].size + Bytes(s[1..])
  }

  predicate Fits(s: seq<Event>, maxEvents: nat, maxBytes: nat) {
    |s| <= (if maxEvents == 0 then 1 else maxEvents) && Bytes(s) <= maxBytes
  }

  /** The longest suffix of `h` within both limits. */
  function Newest(h: seq<Event>, maxEvents: nat, maxBytes: nat): (s: seq<Event>)
    decreases |h|
  {
    if Fits(h, maxEvents, maxBytes) || h == [] then h else Newest(h[1..], maxEvents, maxBytes)
  }

  lemma {:induction false} BytesSplit(s: seq<Event>, k: nat)
    requires k <= |s|
    ensures Bytes(s) == Bytes(s[..k]) + Bytes(s[k..])
    decreases k
  {
    if k > 0 {
      BytesSplit(s[1..], k - 1);
      assert s[..k][1..] == s[1..][..k - 1] && s[k..] == s[1..][k - 1..];
    } else {
      assert s[..0] == [] && s[0..] == s;
    }
  }

  lemma BytesAppend(s: seq<Event>, e: Event)
    ensures Bytes(s + [e]) == Bytes(s) + e.size
  {
    BytesSplit(s + [e], |s|);
    assert (s + [e])[..|s|] == s && (s + [e])[|s|..] == [e];
    assert Bytes([e]) == e.size + Bytes([]);
  }

  /** What `Newest` means: a suffix that fits, and no longer one does. */
  lemma {:induction false} NewestIs(h: seq<Event>, k: nat, maxEvents: nat, maxBytes: nat)
    requires k <= |h| && Fits(h[k..], maxEvents, maxBytes)
    requires k > 0 ==> !Fits(h[k - 1..], maxEvents, maxBytes)
    ensures Newest(h, maxEvents, maxBytes) == h[k..]
    decreases k
  {
    if k == 0 {
      assert h[0..] == h;
    } else {
      LongerDoesNotFit(h, k - 1, maxEvents, maxBytes);
      assert h[1..][k - 1..] == h[k..];
      if k > 1 {
        assert h[1..][k - 2..] == h[k - 1..];
      }
      NewestIs(h[1..], k - 1, maxEvents, maxBytes);
    }
  }

  lemma LongerDoesNotFit(h: seq<Event>, k: nat, maxEvents: nat, maxBytes: nat)
    requires k <= |h| && !Fits(h[k..], maxEvents, maxBytes)
    ensures !Fits(h, maxEvents, maxBytes)
  {
    BytesSplit(h, k);
  }

  lemma NewestFits(h: seq<Event>, maxEvents: nat, maxBytes: nat)
    ensures Fits(Newest(h, maxEvents, maxBytes), maxEvents, maxBytes)
    ensures |Newest(h, maxEvents, maxBytes)| <= |h|
    ensures Newest(h, maxEvents, maxBytes) == h[|h| - |Newest(h, maxEvents, maxBytes)|..]
    ensures forall k :: 0 <= k < |h| - |Newest(h, maxEvents, maxBytes)| ==> !Fits(h[k..], maxEvents, maxBytes)
    decreases |h|
  {
    if !(Fits(h, maxEvents, maxBytes) || h == []) {
      NewestFits(h[1..], maxEvents, maxBytes);
      var n := |Newest(h, maxEvents, maxBytes)|;
      assert h[1..][|h| - 1 - n..] == h[|h| - n..];
      forall k | 0 <= k < |h| - n ensures !Fits(h[k..], maxEvents, maxBytes) {
        if k > 0 {
          assert h[1..][k - 1..] == h[k..];
        } else {
          assert h[0..] == h;
        }
      }
    }
  }

  lemma NewestOf(front: seq<Event>, s: seq<Event>, maxEvents: nat, maxBytes: nat)
    requires Fits(s, maxEvents, maxBytes)
    requires front != [] ==> !Fits([front[|front| - 1]] + s, maxEvents, maxBytes)
    ensures Newest(front + s, maxEvents, maxBytes) == s
  {
    var h := front + s;
    assert h[|front|..] == s;
    if front != [] {
      assert h[|front| - 1..] == [front[|front| - 1]] + s;
    }
    NewestIs(h, |front|, maxEvents, maxBytes);
  }

  /** Nothing of `front` can stay beside `items` once `e` is in. */
  predicate Tight(front: seq<Event>, items: seq<Event>, e: Event, maxEvents: nat, maxBytes: nat) {
    front != [] ==> !Fits([front[|front| - 1]] + items + [e], maxEvents, maxBytes)
  }

  lemma TightAtFirst(h: seq<Event>, k: nat, e: Event, maxEvents: nat, maxBytes: nat)
    requires k == |h| - |Newest(h, maxEvents, maxBytes)| >= 0
    ensures h == h[..k] + Newest(h, maxEvents, maxBytes)
    ensures Tight(h[..k], Newest(h, maxEvents, maxBytes), e, maxEvents, maxBytes)
  {
    NewestFits(h, maxEvents, maxBytes);
    if k > 0 {
      assert !Fits(h[k - 1..], maxEvents, maxBytes);
      BytesAppend(h[k - 1..], e);
      assert [h[..k][k - 1]] + h[k..] + [e] == h[k - 1..] + [e];
    }
  }

  lemma TightAfterPop(front: seq<Event>, items: seq<Event>, e: Event, maxEvents: nat, maxBytes: nat)
    requires items != [] && (|items| >= maxEvents || Bytes(items) + e.size > maxBytes)
    ensures Tight(front + [items[0]], items[1..], e, maxEvents, maxBytes)
  {
    BytesAppend(items, e);
    var f := front + [items[0]];
    assert f[|f| - 1] == items[0];
    assert [items[0]] + items[1..] == items;
    assert !Fits(items + [e], maxEvents, maxBytes);
  }

  lemma PopOldest(front: seq<Event>, items: seq<Event>)
    requires items != []
    ensures front + items == front + [items[0]] + items[1..]
    ensures Bytes(items) == items[0].size + Bytes(items[1..])
  {
  }

  lemma TightAtLast(front: seq<Event>, items: seq<Event>, e: Event, maxEvents: nat, maxBytes: nat)
    requires Tight(front, items, e, maxEvents, maxBytes)
    requires items == [] || (|items| < maxEvents && Bytes(items) + e.size <= maxBytes)
    ensures Newest(front + items + [e], maxEvents, maxBytes) == if e.size <= maxBytes then items + [e] else []
    ensures e.size > maxBytes ==> items == []
    ensures Bytes(items + [e]) == Bytes(items) + e.size
  {
    BytesAppend(items, e);
    if e.size <= maxBytes {
      if front != [] {
        assert [front[|front| - 1]] + items + [e] == [front[|front| - 1]] + (items + [e]);
      }
      assert front + items + [e] == front + (items + [e]);
      NewestOf(front, items + [e], maxEvents, maxBytes);
    } else {
      assert Bytes([e]) == e.size + Bytes([]);
      assert front + items + [e] == (front + [e]) + [];
      assert [e] + [] == [e];
      NewestOf(front + [e], [], maxEvents, maxBytes);
    }
  }

  class Queue {
    var items: seq<Event>
    var bytes: nat
    const maxEvents: nat
    const maxBytes: nat
    var dropped: nat
    ghost var pushed: seq<Event>

    /** Exactly the longest suffix of what was pushed that fits both limits. */
    ghost predicate Valid()
      reads this
    {
      && items == Newest(pushed, maxEvents, maxBytes)
      && bytes == Bytes(items)
      && |pushed| == |items| + dropped
    }

    constructor (maxEvents: nat, maxBytes: nat)
      ensures Valid() && pushed == [] && items == []
      ensures this.maxEvents == maxEvents && this.maxBytes == maxBytes
    {
      items, bytes, dropped, pushed := [], 0, 0, [];
      this.maxEvents, this.maxBytes := maxEvents, maxBytes;
    }

    /** The loop of `push`: the oldest go until the new one has room. */
    method MakeRoom(e: Event) returns (ghost front: seq<Event>)
      requires Valid()
      modifies this`items, this`bytes, this`dropped
      ensures pushed == front + items && dropped == |front| && bytes == Bytes(items)
      ensures Tight(front, items, e, maxEvents, maxBytes)
      ensures items == [] || (|items| < maxEvents && bytes + e.size <= maxBytes)
    {
      TightAtFirst(pushed, dropped, e, maxEvents, maxBytes);
      front := pushed[..dropped];
      while items != [] && (|items| >= maxEvents || bytes + e.size > maxBytes)
        invariant pushed == front + items
        invariant bytes == Bytes(items) && dropped == |front|
        invariant Tight(front, items, e, maxEvents, maxBytes)
        decreases |items|
      {
        TightAfterPop(front, items, e, maxEvents, maxBytes);
        PopOldest(front, items);
        front := front + [items[0]];
        bytes := bytes - items[0].size;
        items := items[1..];
        dropped := dropped + 1;
      }
    }

    method Push(e: Event)
      requires Valid()
      modifies this
      ensures Valid() && pushed == old(pushed) + [e]
    {
      ghost var front := MakeRoom(e);
      TightAtLast(front, items, e, maxEvents, maxBytes);
      pushed := pushed + [e];
      if e.size > maxBytes {
        dropped := dropped + 1;
        return;
      }
      bytes := bytes + e.size;
      items := items + [e];
    }

    method Drain() returns (all: seq<Event>)
      modifies this
      ensures all == old(items) && items == [] && bytes == 0 && dropped == old(dropped)
    {
      all, items, bytes := items, [], 0;
    }
  }

  // ------------------------------------------------------------- the fold

  /** A row of the history: an ended request with all that was reported of it, or
      an answer of the gateway itself. */
  datatype Row =
    | Ended(id: nat, notes: seq<nat>, how: nat)
    | Answered(id: nat)

  /** The requests that run, with what was reported of each so far. */
  type Open = map<nat, seq<nat>>

  /** The row an event completes, if any: an ending only if its request is open. */
  function Completes(open: Open, e: Event): seq<Row> {
    match e.kind
    case End(how) => if e.id in open then [Ended(e.id, open[e.id], how)] else []
    case LocalAnswer => [Answered(e.id)]
    case _ => []
  }

  function After(open: Open, e: Event): Open {
    match e.kind
    case Start(what) => open[e.id := [what]]
    case Note(what) => if e.id in open then open[e.id := open[e.id] + [what]] else open
    case End(_) => open - {e.id}
    case _ => open
  }

  function Rows(open: Open, s: seq<Event>): seq<Row>
    decreases |s|
  {
    if s == [] then [] else Completes(open, s[0]) + Rows(After(open, s[0]), s[1..])
  }

  function OpenAfter(open: Open, s: seq<Event>): Open
    decreases |s|
  {
    if s == [] then open else OpenAfter(After(open, s[0]), s[1..])
  }

  /** The rows the settlement hook is called with. */
  function Settled(rows: seq<Row>): seq<Row> {
    if rows == [] then [] else (if rows[0].Ended? then [rows[0]] else []) + Settled(rows[1..])
  }

  /** What the requests of a store have used; a local answer uses nothing. */
  function Rebuild(price: Row -> int, rows: seq<Row>): int {
    if rows == [] then 0 else (if rows[0].Ended? then price(rows[0]) else 0) + Rebuild(price, rows[1..])
  }

  lemma {:induction false} RowsConcat(open: Open, a: seq<Event>, b: seq<Event>)
    ensures Rows(open, a + b) == Rows(open, a) + Rows(OpenAfter(open, a), b)
    ensures OpenAfter(open, a + b) == OpenAfter(OpenAfter(open, a), b)
    decreases |a|
  {
    if a == [] {
      assert a + b == b;
    } else {
      assert (a + b)[1..] == a[1..] + b;
      RowsConcat(After(open, a[0]), a[1..], b);
      Regroup(Completes(open, a[0]), Rows(After(open, a[0]), a[1..]), Rows(OpenAfter(open, a), b));
    }
  }

  lemma {:induction false} RebuildConcat(price: Row -> int, a: seq<Row>, b: seq<Row>)
    ensures Rebuild(price, a + b) == Rebuild(price, a) + Rebuild(price, b)
    ensures Settled(a + b) == Settled(a) + Settled(b)
    decreases |a|
  {
    if a == [] {
      assert a + b == b;
    } else {
      assert (a + b)[1..] == a[1..] + b;
      RebuildConcat(price, a[1..], b);
      Regroup(if a[0].Ended? then [a[0]] else [], Settled(a[1..]), Settled(b));
    }
  }

  // ------------------------------------------------------------- the wait

  /** One turn of the wait: what the feed held, what it had to drop, and whether
      the wait is over (every predecessor's process has ended). */
  datatype Poll = Poll(events: seq<Event>, dropped: nat, over: bool)

  /** The events of a wait, up to and including the turn that ends it. */
  function Waited(polls: seq<Poll>): seq<Event> {
    if polls == [] then []
    else if polls[0].over then polls[0].events
    else polls[0].events + Waited(polls[1..])
  }

  function Lost(polls: seq<Poll>): nat {
    if polls == [] then 0
    else if polls[0].over then polls[0].dropped
    else polls[0].dropped + Lost(polls[1..])
  }

  /** The events of the turns after this one. */
  function Then(polls: seq<Poll>, k: nat): seq<Event>
    requires k < |polls|
  {
    if polls[k].over then [] else Waited(polls[k + 1..])
  }

  lemma WaitedFrom(polls: seq<Poll>, k: nat, before: seq<Event>)
    requires k < |polls|
    ensures before + Waited(polls[k..]) == before + polls[k].events + Then(polls, k)
    ensures Lost(polls[k..]) == polls[k].dropped + (if polls[k].over then 0 else Lost(polls[k + 1..]))
  {
    assert polls[k..][1..] == polls[k + 1..];
    Regroup(before, polls[k].events, Then(polls, k));
    assert polls[k].events + [] == polls[k].events;
  }

  /** What is in the store, what was settled in order, and the usage on account. */
  datatype Seen = Seen(db: seq<Row>, settled: seq<Row>, usage: int)

  function Immediate(price: Row -> int, disk: seq<Row>, events: seq<Event>): Seen {
    var db := disk + Rows(map[], events);
    Seen(db, Settled(Rows(map[], events)), Rebuild(price, db))
  }

  /** The placeholder settles what ends in the wait, the real store what ends
      later, as far as it knows the start. */
  function Deferred(price: Row -> int, disk: seq<Row>, waited: seq<Event>, kept: seq<Event>, later: seq<Event>): Seen {
    var db := disk + Rows(map[], kept + later);
    Seen(db, Settled(Rows(map[], waited)) + Settled(Rows(OpenAfter(map[], kept), later)), Rebuild(price, db))
  }

  const BATCH: nat := 64

  /** The key limits: the hook every settled row is handed to. */
  class Account {
    const price: Row -> int
    var settled: seq<Row>
    var usage: int

    constructor (price: Row -> int, usage: int)
      ensures this.price == price && settled == [] && this.usage == usage
    {
      this.price, settled, this.usage := price, [], usage;
    }

    method Settle(row: Row)
      requires row.Ended?
      modifies this
      ensures settled == old(settled) + [row] && usage == old(usage) + price(row)
    {
      settled, usage := settled + [row], usage + price(row);
    }
  }

  /** A recorder; one without a hook neither settles nor reports. */
  class Store {
    var open: Open
    var db: seq<Row>
    var hook: Account?

    constructor (db: seq<Row>, hook: Account?)
      ensures open == map[] && this.db == db && this.hook == hook
    {
      open, this.db, this.hook := map[], db, hook;
    }

    /** `Recorder::on_event`. */
    method OnEvent(e: Event)
      modifies this`open, this`db, hook
      ensures open == After(old(open), e) && db == old(db) + Completes(old(open), e)
      ensures hook != null ==> hook.settled == old(hook.settled) + Settled(Completes(old(open), e))
      ensures hook != null ==> hook.usage == old(hook.usage) + Rebuild(hook.price, Completes(old(open), e))
    {
      match e.kind
      case Start(what) =>
        open := open[e.id := [what]];
      case Note(what) =>
        if e.id in open {
          open := open[e.id := open[e.id] + [what]];
        }
      case End(how) =>
        if e.id in open {
          var row := Ended(e.id, open[e.id], how);
          open := open - {e.id};
          if hook != null {
            hook.Settle(row);
          }
          db := db + [row];
        }
      case LocalAnswer =>
        db := db + [Answered(e.id)];
      case Unrelated =>
    }

    method OnEvents(es: seq<Event>)
      modifies this`open, this`db, hook
      ensures open == OpenAfter(old(open), es) && db == old(db) + Rows(old(open), es)
      ensures hook != null ==> hook.settled == old(hook.settled) + Settled(Rows(old(open), es))
      ensures hook != null ==> hook.usage == old(hook.usage) + Rebuild(hook.price, Rows(old(open), es))
    {
      var k := 0;
      while k < |es|
        invariant k <= |es|
        invariant open == OpenAfter(old(open), es[..k]) && db == old(db) + Rows(old(open), es[..k])
        invariant hook != null ==> hook.settled == old(hook.settled) + Settled(Rows(old(open), es[..k]))
        invariant hook != null ==>
          hook.usage == old(hook.usage) + Rebuild(hook.price, Rows(old(open), es[..k]))
      {
        assert es[..k + 1] == es[..k] + [es[k]];
        RowsConcat(old(open), es[..k], [es[k]]);
        RowsOfOne(open, es[k]);
        if hook != null {
          RebuildConcat(hook.price, Rows(old(open), es[..k]), Completes(open, es[k]));
        }
        OnEvent(es[k]);
        k := k + 1;
      }
      assert es[..k] == es;
    }
  }

  lemma RowsOfOne(open: Open, e: Event)
    ensures Rows(open, [e]) == Completes(open, e) && OpenAfter(open, [e]) == After(open, e)
  {
    assert Rows(After(open, e), [e][1..]) == [];
  }

  lemma MoreRows(price: Row -> int, open: Open, a: seq<Event>, b: seq<Event>)
    ensures var more := Rows(OpenAfter(open, a), b);
            && OpenAfter(open, a + b) == OpenAfter(OpenAfter(open, a), b)
            && Rows(open, a + b) == Rows(open, a) + more
            && Settled(Rows(open, a + b)) == Settled(Rows(open, a)) + Settled(more)
            && Rebuild(price, Rows(open, a + b)) == Rebuild(price, Rows(open, a)) + Rebuild(price, more)
  {
    RowsConcat(open, a, b);
    RebuildConcat(price, Rows(open, a), Rows(OpenAfter(open, a), b));
  }

  lemma BatchOf(price: Row -> int, open: Open, events: seq<Event>, k: nat, n: nat, db: seq<Row>, settled: seq<Row>)
    requires k + n <= |events|
    ensures var open' := OpenAfter(open, events[..k]);
            var more := Rows(open', events[k..k + n]);
            && OpenAfter(open, events[..k + n]) == OpenAfter(open', events[k..k + n])
            && db + Rows(open, events[..k + n]) == db + Rows(open, events[..k]) + more
            && settled + Settled(Rows(open, events[..k + n]))
               == settled + Settled(Rows(open, events[..k])) + Settled(more)
            && Rebuild(price, Rows(open, events[..k + n]))
               == Rebuild(price, Rows(open, events[..k])) + Rebuild(price, more)
  {
    var open' := OpenAfter(open, events[..k]);
    var more := Rows(open', events[k..k + n]);
    assert events[..k + n] == events[..k] + events[k..k + n];
    MoreRows(price, open, events[..k], events[k..k + n]);
    Regroup(db, Rows(open, events[..k]), more);
    Regroup(settled, Settled(Rows(open, events[..k])), Settled(more));
  }

  /** What the rest of the program sees of the recorder.  `shared` is the store it
      was given a handle to, the placeholder at first. */
  class Wiring {
    const shared: Store
    const account: Account
    var pending: nat
    var isOpen: bool

    predicate Valid()
      reads this, shared
    {
      shared.hook == account
    }

    constructor (price: Row -> int, usage: int)
      ensures Valid() && shared.open == map[] && shared.db == [] && pending == 0 && !isOpen
      ensures account.price == price && account.settled == [] && account.usage == usage
    {
      var a := new Account(price, usage);
      account := a;
      shared := new Store([], a);
      pending, isOpen := 0, false;
    }

    function View(): Seen
      reads this, shared, account
    {
      Seen(shared.db, account.settled, account.usage)
    }

    /** One turn: the placeholder settles the events, then they are queued. */
    method TakeTurn(events: seq<Event>, queue: Queue)
      requires Valid() && queue.Valid()
      modifies this`pending, shared, account, queue
      ensures Valid() && queue.Valid() && queue.pushed == old(queue.pushed) + events
      ensures shared.open == OpenAfter(old(shared.open), events)
      ensures shared.db == old(shared.db) + Rows(old(shared.open), events)
      ensures account.settled == old(account.settled) + Settled(Rows(old(shared.open), events))
      ensures account.usage == old(account.usage) + Rebuild(account.price, Rows(old(shared.open), events))
      ensures pending == |queue.items|
    {
      shared.OnEvents(events);
      var j := 0;
      while j < |events|
        invariant j <= |events| && queue.Valid() && queue.pushed == old(queue.pushed) + events[..j]
        modifies queue
      {
        assert events[..j + 1] == events[..j] + [events[j]];
        queue.Push(events[j]);
        j := j + 1;
      }
      assert events[..j] == events;
      pending := |queue.items|;
    }

    /** Hands events to the placeholder and queues them until the wait is over. */
    method WaitForExit(polls: seq<Poll>, queue: Queue) returns (lost: nat)
      requires Valid() && queue.Valid() && queue.pushed == []
      requires shared.open == map[] && shared.db == [] && account.settled == []
      modifies this`pending, shared, account, queue
      ensures Valid() && queue.items == Newest(Waited(polls), queue.maxEvents, queue.maxBytes)
      ensures queue.dropped + |queue.items| == |Waited(polls)| && lost == Lost(polls)
      ensures shared.open == OpenAfter(map[], Waited(polls)) && shared.db == Rows(map[], Waited(polls))
      ensures account.settled == Settled(Rows(map[], Waited(polls)))
      ensures account.usage == old(account.usage) + Rebuild(account.price, Rows(map[], Waited(polls)))
    {
      var k, over := 0, false;
      lost := 0;
      ghost var rest, owed := Waited(polls), Lost(polls);
      assert polls[0..] == polls;
      while k < |polls| && !over
        invariant k <= |polls| && Valid() && queue.Valid()
        invariant shared.open == OpenAfter(map[], queue.pushed) && shared.db == Rows(map[], queue.pushed)
        invariant account.settled == Settled(Rows(map[], queue.pushed))
        invariant account.usage == old(account.usage) + Rebuild(account.price, Rows(map[], queue.pushed))
        invariant queue.pushed + rest == Waited(polls) && lost + owed == Lost(polls)
        invariant rest == (if over then [] else Waited(polls[k..])) && owed == if over then 0 else Lost(polls[k..])
      {
        var p := polls[k];
        WaitedFrom(polls, k, queue.pushed);
        MoreRows(account.price, map[], queue.pushed, p.events);
        rest, owed := Then(polls, k), if p.over then 0 else Lost(polls[k + 1..]);
        TakeTurn(p.events, queue);
        lost, over, k := lost + p.dropped, p.over, k + 1;
      }
      assert queue.pushed + [] == queue.pushed;
    }

    /** The ordinary loop: takes what is there in batches under one lock. */
    method RecordLoop(events: seq<Event>)
      requires Valid()
      modifies shared, account
      ensures Valid() && shared.open == OpenAfter(old(shared.open), events)
      ensures shared.db == old(shared.db) + Rows(old(shared.open), events)
      ensures account.settled == old(account.settled) + Settled(Rows(old(shared.open), events))
      ensures account.usage == old(account.usage) + Rebuild(account.price, Rows(old(shared.open), events))
    {
      var k := 0;
      ghost var was := shared.open;
      while k < |events|
        invariant k <= |events| && Valid() && shared.open == OpenAfter(was, events[..k])
        invariant shared.db == old(shared.db) + Rows(was, events[..k])
        invariant account.settled == old(account.settled) + Settled(Rows(was, events[..k]))
        invariant account.usage == old(account.usage) + Rebuild(account.price, Rows(was, events[..k]))
      {
        var n := if |events| - k < BATCH then |events| - k else BATCH;
        var batch := events[k..k + n];
        BatchOf(account.price, was, events, k, n, old(shared.db), old(account.settled));
        shared.OnEvents(batch);
        k := k + n;
      }
      assert events[..k] == events;
    }

    /** `open_later`: waits, opens the store the older cores wrote (`disk`, or
        nothing when it cannot be opened), writes what was queued without
        settling it again, rebuilds the usage, swaps the store in and goes on. */
    method OpenLater(
        polls: seq<Poll>, disk: seq<Row>, opens: bool, later: seq<Event>, maxEvents: nat, maxBytes: nat)
      returns (dropped: nat)
      requires Valid() && shared.open == map[] && shared.db == [] && account.settled == []
      modifies this, shared, account
      ensures opens ==>
        var waited := Waited(polls);
        View() == Deferred(account.price, disk, waited, Newest(waited, maxEvents, maxBytes), later)
      ensures !opens ==>
        shared.db == Rows(map[], Waited(polls) + later)
        && account.settled == Settled(Rows(map[], Waited(polls) + later))
        && account.usage == old(account.usage) + Rebuild(account.price, Rows(map[], Waited(polls) + later))
      ensures |Waited(polls)| + Lost(polls) == |Newest(Waited(polls), maxEvents, maxBytes)| + dropped
      ensures isOpen && pending == 0
    {
      var queue := new Queue(maxEvents, maxBytes);
      var lost := WaitForExit(polls, queue);
      dropped := queue.dropped + lost;
      ghost var kept := queue.items;
      MoreRows(account.price, map[], Waited(polls), later);
      if opens {
        SwapIn(queue, disk);
        RowsConcat(map[], kept, later);
        RebuildConcat(account.price, shared.db, Rows(OpenAfter(map[], kept), later));
        Regroup(disk, Rows(map[], kept), Rows(OpenAfter(map[], kept), later));
      }
      pending, isOpen := 0, true;
      RecordLoop(later);
    }

    /** Opens the store, writes what was queued, rebuilds the usage, and puts the
        new recorder in the place of the placeholder. */
    method SwapIn(queue: Queue, disk: seq<Row>)
      requires Valid()
      modifies shared, account`usage, queue
      ensures Valid() && shared.open == OpenAfter(map[], old(queue.items))
      ensures shared.db == disk + Rows(map[], old(queue.items))
      ensures account.usage == Rebuild(account.price, shared.db)
    {
      var queued := queue.Drain();
      var store := new Store(disk, null);
      store.OnEvents(queued);
      account.usage := Rebuild(account.price, store.db);
      shared.open, shared.db, shared.hook := store.open, store.db, account;
    }

    /** `open_now`: the history is open before the first event. */
    method OpenNow(disk: seq<Row>, events: seq<Event>)
      requires Valid() && account.settled == []
      modifies this, shared, account
      ensures View() == Immediate(account.price, disk, events)
    {
      RebuildConcat(account.price, disk, Rows(map[], events));
      shared.open, shared.db := map[], disk;
      account.usage, isOpen := Rebuild(account.price, disk), true;
      RecordLoop(events);
    }
  }

  // ------------------------------------------------------------- now or later

  /** Of the request's starts and endings in `s` the first is an ending. */
  predicate EndsNext(s: seq<Event>, id: nat) {
    s != [] && (if s[0].id == id && (s[0].kind.Start? || s[0].kind.End?) then s[0].kind.End? else EndsNext(s[1..], id))
  }

  /** Dropping `gone` in front of `rest` loses a local answer, or the start of a
      request that ends. */
  ghost predicate Misses(gone: seq<Event>, rest: seq<Event>) {
    exists k :: 0 <= k < |gone| && MissesAt(gone, rest, k)
  }

  predicate MissesAt(gone: seq<Event>, rest: seq<Event>, k: nat)
    requires k < |gone|
  {
    gone[k].kind.LocalAnswer? || (gone[k].kind.Start? && EndsNext(gone[k + 1..] + rest, gone[k].id))
  }

  /** `b` knows all that `a` knows. */
  predicate Extends(a: Open, b: Open) {
    forall id :: id in a ==> id in b && a[id] == b[id]
  }

  /** A request known to `b` alone ends before it starts again. */
  ghost predicate Tells(a: Open, b: Open, s: seq<Event>) {
    exists id :: id in b && id !in a && EndsNext(s, id)
  }

  /** Knowing more open requests writes more rows exactly if one of them ends. */
  lemma {:induction false} KnowingMore(a: Open, b: Open, s: seq<Event>)
    requires Extends(a, b)
    ensures |Rows(a, s)| <= |Rows(b, s)|
    ensures Tells(a, b, s) ==> |Rows(a, s)| < |Rows(b, s)|
    ensures !Tells(a, b, s) ==> Rows(a, s) == Rows(b, s)
    decreases |s|
  {
    if s != [] {
      var e := s[0];
      var a', b' := After(a, e), After(b, e);
      KnowingMore(a', b', s[1..]);
      if Tells(a', b', s[1..]) {
        var id :| id in b' && id !in a' && EndsNext(s[1..], id);
        assert EndsNext(s, id);
        assert Tells(a, b, s);
      }
      if Tells(a, b, s) && !(e.kind.End? && e.id in b && e.id !in a) {
        var id :| id in b && id !in a && EndsNext(s, id);
        assert id in b' && id !in a' && EndsNext(s[1..], id);
      }
    }
  }

  lemma MissesLater(gone: seq<Event>, rest: seq<Event>)
    requires gone != []
    ensures Misses(gone, rest) <==> MissesAt(gone, rest, 0) || Misses(gone[1..], rest)
  {
    forall k | 0 < k < |gone| ensures MissesAt(gone, rest, k) == MissesAt(gone[1..], rest, k - 1) {
      assert gone[1..][k - 1] == gone[k] && gone[1..][k..] == gone[k + 1..];
    }
    if Misses(gone[1..], rest) {
      var k :| 0 <= k < |gone[1..]| && MissesAt(gone[1..], rest, k);
      assert MissesAt(gone, rest, k + 1);
    }
  }

  /** Dropping events loses rows exactly if it misses something. */
  lemma {:induction false} Dropping(gone: seq<Event>, rest: seq<Event>)
    ensures |Rows(map[], rest)| <= |Rows(map[], gone + rest)|
    ensures Misses(gone, rest) ==> |Rows(map[], rest)| < |Rows(map[], gone + rest)|
    ensures !Misses(gone, rest) ==> Rows(map[], rest) == Rows(map[], gone + rest)
    decreases |gone|
  {
    if gone == [] {
      assert gone + rest == rest;
    } else {
      var e, t := gone[0], gone[1..] + rest;
      assert (gone + rest)[1..] == t;
      MissesLater(gone, rest);
      Dropping(gone[1..], rest);
      var open := After(map[], e);
      if e.kind.Start? {
        KnowingMore(map[], open, t);
        assert Tells(map[], open, t) <==> EndsNext(t, e.id) by {
          assert e.id in open;
        }
      } else {
        assert open == map[];
      }
      assert Rows(map[], gone + rest) == Completes(map[], e) + Rows(open, t);
    }
  }

  lemma {:induction false} StaysExtended(a: Open, b: Open, s: seq<Event>)
    requires Extends(a, b)
    ensures Extends(OpenAfter(a, s), OpenAfter(b, s))
    decreases |s|
  {
    if s != [] {
      StaysExtended(After(a, s[0]), After(b, s[0]), s[1..]);
    }
  }

  lemma SettlesAlike(price: Row -> int, gone: seq<Event>, kept: seq<Event>, later: seq<Event>)
    requires !Misses(gone, kept + later)
    ensures Settled(Rows(map[], gone + kept)) + Settled(Rows(OpenAfter(map[], kept), later))
         == Settled(Rows(map[], gone + (kept + later)))
  {
    var a, b := OpenAfter(map[], kept), OpenAfter(map[], gone + kept);
    RowsConcat(map[], gone, kept);
    StaysExtended(map[], OpenAfter(map[], gone), kept);
    Regroup(gone, kept, later);
    Dropping(gone, kept + later);
    Dropping(gone, kept);
    MoreRows(price, map[], kept, later);
    MoreRows(price, map[], gone + kept, later);
    KnowingMore(a, b, later);
  }

  /** Opening later is opening at once, the same rows over what the older cores
      wrote, the same settlements in the same order and the same usage, exactly
      when the queue dropped no local answer and no start of a request that ends. */
  lemma DeferredIsImmediate(
      price: Row -> int, disk: seq<Row>, waited: seq<Event>, later: seq<Event>, maxEvents: nat, maxBytes: nat)
    ensures var kept := Newest(waited, maxEvents, maxBytes);
            && |kept| <= |waited|
            && (Deferred(price, disk, waited, kept, later) == Immediate(price, disk, waited + later)
                <==> !Misses(waited[..|waited| - |kept|], kept + later))
  {
    NewestFits(waited, maxEvents, maxBytes);
    var kept := Newest(waited, maxEvents, maxBytes);
    var gone := waited[..|waited| - |kept|];
    assert waited == gone + kept;
    Regroup(gone, kept, later);
    Dropping(gone, kept + later);
    if !Misses(gone, kept + later) {
      SettlesAlike(price, gone, kept, later);
    } else {
      assert |disk + Rows(map[], kept + later)| < |disk + Rows(map[], waited + later)|;
    }
  }

  // ------------------------------------------------------------- one request

  /** The rows of the endings of a request. */
  function RowsOf(rows: seq<Row>, id: nat): seq<Row> {
    if rows == [] then []
    else (if rows[0].Ended? && rows[0].id == id then [rows[0]] else []) + RowsOf(rows[1..], id)
  }

  lemma {:induction false} RowsOfConcat(a: seq<Row>, b: seq<Row>, id: nat)
    ensures RowsOf(a + b, id) == RowsOf(a, id) + RowsOf(b, id)
    decreases |a|
  {
    if a == [] {
      assert a + b == b;
    } else {
      assert (a + b)[1..] == a[1..] + b;
      RowsOfConcat(a[1..], b, id);
      Regroup(if a[0].Ended? && a[0].id == id then [a[0]] else [], RowsOf(a[1..], id), RowsOf(b, id));
    }
  }

  lemma {:induction false} RowsOfSettled(a: seq<Row>, id: nat)
    ensures RowsOf(Settled(a), id) == RowsOf(a, id)
    decreases |a|
  {
    if a != [] {
      RowsOfSettled(a[1..], id);
      if a[0].Ended? {
        assert Settled(a)[1..] == Settled(a[1..]);
      } else {
        assert Settled(a) == Settled(a[1..]);
      }
    }
  }

  lemma RowsOfMore(open: Open, s: seq<Event>, id: nat)
    requires s != []
    ensures RowsOf(Rows(open, s), id) ==
      RowsOf(Completes(open, s[0]), id) + RowsOf(Rows(After(open, s[0]), s[1..]), id)
  {
    RowsOfConcat(Completes(open, s[0]), Rows(After(open, s[0]), s[1..]), id);
  }

  predicate Marks(e: Event, id: nat) {
    e.id == id && (e.kind.Start? || e.kind.End?)
  }

  /** The request starts at `i` and ends at `j`, and neither happens again. */
  ghost predicate Lifespan(s: seq<Event>, id: nat, i: nat, j: nat) {
    && i < j < |s| && s[i].id == id && s[i].kind.Start? && s[j].id == id && s[j].kind.End?
    && forall k :: 0 <= k < |s| && Marks(s[k], id) ==> k == i || k == j
  }

  /** What is reported of a request, in order. */
  function Reports(s: seq<Event>, id: nat): seq<nat> {
    if s == [] then []
    else (if s[0].id == id && s[0].kind.Note? then [s[0].kind.what] else []) + Reports(s[1..], id)
  }

  /** The row of a request that starts at `i` and ends at `j`: what the start said,
      every report between the two in order, and what the ending said. */
  function RowOf(s: seq<Event>, id: nat, i: nat, j: nat): Row
    requires i < j < |s| && s[i].kind.Start? && s[j].kind.End?
  {
    Ended(id, [s[i].kind.what] + Reports(s[i + 1..j], id), s[j].kind.how)
  }

  lemma {:induction false} NoEnding(open: Open, s: seq<Event>, id: nat)
    requires forall k :: 0 <= k < |s| && Marks(s[k], id) ==> !s[k].kind.End?
    ensures RowsOf(Rows(open, s), id) == []
    decreases |s|
  {
    if s != [] {
      assert !(s[0].kind.End? && s[0].id == id);
      NoEnding(After(open, s[0]), s[1..], id);
      RowsOfMore(open, s, id);
    }
  }

  lemma {:induction false} NoStart(open: Open, s: seq<Event>, id: nat)
    requires id !in open && forall k :: 0 <= k < |s| && Marks(s[k], id) ==> !s[k].kind.Start?
    ensures RowsOf(Rows(open, s), id) == []
    decreases |s|
  {
    if s != [] {
      assert !(s[0].kind.Start? && s[0].id == id);
      NoStart(After(open, s[0]), s[1..], id);
      RowsOfMore(open, s, id);
    }
  }

  lemma {:induction false} EndsOnce(open: Open, s: seq<Event>, id: nat, j: nat)
    requires id in open && j < |s| && s[j].id == id && s[j].kind.End?
    requires forall k :: 0 <= k < |s| && Marks(s[k], id) ==> k == j
    ensures RowsOf(Rows(open, s), id) == [Ended(id, open[id] + Reports(s[..j], id), s[j].kind.how)]
    decreases |s|
  {
    var e, open' := s[0], After(open, s[0]);
    RowsOfMore(open, s, id);
    if j == 0 {
      NoEnding(open', s[1..], id);
      assert RowsOf(Completes(open, e)[1..], id) == [];
      assert open[id] + [] == open[id];
    } else {
      assert !Marks(e, id);
      EndsOnce(open', s[1..], id, j - 1);
      assert s[..j][1..] == s[1..][..j - 1];
      Regroup(open[id], if e.id == id && e.kind.Note? then [e.kind.what] else [], Reports(s[1..][..j - 1], id));
      ReportKept(open, e, id);
    }
  }

  /** A report on a request that runs is kept, behind the earlier ones. */
  lemma ReportKept(open: Open, e: Event, id: nat)
    requires id in open && !Marks(e, id)
    ensures id in After(open, e)
    ensures After(open, e)[id] == open[id] + (if e.id == id && e.kind.Note? then [e.kind.what] else [])
    ensures RowsOf(Completes(open, e), id) == []
  {
  }

  lemma LifeLater(s: seq<Event>, id: nat, i: nat, j: nat)
    requires Lifespan(s, id, i, j) && i > 0
    ensures Lifespan(s[1..], id, i - 1, j - 1) && RowOf(s[1..], id, i - 1, j - 1) == RowOf(s, id, i, j)
    ensures !Marks(s[0], id)
  {
    assert forall k :: 0 <= k < |s| - 1 ==> s[1..][k] == s[k + 1];
    assert s[1..][i..j - 1] == s[i + 1..j];
  }

  lemma {:induction false} LivesOnce(open: Open, s: seq<Event>, id: nat, i: nat, j: nat)
    requires id !in open && Lifespan(s, id, i, j)
    ensures RowsOf(Rows(open, s), id) == [RowOf(s, id, i, j)]
    decreases |s|
  {
    var open' := After(open, s[0]);
    RowsOfMore(open, s, id);
    if i == 0 {
      EndsOnce(open', s[1..], id, j - 1);
      assert s[1..][..j - 1] == s[i + 1..j];
    } else {
      LifeLater(s, id, i, j);
      LivesOnce(open', s[1..], id, i - 1, j - 1);
      assert RowsOf(Completes(open, s[0]), id) == [];
    }
  }

  ghost predicate NoEndOf(s: seq<Event>, id: nat) {
    forall k :: 0 <= k < |s| && Marks(s[k], id) ==> !s[k].kind.End?
  }

  ghost predicate NoStartOf(s: seq<Event>, id: nat) {
    forall k :: 0 <= k < |s| && Marks(s[k], id) ==> !s[k].kind.Start?
  }

  /** What the first of two stretches has of a life. */
  lemma LifeInFront(a: seq<Event>, b: seq<Event>, id: nat, i: nat, j: nat)
    requires Lifespan(a + b, id, i, j)
    ensures j < |a| ==> Lifespan(a, id, i, j) && RowOf(a, id, i, j) == RowOf(a + b, id, i, j)
    ensures j >= |a| ==> NoEndOf(a, id)
  {
    var s := a + b;
    assert forall k :: 0 <= k < |a| ==> s[k] == a[k];
    if j < |a| {
      assert s[i + 1..j] == a[i + 1..j];
    }
  }

  /** ...and the second. */
  lemma LifeBehind(a: seq<Event>, b: seq<Event>, id: nat, i: nat, j: nat)
    requires Lifespan(a + b, id, i, j)
    ensures i >= |a| ==>
      Lifespan(b, id, i - |a|, j - |a|) && RowOf(b, id, i - |a|, j - |a|) == RowOf(a + b, id, i, j)
    ensures i < |a| ==> NoStartOf(b, id)
    ensures j < |a| ==> NoEndOf(b, id)
  {
    var s, n := a + b, |a|;
    forall k | 0 <= k < |b| && Marks(b[k], id) ensures k + n == i || k + n == j {
      assert s[k + n] == b[k];
    }
    if i >= n {
      assert s[i + 1..j] == b[i - n + 1..j - n];
      assert b[i - n] == s[i] && b[j - n] == s[j];
    } else if j >= n {
      assert b[j - n] == s[j];
    }
  }

  /** What a request leaves of its life when the first events are dropped. */
  lemma LivesBeyond(gone: seq<Event>, rest: seq<Event>, id: nat, i: nat, j: nat)
    requires Lifespan(gone + rest, id, i, j)
    ensures RowsOf(Rows(map[], rest), id) == if i >= |gone| then [RowOf(gone + rest, id, i, j)] else []
  {
    LifeBehind(gone, rest, id, i, j);
    if i >= |gone| {
      LivesOnce(map[], rest, id, i - |gone|, j - |gone|);
    } else {
      NoStart(map[], rest, id);
    }
  }

  lemma SettledInTheWait(waited: seq<Event>, later: seq<Event>, id: nat, i: nat, j: nat)
    requires Lifespan(waited + later, id, i, j)
    ensures RowsOf(Rows(map[], waited), id) == if j < |waited| then [RowOf(waited + later, id, i, j)] else []
  {
    LifeInFront(waited, later, id, i, j);
    if j < |waited| {
      LivesOnce(map[], waited, id, i, j);
    } else {
      NoEnding(map[], waited, id);
    }
  }

  /** What a store knows of it that took in a stretch `a` without its end. */
  lemma SettledBehind(a: seq<Event>, b: seq<Event>, id: nat)
    requires NoEndOf(a, id)
    ensures RowsOf(Rows(OpenAfter(map[], a), b), id) == RowsOf(Rows(map[], a + b), id)
  {
    RowsConcat(map[], a, b);
    RowsOfConcat(Rows(map[], a), Rows(OpenAfter(map[], a), b), id);
    NoEnding(map[], a, id);
  }

  lemma SettledAfterIt(gone: seq<Event>, kept: seq<Event>, later: seq<Event>, id: nat, i: nat, j: nat)
    requires Lifespan(gone + kept + later, id, i, j)
    ensures RowsOf(Rows(OpenAfter(map[], kept), later), id) ==
      if j >= |gone| + |kept| && i >= |gone| then [RowOf(gone + kept + later, id, i, j)] else []
  {
    if j < |gone| + |kept| {
      LifeBehind(gone + kept, later, id, i, j);
      NoEnding(OpenAfter(map[], kept), later, id);
    } else {
      LifeInFront(gone + kept, later, id, i, j);
      assert NoEndOf(kept, id) by {
        assert forall k :: 0 <= k < |kept| ==> (gone + kept)[|gone| + k] == kept[k];
      }
      SettledBehind(kept, later, id);
      Regroup(gone, kept, later);
      LivesBeyond(gone, kept + later, id, i, j);
    }
  }

  /** What a store that is open from the first event writes and settles of a
      request that starts and ends, whatever else happens: this one row. */
  lemma RowSaysAll(price: Row -> int, disk: seq<Row>, s: seq<Event>, id: nat, i: nat, j: nat)
    requires Lifespan(s, id, i, j)
    ensures var seen := Immediate(price, disk, s);
            && RowsOf(seen.db[|disk|..], id) == [RowOf(s, id, i, j)]
            && RowsOf(seen.settled, id) == [RowOf(s, id, i, j)]
  {
    LivesOnce(map[], s, id, i, j);
    RowsOfSettled(Rows(map[], s), id);
    assert (disk + Rows(map[], s))[|disk|..] == Rows(map[], s);
  }

  /** A request that starts and ends, whatever else happens, is settled once, with
      all that was reported of it, if its end came in the wait or its start was not
      dropped, and never otherwise; that row is written once exactly if its start
      was not dropped. */
  lemma SettledExactlyWhen(
      price: Row -> int, disk: seq<Row>, waited: seq<Event>, later: seq<Event>, maxEvents: nat, maxBytes: nat,
      id: nat, i: nat, j: nat)
    requires Lifespan(waited + later, id, i, j)
    ensures var kept := Newest(waited, maxEvents, maxBytes);
            var seen, row := Deferred(price, disk, waited, kept, later), RowOf(waited + later, id, i, j);
            && RowsOf(seen.settled, id) == (if j < |waited| || i + |kept| >= |waited| then [row] else [])
            && RowsOf(seen.db[|disk|..], id) == if i + |kept| >= |waited| then [row] else []
  {
    NewestFits(waited, maxEvents, maxBytes);
    var kept := Newest(waited, maxEvents, maxBytes);
    var gone := waited[..|waited| - |kept|];
    assert waited == gone + kept;
    SettledInTheWait(waited, later, id, i, j);
    SettledAfterIt(gone, kept, later, id, i, j);
    Regroup(gone, kept, later);
    LivesBeyond(gone, kept + later, id, i, j);
    SettledTwice(Rows(map[], waited), Rows(OpenAfter(map[], kept), later), id);
    assert (disk + Rows(map[], kept + later))[|disk|..] == Rows(map[], kept + later);
  }

  lemma SettledTwice(first: seq<Row>, more: seq<Row>, id: nat)
    ensures RowsOf(Settled(first) + Settled(more), id) == RowsOf(first, id) + RowsOf(more, id)
  {
    RowsOfConcat(Settled(first), Settled(more), id);
    RowsOfSettled(first, id);
    RowsOfSettled(more, id);
  }

  /** A queue for one event: the start of request 1 gives way to that of request 2.
      When 1 ends after the swap nobody settles it, and it has no row. */
  lemma OverflowLosesSettlement(price: Row -> int, disk: seq<Row>)
    ensures var waited, later := [Event(1, Start(0), 1), Event(2, Start(0), 1)], [Event(1, End(0), 1)];
            var seen := Deferred(price, disk, waited, Newest(waited, 1, 1), later);
            && Lifespan(waited + later, 1, 0, 2)
            && RowsOf(seen.settled, 1) == [] && RowsOf(seen.db[|disk|..], 1) == []
            && |RowsOf(Immediate(price, disk, waited + later).settled, 1)| == 1
  {
    var waited, later := [Event(1, Start(0), 1), Event(2, Start(0), 1)], [Event(1, End(0), 1)];
    assert waited[1..] == [waited[1]];
    NewestIs(waited, 1, 1, 1);
    assert Lifespan(waited + later, 1, 0, 2);
    SettledExactlyWhen(price, disk, waited, later, 1, 1, 1, 0, 2);
    RowSaysAll(price, disk, waited + later, 1, 0, 2);
  }

  /** The ids of the local answers among rows, and among events. */
  function AnsweredIn(rows: seq<Row>): seq<nat> {
    if rows == [] then [] else (if rows[0].Answered? then [rows[0].id] else []) + AnsweredIn(rows[1..])
  }

  function LocalIn(s: seq<Event>): seq<nat> {
    if s == [] then [] else (if s[0].kind.LocalAnswer? then [s[0].id] else []) + LocalIn(s[1..])
  }

  /** Every local answer has its row, in order. */
  lemma {:induction false} LocalAnswersWritten(open: Open, s: seq<Event>)
    ensures AnsweredIn(Rows(open, s)) == LocalIn(s)
    decreases |s|
  {
    if s != [] {
      var first, more := Completes(open, s[0]), Rows(After(open, s[0]), s[1..]);
      LocalAnswersWritten(After(open, s[0]), s[1..]);
      if first != [] {
        assert (first + more)[1..] == more;
      } else {
        assert first + more == more;
      }
    }
  }

  // ------------------------------------------------------------- usage and turns

  /** A row adds its price, wherever it stands; a local answer adds nothing. */
  lemma RowsAddUp(price: Row -> int, before: seq<Row>, row: Row, after: seq<Row>)
    ensures Rebuild(price, []) == 0
    ensures Rebuild(price, before + [row] + after) ==
      Rebuild(price, before) + (if row.Ended? then price(row) else 0) + Rebuild(price, after)
  {
    RebuildConcat(price, before + [row], after);
    RebuildConcat(price, before, [row]);
    assert Rebuild(price, [row][1..]) == 0;
  }

  /** A wait takes in every turn up to the one that ends it, and none after it. */
  lemma {:induction false} WaitEndsAt(polls: seq<Poll>, k: nat, before: seq<Poll>)
    requires k < |polls| && polls[k].over && before == polls[..k] && forall p :: p in before ==> !p.over
    ensures Waited(polls) == Waited(before) + polls[k].events && Lost(polls) == Lost(before) + polls[k].dropped
    decreases k
  {
    if k > 0 {
      assert polls[1..][..k - 1] == before[1..] && before[0] == polls[0];
      WaitEndsAt(polls[1..], k - 1, before[1..]);
      Regroup(polls[0].events, Waited(before[1..]), polls[k].events);
    }
  }
}
