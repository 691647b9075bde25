/** The admission queue. Each event has one queue: the ids of the
    subscriptions that asked to pay, in arrival order, none twice. Only the
    first `capacity` entries may pay; the periodic sweep drops entries that
    left, expires overdue ones, promotes waiting ones into free slots and
    rewrites every entry's stored position. Locks and the transaction
    around the sweep are modelled by running each operation as one
    sequential step and by restoring the database when the sweep fails. */
module Queue {
  import opened Common
  import opened Models
  import opened Notify

  // ---------------------------------------------------------------- the list operations

  /** `_ghost_add`: the index `_add` would return, without adding: the first
      index holding `sid`, or the length when it is absent. */
  function GhostAdd(q: seq<int>, sid: int): (r: nat)
    ensures r <= |q|
    ensures r < |q| ==> q[r] == sid
    ensures forall j :: 0 <= j < r ==> q[j] != sid
  {
    if q == [] then 0
    else if q[0] == sid then 0
    else 1 + GhostAdd(q[1..], sid)
  }

  /** The list after `_add`: unchanged when `sid` is present, else `sid` appended. */
  function Appended(q: seq<int>, sid: int): seq<int>
  {
    if sid in q then q else q + [sid]
  }

  /** The list after `_remove`: the first occurrence of `sid` taken out. */
  function RemoveFirst(q: seq<int>, sid: int): seq<int>
  {
    if sid in q then q[..GhostAdd(q, sid)] + q[GhostAdd(q, sid) + 1..] else q
  }

  /** Every occurrence of `sid` taken out, the rest kept in order. */
  function Drop(q: seq<int>, sid: int): (r: seq<int>)
    ensures sid !in r && forall x :: x in r ==> x in q
  {
    if q == [] then [] else (if q[0] == sid then [] else [q[0]]) + Drop(q[1..], sid)
  }

  lemma {:induction false} DropAbsent(q: seq<int>, sid: int)
    requires sid !in q
    ensures Drop(q, sid) == q
  {
    if q != [] {
      DropAbsent(q[1..], sid);
    }
  }

  /** On a list without repeats, removing the first occurrence removes the
      only one: the result is the list with `sid` filtered out, everything
      else in its old order. */
  lemma {:induction false} RemoveFirstIsDrop(q: seq<int>, sid: int)
    requires NoDup(q)
    ensures RemoveFirst(q, sid) == Drop(q, sid)
  {
    if sid !in q {
      DropAbsent(q, sid);
    } else if q[0] == sid {
      assert GhostAdd(q, sid) == 0;
      assert sid !in q[1..];
      DropAbsent(q[1..], sid);
    } else {
      var t := q[1..];
      assert NoDup(t);
      assert sid in t;
      RemoveFirstIsDrop(t, sid);
      var k := GhostAdd(t, sid);
      assert GhostAdd(q, sid) == k + 1;
      calc {
        RemoveFirst(q, sid);
        q[..k + 1] + q[k + 2..];
        { assert q[..k + 1] == [q[0]] + t[..k]; assert q[k + 2..] == t[k + 1..]; }
        [q[0]] + (t[..k] + t[k + 1..]);
        [q[0]] + RemoveFirst(t, sid);
        [q[0]] + Drop(t, sid);
      }
    }
  }

  /** Neither operation introduces a repeat. */
  lemma ListOpsKeepNoDup(q: seq<int>, sid: int)
    requires NoDup(q)
    ensures NoDup(Appended(q, sid)) && NoDup(RemoveFirst(q, sid))
  {
    if sid in q {
      var k := GhostAdd(q, sid);
      var r := q[..k] + q[k + 1..];
      forall i, j | 0 <= i < j < |r|
        ensures r[i] != r[j]
      {
        var i' := if i < k then i else i + 1;
        var j' := if j < k then j else j + 1;
        assert r[i] == q[i'] && r[j] == q[j'];
      }
    }
  }

  /** Adding twice is adding once, and both report the same index. */
  lemma AddIsIdempotent(q: seq<int>, sid: int)
    ensures Appended(Appended(q, sid), sid) == Appended(q, sid)
    ensures GhostAdd(Appended(q, sid), sid) == GhostAdd(q, sid)
  {
    if sid !in q {
      var a := q + [sid];
      assert a[|q|] == sid;
      assert forall j :: 0 <= j < |q| ==> a[j] != sid;
    }
  }

  /** An entry not among the ones before it is found at their count, and
      removing it joins what was before it to what was after it. */
  lemma {:induction false} EntryAt(kept: seq<int>, sid: int, rest: seq<int>)
    requires sid !in kept
    ensures GhostAdd(kept + [sid] + rest, sid) == |kept|
    ensures RemoveFirst(kept + [sid] + rest, sid) == kept + rest
  {
    var q := kept + [sid] + rest;
    assert q[|kept|] == sid;
    assert forall j :: 0 <= j < |kept| ==> q[j] == kept[j];
    var k := GhostAdd(q, sid);
    assert q[..k] == kept;
    assert q[k + 1..] == rest;
  }

  /** Taking one entry out of a list without repeats leaves one without
      repeats, and the entry occurs on neither side of it. */
  lemma NoDupSplit(kept: seq<int>, sid: int, rest: seq<int>)
    requires NoDup(kept + [sid] + rest)
    ensures sid !in kept && sid !in rest && NoDup(kept + rest)
  {
    var q := kept + [sid] + rest;
    assert q[|kept|] == sid;
    forall k | 0 <= k < |kept|
      ensures kept[k] != sid
    {
      assert q[k] == kept[k];
    }
    forall k | 0 <= k < |rest|
      ensures rest[k] != sid
    {
      assert q[|kept| + 1 + k] == rest[k];
    }
    var r := kept + rest;
    forall i, j | 0 <= i < j < |r|
      ensures r[i] != r[j]
    {
      var i' := if i < |kept| then i else i + 1;
      var j' := if j < |kept| then j else j + 1;
      assert r[i] == q[i'] && r[j] == q[j'];
    }
  }

  /** A Python list of subscription ids, changed in place. */
  class IdList {
    var items: seq<int>

    constructor (init: seq<int>)
      ensures items == init
    {
      items := init;
    }

    /** `_add`: the index of `sid`, appending it first when absent. */
    method Add(sid: int) returns (i: int)
      modifies this
      ensures i == GhostAdd(old(items), sid)
      ensures items == Appended(old(items), sid)
      ensures 0 <= i < |items| && items[i] == sid
    {
      var k := 0;
      while k < |items| && items[k] != sid
        invariant 0 <= k <= |items|
        invariant forall j :: 0 <= j < k ==> items[j] != sid
      {
        k := k + 1;
      }
      if k == |items| {
        items := items + [sid];
      }
      i := k;
    }

    /** `_remove`: the first occurrence of `sid` taken out; nothing when absent. */
    method Remove(sid: int)
      modifies this
      ensures items == RemoveFirst(old(items), sid)
    {
      var k := 0;
      while k < |items| && items[k] != sid
        invariant 0 <= k <= |items|
        invariant forall j :: 0 <= j < k ==> items[j] != sid
      {
        k := k + 1;
      }
      if k < |items| {
        items := items[..k] + items[k + 1..];
      }
    }
  }

  // ---------------------------------------------------------------- one subscription's agent

  /** The event's stored queue; an event without a container has an empty one. */
  function QueueOf(db: Db, eid: int): seq<int>
  {
    if eid in db.queues then db.queues[eid] else []
  }

  /** The database once `get_or_create` has made sure the container exists. */
  function WithContainer(db: Db, eid: int): (r: Db)
    ensures r == db.(queues := r.queues) && eid in r.queues && r.queues[eid] == QueueOf(db, eid)
    ensures forall k :: k in db.queues ==> k in r.queues && r.queues[k] == db.queues[k]
    ensures r.queues.Keys == db.queues.Keys + {eid}
  {
    if eid in db.queues then db else db.(queues := db.queues[eid := []])
  }

  /** Setting the queue of `eid` after making sure it exists is setting it. */
  lemma ContainerThenSet(db: Db, eid: int, q: seq<int>)
    ensures WithContainer(db, eid).(queues := WithContainer(db, eid).queues[eid := q]) == db.(queues := db.queues[eid := q])
  {
    assert WithContainer(db, eid).queues[eid := q] == db.queues[eid := q];
  }

  /** Acts on the event queue for one subscription, caching its position. */
  class QueueAgent {
    const sid: int
    const eid: int
    const capacity: int
    var pos: Option<int>

    constructor (s: Subscription, e: Event)
      requires s.id.Some? && s.event == e.id
      ensures sid == s.id.value && eid == e.id && capacity == e.capacity && pos.None?
    {
      sid := s.id.value;
      eid := e.id;
      capacity := e.capacity;
      pos := None;
    }

    /** `within_capacity`: whether the position, cached or (when nothing is
        cached) read from the queue as `_ghost_add` gives it, lies below
        the capacity. Reading makes sure the container exists. */
    method WithinCapacity(store: Store) returns (b: bool)
      modifies this, store
      ensures old(pos).Some? ==> pos == old(pos) && store.db == old(store.db)
      ensures old(pos).None? ==> pos == Some(GhostAdd(QueueOf(old(store.db), eid), sid)) && store.db == WithContainer(old(store.db), eid)
      ensures b <==> pos.value < capacity
    {
      if pos.None? {
        store.db := WithContainer(store.db, eid);
        pos := Some(GhostAdd(store.db.queues[eid], sid));
      }
      b := pos.value < capacity;
    }

    /** `add`: puts the subscription in the queue when absent and caches and
        returns its index. */
    method Add(store: Store) returns (p: int)
      modifies this, store
      ensures p == GhostAdd(QueueOf(old(store.db), eid), sid) && pos == Some(p)
      ensures store.db == old(store.db).(queues := old(store.db).queues[eid := Appended(QueueOf(old(store.db), eid), sid)])
    {
      store.db := WithContainer(store.db, eid);
      var list := new IdList(store.db.queues[eid]);
      p := list.Add(sid);
      store.db := store.db.(queues := store.db.queues[eid := list.items]);
      ContainerThenSet(old(store.db), eid, list.items);
      pos := Some(p);
    }

    /** `remove`: clears the cache and takes the subscription out of the queue. */
    method Remove(store: Store)
      modifies this, store
      ensures pos.None?
      ensures store.db == old(store.db).(queues := old(store.db).queues[eid := RemoveFirst(QueueOf(old(store.db), eid), sid)])
    {
      pos := None;
      store.db := WithContainer(store.db, eid);
      var list := new IdList(store.db.queues[eid]);
      list.Remove(sid);
      store.db := store.db.(queues := store.db.queues[eid := list.items]);
      ContainerThenSet(old(store.db), eid, list.items);
    }
  }

  /** Adding or removing through an agent keeps the database well formed. */
  lemma AgentKeepsValid(db: Db, eid: int, q: seq<int>)
    requires db.Valid() && eid in db.events && NoDup(q)
    ensures db.(queues := db.queues[eid := q]).Valid()
  {
  }

  // ---------------------------------------------------------------- the sweep

  /** A subscription fits at index `k` of the queue: its stored position is
      `k`, it is at QUEUED_FOR_PAY or above, and if it is still
      QUEUED_FOR_PAY then `k` is at or beyond the capacity (below it, it
      would have been promoted). */
  predicate Fits(s: Subscription, k: int, capacity: int)
  {
    s.position == Some(k) && s.state >= QUEUED_FOR_PAY && (s.state == QUEUED_FOR_PAY ==> k >= capacity)
  }

  /** Every entry is a stored subscription that fits at its index. */
  predicate Placed(subs: map<int, Subscription>, q: seq<int>, capacity: int)
  {
    forall k :: 0 <= k < |q| ==> (q[k] in subs && Fits(subs[q[k]], k, capacity))
  }

  /** Rows of entries that did not change keep the entries placed. */
  lemma PlacedFrame(a: map<int, Subscription>, b: map<int, Subscription>, q: seq<int>, capacity: int)
    requires Placed(a, q, capacity)
    requires forall x :: x in q ==> x in b && b[x] == a[x]
    ensures Placed(b, q, capacity)
  {
    forall k | 0 <= k < |q|
      ensures q[k] in b && Fits(b[q[k]], k, capacity)
    {
      var x := q[k];
      assert x in q;
      assert x in a && Fits(a[x], k, capacity);
      assert x in b && b[x] == a[x];
    }
  }

  /** An entry that fits at the end may be appended. */
  lemma PlacedSnoc(subs: map<int, Subscription>, q: seq<int>, sid: int, capacity: int)
    requires Placed(subs, q, capacity) && sid in subs && Fits(subs[sid], |q|, capacity)
    ensures Placed(subs, q + [sid], capacity)
  {
    forall k | 0 <= k < |q| + 1
      ensures (q + [sid])[k] in subs && Fits(subs[(q + [sid])[k]], k, capacity)
    {
      if k < |q| {
        assert (q + [sid])[k] == q[k];
      }
    }
  }

  /** The same subscriptions, differing at most in state, deadline and position. */
  predicate SameRows(a: map<int, Subscription>, b: map<int, Subscription>)
  {
    a.Keys == b.Keys &&
    forall k :: k in a ==> b[k] == a[k].(state := b[k].state, waitUntil := b[k].waitUntil, position := b[k].position)
  }

  /** Only the row of `sid` differs. */
  predicate OnlyRow(a: map<int, Subscription>, b: map<int, Subscription>, sid: int)
  {
    forall k :: k in a && k != sid ==> k in b && b[k] == a[k]
  }

  /** What an expiry notice carries: a subscription sent back to ACCEPTABLE,
      off the queue and without deadline. */
  predicate ExpiredSnapshot(n: Subscription)
  {
    n.state == ACCEPTABLE && n.position.None? && n.waitUntil.None?
  }

  /** What a can-pay notice carries: a subscription now EXPECTING_PAY at a
      position below the capacity. */
  predicate CanPaySnapshot(n: Subscription, capacity: int)
  {
    n.state == EXPECTING_PAY && n.position.Some? && 0 <= n.position.value < capacity
  }

  /** A list only appended to. */
  predicate Grown(before: seq<Subscription>, after: seq<Subscription>)
  {
    |before| <= |after| && after[..|before|] == before
  }

  /** The notice lists only grew, and what was added are expiry and can-pay
      snapshots of subscriptions of known events. */
  predicate NewNotices(expired0: seq<Subscription>, canPay0: seq<Subscription>,
                       expired: seq<Subscription>, canPay: seq<Subscription>, capacity: int, events: map<int, Event>)
  {
    Grown(expired0, expired) && Grown(canPay0, canPay) &&
    (forall i :: |expired0| <= i < |expired| ==> ExpiredSnapshot(expired[i]) && expired[i].event in events) &&
    (forall i :: |canPay0| <= i < |canPay| ==> CanPaySnapshot(canPay[i], capacity) && canPay[i].event in events)
  }

  lemma NewNoticesTrans(e0: seq<Subscription>, c0: seq<Subscription>, e1: seq<Subscription>, c1: seq<Subscription>,
                        e2: seq<Subscription>, c2: seq<Subscription>, capacity: int, events: map<int, Event>)
    requires NewNotices(e0, c0, e1, c1, capacity, events) && NewNotices(e1, c1, e2, c2, capacity, events)
    ensures NewNotices(e0, c0, e2, c2, capacity, events)
  {
    assert e2[..|e0|] == e2[..|e1|][..|e0|];
    assert c2[..|c0|] == c2[..|c1|][..|c0|];
    forall i | |e0| <= i < |e1|
      ensures e2[i] == e1[i]
    {
      assert e2[..|e1|][i] == e2[i];
    }
    forall i | |c0| <= i < |c1|
      ensures c2[i] == c1[i]
    {
      assert c2[..|c1|][i] == c2[i];
    }
  }

  // ---------------------------------------------------------------- what the walk does to one entry

  /** The walk raises `NotImplementedError` on a partially paid subscription
      while partial payment is closed. */
  predicate Blocks(s: Subscription, e: Event)
  {
    s.state == PARTIALLY_PAID && !e.partialPaymentOpen
  }

  /** The walk expires a subscription that expects payment while the
      `waiting` getter reads false. */
  predicate Expires(s: Subscription, now: int)
  {
    s.state == EXPECTING_PAY && !Waiting(s, now)
  }

  /** The walk keeps an entry whose row is at QUEUED_FOR_PAY or above and
      does not expire. */
  predicate Stays(s: Subscription, now: int)
  {
    s.state >= QUEUED_FOR_PAY && !Expires(s, now)
  }

  /** The walk promotes a queued subscription met while fewer than
      `capacity` entries have been kept. */
  predicate Promotes(s: Subscription, k: int, capacity: int)
  {
    s.state == QUEUED_FOR_PAY && k < capacity
  }

  /** The row of an entry the walk keeps as the `k`-th entry. */
  function KeptRow(s: Subscription, k: int, e: Event, now: int): (r: Subscription)
    ensures r.position == Some(k)
    ensures r == s.(state := r.state, waitUntil := r.waitUntil, position := r.position)
    ensures Promotes(s, k, e.capacity) ==> r.state == EXPECTING_PAY && r.waitUntil.Some?
    ensures Promotes(s, k, e.capacity) && !Waiting(s, now) ==> r.waitUntil == Some(now + e.paymentWaitHours * 3600)
    ensures !Promotes(s, k, e.capacity) ==> r.state == s.state && r.waitUntil == s.waitUntil
  {
    if Promotes(s, k, e.capacity) then
      SetWaiting(s.(state := EXPECTING_PAY), true, e.paymentWaitHours, now).(position := Some(k))
    else s.(position := Some(k))
  }

  /** The row of an entry the walk takes out of the queue. */
  function DroppedRow(s: Subscription, now: int): (r: Subscription)
    ensures r == s.(state := r.state, waitUntil := r.waitUntil, position := r.position)
    ensures Expires(s, now) ==> r.state == ACCEPTABLE && r.waitUntil.None? && r.position.None?
    ensures !Expires(s, now) ==> r.state == s.state
    ensures !Stays(s, now) ==> r.state < QUEUED_FOR_PAY && !Waiting(r, now)
  {
    if Expires(s, now) then s.(state := ACCEPTABLE, waitUntil := None, position := None)
    else if (s.position.Some? && s.position.value != 0) || Waiting(s, now) then s.(waitUntil := None, position := None)
    else s
  }

  /** The entries of `q` the walk keeps, in queue order. */
  function Survivors(q: seq<int>, subs: map<int, Subscription>, now: int): (r: seq<int>)
    ensures forall x :: x in r <==> x in q && x in subs && Stays(subs[x], now)
    ensures |r| <= |q|
  {
    if q == [] then []
    else
      var x := q[|q| - 1];
      Survivors(q[..|q| - 1], subs, now) + (if x in subs && Stays(subs[x], now) then [x] else [])
  }

  /** The expiry notices the walk records over `q`, in queue order. */
  function ExpiredRows(q: seq<int>, subs: map<int, Subscription>, now: int): (r: seq<Subscription>)
    ensures forall j :: 0 <= j < |r| ==> ExpiredSnapshot(r[j])
  {
    if q == [] then []
    else
      var x := q[|q| - 1];
      ExpiredRows(q[..|q| - 1], subs, now) + (if x in subs && Expires(subs[x], now) then [DroppedRow(subs[x], now)] else [])
  }

  /** The can-pay notices the walk records over `q`, in queue order: an
      entry is promoted at the index given by the survivors before it. */
  function PromotedRows(q: seq<int>, subs: map<int, Subscription>, e: Event, now: int): (r: seq<Subscription>)
    ensures forall j :: 0 <= j < |r| ==> CanPaySnapshot(r[j], e.capacity)
  {
    if q == [] then []
    else
      var x := q[|q| - 1];
      var k := |Survivors(q[..|q| - 1], subs, now)|;
      PromotedRows(q[..|q| - 1], subs, e, now) +
        (if x in subs && Promotes(subs[x], k, e.capacity) then [KeptRow(subs[x], k, e, now)] else [])
  }

  /** The notices of a walk belong to known events when every row does. */
  lemma {:induction false} NoticeRowsKnown(q: seq<int>, subs: map<int, Subscription>, e: Event, now: int, events: map<int, Event>)
    requires forall x :: x in subs ==> subs[x].event in events
    ensures forall j :: 0 <= j < |ExpiredRows(q, subs, now)| ==> ExpiredRows(q, subs, now)[j].event in events
    ensures forall j :: 0 <= j < |PromotedRows(q, subs, e, now)| ==> PromotedRows(q, subs, e, now)[j].event in events
  {
    if q != [] {
      NoticeRowsKnown(q[..|q| - 1], subs, e, now, events);
    }
  }

  /** No entry of `q` makes the walk raise. */
  predicate Clear(q: seq<int>, subs: map<int, Subscription>, e: Event)
  {
    forall x :: x in q && x in subs ==> !Blocks(subs[x], e)
  }

  /** Queued (within the capacity or not), paid, partially paid (the walk
      did not raise), staff and confirmed entries stay, and so does an
      EXPECTING_PAY entry whose `waiting` reads true; an entry the code
      expires, or one below QUEUED_FOR_PAY, does not. */
  lemma SurvivorsByState(q: seq<int>, subs: map<int, Subscription>, e: Event, now: int, x: int)
    requires x in q && x in subs && Clear(q, subs, e)
    ensures subs[x].state in {QUEUED_FOR_PAY, VERIFYING_PAY, PARTIALLY_PAID, UNPAID_STAFF, CONFIRMED} ==> x in Survivors(q, subs, now)
    ensures subs[x].state == EXPECTING_PAY && Waiting(subs[x], now) ==> x in Survivors(q, subs, now)
    ensures Expires(subs[x], now) || subs[x].state < QUEUED_FOR_PAY ==> x !in Survivors(q, subs, now)
  {
  }

  /** One entry of the walk over the queue (`_update_all_subscriptions`,
      first loop). `position` counts the entries kept so far, and the entry
      sits at that index of the live list. Returns `ok == false` where the
      source raises `NotImplementedError` (a partially paid subscription
      while partial payment is closed), and otherwise whether the entry
      stays in the queue. */
  method Visit(store: Store, e: Event, notify: BatchNotifier, live: IdList,
               ghost kept: seq<int>, sid: int, ghost rest: seq<int>, position: int, now: int)
    returns (ok: bool, stays: bool)
    requires live.items == kept + [sid] + rest && |kept| == position && sid !in kept
    modifies store, notify, live
    ensures store.db == old(store.db).(subs := store.db.subs)
    ensures notify.toggled == old(notify.toggled)
    ensures ok && stays ==> live.items == old(live.items)
    ensures ok && !stays ==> live.items == kept + rest
    ensures sid !in old(store.db.subs) ==>
      ok && !stays && store.db == old(store.db) && notify.expired == old(notify.expired) && notify.canPay == old(notify.canPay)
    ensures sid in old(store.db.subs) ==> (ok <==> !Blocks(old(store.db.subs[sid]), e))
    ensures sid in old(store.db.subs) && !ok ==>
      store.db == old(store.db) && notify.expired == old(notify.expired) && notify.canPay == old(notify.canPay)
    ensures sid in old(store.db.subs) && ok ==> (stays <==> Stays(old(store.db.subs[sid]), now))
    ensures sid in old(store.db.subs) && ok ==>
      store.db.subs == old(store.db.subs)[sid := if stays then KeptRow(old(store.db.subs[sid]), position, e, now)
                                                 else DroppedRow(old(store.db.subs[sid]), now)]
    ensures sid in old(store.db.subs) && ok ==>
      notify.expired == old(notify.expired) + (if Expires(old(store.db.subs[sid]), now) then [DroppedRow(old(store.db.subs[sid]), now)] else [])
    ensures sid in old(store.db.subs) && ok ==>
      notify.canPay == old(notify.canPay) + (if Promotes(old(store.db.subs[sid]), position, e.capacity)
                                             then [KeptRow(old(store.db.subs[sid]), position, e, now)] else [])
  {
    EntryAt(kept, sid, rest);
    if sid !in store.db.subs {
      live.Remove(sid);
      return true, false;
    }
    var s := store.db.subs[sid];
    ghost var s0 := s;
    assert store.db.subs[sid := s0] == store.db.subs;
    if s.state == EXPECTING_PAY && !Waiting(s, now) {
      s := s.(state := ACCEPTABLE, waitUntil := None, position := None);
      assert s == DroppedRow(s0, now);
      store.db := store.db.(subs := store.db.subs[sid := s]);
      notify.Expired(s);
      live.Remove(sid);
      return true, false;
    } else if s.state == QUEUED_FOR_PAY && position < e.capacity {
      s := s.(state := EXPECTING_PAY);
      s := SetWaiting(s, true, e.paymentWaitHours, now);
      var index := live.Add(sid);
      s := s.(position := Some(index));
      assert s == KeptRow(s0, position, e, now);
      store.db := store.db.(subs := store.db.subs[sid := s]);
      notify.CanPay(s);
      return true, true;
    } else if s.state == PARTIALLY_PAID && !e.partialPaymentOpen {
      return false, false;
    } else if s.state < QUEUED_FOR_PAY {
      if (s.position.Some? && s.position.value != 0) || Waiting(s, now) {
        s := SetWaiting(s, false, e.paymentWaitHours, now);
        s := s.(position := None);
          store.db := store.db.(subs := store.db.subs[sid := s]);
      }
      assert s == DroppedRow(s0, now);
      live.Remove(sid);
      return true, false;
    } else {
      if s.position != Some(position) {
        s := s.(position := Some(position));
          store.db := store.db.(subs := store.db.subs[sid := s]);
      }
      assert s == KeptRow(s0, position, e, now);
      return true, true;
    }
  }

  /** Leaving the rows alone changes nothing. */
  lemma RowKept(b: map<int, Subscription>, sid: int)
    ensures SameRows(b, b) && OnlyRow(b, b, sid)
  {
    forall k | k in b
      ensures b[k] == b[k].(state := b[k].state, waitUntil := b[k].waitUntil, position := b[k].position)
    {
    }
  }

  /** Writing back one row with a new state, deadline or position. */
  lemma RowChanged(b: map<int, Subscription>, sid: int, s: Subscription)
    requires sid in b && s == b[sid].(state := s.state, waitUntil := s.waitUntil, position := s.position)
    ensures SameRows(b, b[sid := s]) && OnlyRow(b, b[sid := s], sid)
  {
    RowKept(b, sid);
  }

  /** What holds after the walk has visited `copy[..i]`: the live list is
      the entries kept so far followed by the unvisited ones, without
      repeats; the kept entries come from the copy and are placed; rows
      differ from `subs0` only in state, deadline and position. */
  predicate WalkInv(copy: seq<int>, i: int, kept: seq<int>, items: seq<int>,
                    subs0: map<int, Subscription>, subs: map<int, Subscription>, capacity: int)
  {
    0 <= i <= |copy| && items == kept + copy[i..] && NoDup(items) &&
    (forall x :: x in kept ==> x in copy) &&
    SameRows(subs0, subs) && Placed(subs, kept, capacity)
  }

  /** After visiting `copy[..i]`: no visited entry raised, and the kept
      entries are the survivors, in order. */
  predicate TraceKept(copy: seq<int>, i: int, kept: seq<int>, subs0: map<int, Subscription>, e: Event, now: int)
  {
    0 <= i <= |copy| && kept == Survivors(copy[..i], subs0, now) && Clear(copy[..i], subs0, e)
  }

  /** After visiting `copy[..i]`: each kept entry's row is its `KeptRow` at
      its index, each dropped entry's row its `DroppedRow`, and rows not yet
      visited are as they were in `subs0`. */
  predicate TraceRows(copy: seq<int>, i: int, kept: seq<int>, subs0: map<int, Subscription>, subs: map<int, Subscription>,
                      e: Event, now: int)
    requires 0 <= i <= |copy|
  {
    subs.Keys == subs0.Keys &&
    (forall k :: 0 <= k < |kept| ==> kept[k] in subs0 && subs[kept[k]] == KeptRow(subs0[kept[k]], k, e, now)) &&
    (forall x :: x in copy[..i] && x in subs0 && x !in kept ==> subs[x] == DroppedRow(subs0[x], now)) &&
    (forall x :: x in subs0 && x !in copy[..i] ==> subs[x] == subs0[x])
  }

  /** After visiting `copy[..i]`: the notices recorded are those of the
      visited entries. */
  predicate TraceNotices(copy: seq<int>, i: int, subs0: map<int, Subscription>, e: Event, now: int,
                         ex0: seq<Subscription>, cp0: seq<Subscription>, ex: seq<Subscription>, cp: seq<Subscription>)
    requires 0 <= i <= |copy|
  {
    ex == ex0 + ExpiredRows(copy[..i], subs0, now) && cp == cp0 + PromotedRows(copy[..i], subs0, e, now)
  }

  lemma TraceStart(copy: seq<int>, subs: map<int, Subscription>, e: Event, now: int, ex: seq<Subscription>, cp: seq<Subscription>)
    ensures TraceKept(copy, 0, [], subs, e, now) && TraceRows(copy, 0, [], subs, subs, e, now)
    ensures TraceNotices(copy, 0, subs, e, now, ex, cp, ex, cp)
  {
    assert copy[..0] == [];
  }

  /** The entry about to be visited is not among the visited ones, so it
      still has its starting row. */
  lemma TraceNext(copy: seq<int>, i: int, kept: seq<int>, subs0: map<int, Subscription>, subs: map<int, Subscription>, e: Event, now: int)
    requires 0 <= i < |copy| && NoDup(copy) && TraceRows(copy, i, kept, subs0, subs, e, now)
    ensures copy[i] !in copy[..i]
    ensures copy[i] in subs <==> copy[i] in subs0
    ensures copy[i] in subs0 ==> subs[copy[i]] == subs0[copy[i]]
  {
    forall k | 0 <= k < i
      ensures copy[..i][k] != copy[i]
    {
    }
    var x := copy[i];
    assert x !in copy[..i];
    assert forall y :: y in subs0 && y !in copy[..i] ==> subs[y] == subs0[y];
  }

  /** The prefix after one more visit. */
  lemma PrefixSnoc(copy: seq<int>, i: int)
    requires 0 <= i < |copy|
    ensures copy[..i + 1] == copy[..i] + [copy[i]]
    ensures copy[..i + 1][..i] == copy[..i] && copy[..i + 1][i] == copy[i]
  {
  }

  /** Visiting one entry extends the kept part of the trace. */
  lemma StepKept(copy: seq<int>, i: int, kept: seq<int>, subs0: map<int, Subscription>, e: Event, now: int,
                 stays: bool, kept2: seq<int>)
    requires TraceKept(copy, i, kept, subs0, e, now) && i < |copy| && copy[i] !in copy[..i]
    requires kept2 == if stays then kept + [copy[i]] else kept
    requires copy[i] !in subs0 ==> !stays
    requires copy[i] in subs0 ==> !Blocks(subs0[copy[i]], e) && (stays <==> Stays(subs0[copy[i]], now))
    ensures TraceKept(copy, i + 1, kept2, subs0, e, now)
  {
    PrefixSnoc(copy, i);
    var post := copy[..i + 1];
    assert post[..|post| - 1] == copy[..i];
    forall y | y in post && y in subs0
      ensures !Blocks(subs0[y], e)
    {
      if y != copy[i] {
        assert y in copy[..i];
      }
    }
  }

  /** Visiting one entry extends the rows part of the trace. */
  lemma StepRows(copy: seq<int>, i: int, kept: seq<int>, subs0: map<int, Subscription>,
                 subs1: map<int, Subscription>, subs2: map<int, Subscription>, e: Event, now: int, stays: bool, kept2: seq<int>)
    requires 0 <= i < |copy| && copy[i] !in copy[..i] && TraceRows(copy, i, kept, subs0, subs1, e, now)
    requires forall x :: x in kept ==> x in copy[..i]
    requires kept2 == if stays then kept + [copy[i]] else kept
    requires copy[i] !in subs0 ==> !stays && subs2 == subs1
    requires copy[i] in subs0 ==>
      subs2 == subs1[copy[i] := if stays then KeptRow(subs0[copy[i]], |kept|, e, now) else DroppedRow(subs0[copy[i]], now)]
    ensures TraceRows(copy, i + 1, kept2, subs0, subs2, e, now)
  {
    var x := copy[i];
    PrefixSnoc(copy, i);
    assert x !in kept;
    forall k | 0 <= k < |kept2|
      ensures kept2[k] in subs0 && subs2[kept2[k]] == KeptRow(subs0[kept2[k]], k, e, now)
    {
      if k < |kept| {
        assert kept2[k] == kept[k] && kept[k] != x;
      }
    }
    forall y | y in copy[..i + 1] && y in subs0 && y !in kept2
      ensures subs2[y] == DroppedRow(subs0[y], now)
    {
      if y != x {
        assert y in copy[..i] && y !in kept;
      }
    }
  }

  /** Visiting one entry extends the notices part of the trace. */
  lemma StepNotices(copy: seq<int>, i: int, kept: seq<int>, subs0: map<int, Subscription>, e: Event, now: int,
                    ex0: seq<Subscription>, cp0: seq<Subscription>, ex1: seq<Subscription>, cp1: seq<Subscription>,
                    ex2: seq<Subscription>, cp2: seq<Subscription>)
    requires TraceKept(copy, i, kept, subs0, e, now) && i < |copy|
    requires TraceNotices(copy, i, subs0, e, now, ex0, cp0, ex1, cp1)
    requires copy[i] !in subs0 ==> ex2 == ex1 && cp2 == cp1
    requires copy[i] in subs0 ==>
      ex2 == ex1 + (if Expires(subs0[copy[i]], now) then [DroppedRow(subs0[copy[i]], now)] else [])
    requires copy[i] in subs0 ==>
      cp2 == cp1 + (if Promotes(subs0[copy[i]], |kept|, e.capacity) then [KeptRow(subs0[copy[i]], |kept|, e, now)] else [])
    ensures TraceNotices(copy, i + 1, subs0, e, now, ex0, cp0, ex2, cp2)
  {
    PrefixSnoc(copy, i);
    var post := copy[..i + 1];
    assert post[..|post| - 1] == copy[..i];
  }

  /** Before the walk nothing is kept and nothing has changed. */
  lemma WalkStart(copy: seq<int>, subs: map<int, Subscription>, capacity: int)
    requires NoDup(copy)
    ensures WalkInv(copy, 0, [], copy, subs, subs, capacity)
  {
    assert [] + copy[0..] == copy;
    forall k | k in subs
      ensures subs[k] == subs[k].(state := subs[k].state, waitUntil := subs[k].waitUntil, position := subs[k].position)
    {
    }
  }

  /** The entry about to be visited is the one after the kept ones. */
  lemma WalkNext(copy: seq<int>, i: int, kept: seq<int>, items: seq<int>,
                 subs0: map<int, Subscription>, subs: map<int, Subscription>, capacity: int)
    requires WalkInv(copy, i, kept, items, subs0, subs, capacity) && i < |copy|
    ensures items == kept + [copy[i]] + copy[i + 1..] && copy[i] !in kept
  {
    assert copy[i..] == [copy[i]] + copy[i + 1..];
    assert items == kept + [copy[i]] + copy[i + 1..];
    NoDupSplit(kept, copy[i], copy[i + 1..]);
  }

  /** Visiting one entry, as `Visit` promises it, keeps `WalkInv`. */
  lemma WalkStep(copy: seq<int>, i: int, kept: seq<int>, items: seq<int>,
                 subs0: map<int, Subscription>, subs1: map<int, Subscription>, subs2: map<int, Subscription>,
                 capacity: int, stays: bool, items2: seq<int>, kept2: seq<int>)
    requires WalkInv(copy, i, kept, items, subs0, subs1, capacity) && i < |copy|
    requires kept2 == if stays then kept + [copy[i]] else kept
    requires SameRows(subs1, subs2) && OnlyRow(subs1, subs2, copy[i])
    requires stays ==> items2 == items && copy[i] in subs2 && Fits(subs2[copy[i]], |kept|, capacity)
    requires !stays ==> items2 == kept + copy[i + 1..]
    ensures WalkInv(copy, i + 1, kept2, items2, subs0, subs2, capacity)
  {
    var sid := copy[i];
    WalkNext(copy, i, kept, items, subs0, subs1, capacity);
    NoDupSplit(kept, sid, copy[i + 1..]);
    forall k | k in subs0
      ensures subs2[k] == subs0[k].(state := subs2[k].state, waitUntil := subs2[k].waitUntil, position := subs2[k].position)
    {
      assert subs1[k] == subs0[k].(state := subs1[k].state, waitUntil := subs1[k].waitUntil, position := subs1[k].position);
    }
    forall x | x in kept
      ensures x in subs2 && subs2[x] == subs1[x]
    {
      assert x in subs1 && x != sid;
    }
    PlacedFrame(subs1, subs2, kept, capacity);
    if stays {
      PlacedSnoc(subs2, kept, sid, capacity);
      assert items == (kept + [sid]) + copy[i + 1..];
    }
  }

  /** What `Visit` promises about one visit that did not raise, in terms of
      the entry `x` it met at index `|kept|`, the rows before and after,
      the live list before and after and the notice lists before and after. */
  predicate Visited(x: int, kept: seq<int>, rest: seq<int>, items: seq<int>, subs1: map<int, Subscription>, subs2: map<int, Subscription>,
                    e: Event, now: int, stays: bool, items2: seq<int>,
                    ex1: seq<Subscription>, cp1: seq<Subscription>, ex2: seq<Subscription>, cp2: seq<Subscription>)
  {
    (stays ==> items2 == items) && (!stays ==> items2 == kept + rest) &&
    (x !in subs1 ==> !stays && subs2 == subs1 && ex2 == ex1 && cp2 == cp1) &&
    (x in subs1 ==>
      !Blocks(subs1[x], e) && (stays <==> Stays(subs1[x], now)) &&
      subs2 == subs1[x := if stays then KeptRow(subs1[x], |kept|, e, now) else DroppedRow(subs1[x], now)] &&
      ex2 == ex1 + (if Expires(subs1[x], now) then [DroppedRow(subs1[x], now)] else []) &&
      cp2 == cp1 + (if Promotes(subs1[x], |kept|, e.capacity) then [KeptRow(subs1[x], |kept|, e, now)] else []))
  }

  /** The walk's loop invariant: its shape, its trace and the notices. */
  predicate Walked(copy: seq<int>, i: int, kept: seq<int>, items: seq<int>, subs0: map<int, Subscription>, subs: map<int, Subscription>,
                   e: Event, now: int, ex0: seq<Subscription>, cp0: seq<Subscription>, ex: seq<Subscription>, cp: seq<Subscription>,
                   events: map<int, Event>)
  {
    WalkInv(copy, i, kept, items, subs0, subs, e.capacity) &&
    TraceKept(copy, i, kept, subs0, e, now) && TraceRows(copy, i, kept, subs0, subs, e, now) &&
    TraceNotices(copy, i, subs0, e, now, ex0, cp0, ex, cp) &&
    NewNotices(ex0, cp0, ex, cp, e.capacity, events)
  }

  /** A visit changes only the visited row and only its state, deadline
      and position; a kept entry fits at its index; the notices recorded
      are expiry and can-pay snapshots. */
  lemma VisitedShape(x: int, kept: seq<int>, subs1: map<int, Subscription>, subs2: map<int, Subscription>, e: Event, now: int,
                     stays: bool, ex1: seq<Subscription>, cp1: seq<Subscription>, ex2: seq<Subscription>, cp2: seq<Subscription>,
                     events: map<int, Event>)
    requires forall k :: k in subs1 ==> subs1[k].event in events
    requires x !in subs1 ==> !stays && subs2 == subs1 && ex2 == ex1 && cp2 == cp1
    requires x in subs1 ==>
      !Blocks(subs1[x], e) && (stays <==> Stays(subs1[x], now)) &&
      subs2 == subs1[x := if stays then KeptRow(subs1[x], |kept|, e, now) else DroppedRow(subs1[x], now)] &&
      ex2 == ex1 + (if Expires(subs1[x], now) then [DroppedRow(subs1[x], now)] else []) &&
      cp2 == cp1 + (if Promotes(subs1[x], |kept|, e.capacity) then [KeptRow(subs1[x], |kept|, e, now)] else [])
    ensures SameRows(subs1, subs2) && OnlyRow(subs1, subs2, x)
    ensures stays ==> x in subs2 && Fits(subs2[x], |kept|, e.capacity)
    ensures NewNotices(ex1, cp1, ex2, cp2, e.capacity, events)
  {
    RowKept(subs1, x);
    if x in subs1 {
      var s := subs1[x];
      var r := if stays then KeptRow(s, |kept|, e, now) else DroppedRow(s, now);
      RowChanged(subs1, x, r);
      assert s.event in events;
      assert ex1 + [] == ex1 && cp1 + [] == cp1;
    }
  }

  /** One visit, as `Visit` promises it, keeps the walk's invariant. */
  lemma VisitStep(copy: seq<int>, i: int, kept: seq<int>, items: seq<int>, subs0: map<int, Subscription>,
                  subs1: map<int, Subscription>, subs2: map<int, Subscription>, e: Event, now: int,
                  stays: bool, items2: seq<int>, kept2: seq<int>,
                  ex0: seq<Subscription>, cp0: seq<Subscription>, ex1: seq<Subscription>, cp1: seq<Subscription>,
                  ex2: seq<Subscription>, cp2: seq<Subscription>, events: map<int, Event>)
    requires NoDup(copy) && i < |copy|
    requires Walked(copy, i, kept, items, subs0, subs1, e, now, ex0, cp0, ex1, cp1, events)
    requires forall k :: k in subs1 ==> subs1[k].event in events
    requires kept2 == if stays then kept + [copy[i]] else kept
    requires Visited(copy[i], kept, copy[i + 1..], items, subs1, subs2, e, now, stays, items2, ex1, cp1, ex2, cp2)
    ensures Walked(copy, i + 1, kept2, items2, subs0, subs2, e, now, ex0, cp0, ex2, cp2, events)
  {
    VisitedShape(copy[i], kept, subs1, subs2, e, now, stays, ex1, cp1, ex2, cp2, events);
    TraceNext(copy, i, kept, subs0, subs1, e, now);
    WalkStep(copy, i, kept, items, subs0, subs1, subs2, e.capacity, stays, items2, kept2);
    StepKept(copy, i, kept, subs0, e, now, stays, kept2);
    StepRows(copy, i, kept, subs0, subs1, subs2, e, now, stays, kept2);
    StepNotices(copy, i, kept, subs0, e, now, ex0, cp0, ex1, cp1, ex2, cp2);
    NewNoticesTrans(ex0, cp0, ex1, cp1, ex2, cp2, e.capacity, events);
  }

  /** When a visit raises, the entry it met blocks the walk. */
  lemma VisitBlocked(copy: seq<int>, i: int, subs0: map<int, Subscription>, subs1: map<int, Subscription>, e: Event)
    requires 0 <= i < |copy| && copy[i] in subs1 && Blocks(subs1[copy[i]], e)
    requires copy[i] in subs1 <==> copy[i] in subs0
    requires copy[i] in subs0 ==> subs1[copy[i]] == subs0[copy[i]]
    ensures !Clear(copy, subs0, e)
  {
    var x := copy[i];
    assert x in copy && x in subs0 && Blocks(subs0[x], e);
    assert exists y :: y in copy && y in subs0 && Blocks(subs0[y], e);
  }

  /** The invariant over the whole copy gives the walk's promises. */
  lemma WalkDone(copy: seq<int>, kept: seq<int>, items: seq<int>, subs0: map<int, Subscription>, subs: map<int, Subscription>,
                 e: Event, now: int, ex0: seq<Subscription>, cp0: seq<Subscription>, ex: seq<Subscription>, cp: seq<Subscription>,
                 events: map<int, Event>)
    requires Walked(copy, |copy|, kept, items, subs0, subs, e, now, ex0, cp0, ex, cp, events)
    ensures items == kept && NoDup(items) && Placed(subs, items, e.capacity) && SameRows(subs0, subs)
    ensures kept == Survivors(copy, subs0, now) && Clear(copy, subs0, e)
    ensures forall k :: 0 <= k < |kept| ==> kept[k] in subs0 && subs[kept[k]] == KeptRow(subs0[kept[k]], k, e, now)
    ensures forall x :: x in copy && x in subs0 && x !in kept ==> subs[x] == DroppedRow(subs0[x], now)
    ensures forall x :: x in subs0 && x !in copy ==> subs[x] == subs0[x]
    ensures ex == ex0 + ExpiredRows(copy, subs0, now) && cp == cp0 + PromotedRows(copy, subs0, e, now)
    ensures NewNotices(ex0, cp0, ex, cp, e.capacity, events)
  {
    assert copy[..|copy|] == copy;
    assert items == kept + copy[|copy|..];
  }

  /** The body of the walk's loop: visits `copy[i]`, the entry after the
      `position` kept ones, and keeps the walk's invariant. Returns false
      where the source raises, and then the queue blocks the walk. */
  method VisitAt(store: Store, e: Event, notify: BatchNotifier, live: IdList, copy: seq<int>, i: int,
                 ghost kept: seq<int>, position: int, now: int, ghost subs0: map<int, Subscription>,
                 ghost ex0: seq<Subscription>, ghost cp0: seq<Subscription>)
    returns (ok: bool, stays: bool, ghost kept2: seq<int>)
    requires NoDup(copy) && 0 <= i < |copy| && |kept| == position
    requires Walked(copy, i, kept, live.items, subs0, store.db.subs, e, now, ex0, cp0, notify.expired, notify.canPay, store.db.events)
    requires forall k :: k in subs0 ==> subs0[k].event in store.db.events
    modifies store, notify, live
    ensures store.db == old(store.db).(subs := store.db.subs) && notify.toggled == old(notify.toggled)
    ensures kept2 == if stays then kept + [copy[i]] else kept
    ensures ok ==> Walked(copy, i + 1, kept2, live.items, subs0, store.db.subs, e, now,
                          ex0, cp0, notify.expired, notify.canPay, store.db.events)
    ensures !ok ==> !Clear(copy, subs0, e) && store.db == old(store.db) && SameRows(subs0, store.db.subs) &&
                    NewNotices(ex0, cp0, notify.expired, notify.canPay, e.capacity, store.db.events)
  {
    var sid := copy[i];
    assert SameRows(subs0, store.db.subs);
    assert forall k :: k in store.db.subs ==> store.db.subs[k].event in store.db.events;
    WalkNext(copy, i, kept, live.items, subs0, store.db.subs, e.capacity);
    TraceNext(copy, i, kept, subs0, store.db.subs, e, now);
    ghost var subs1, items1 := store.db.subs, live.items;
    ghost var ex1, cp1 := notify.expired, notify.canPay;
    ok, stays := Visit(store, e, notify, live, kept, sid, copy[i + 1..], position, now);
    kept2 := if stays then kept + [sid] else kept;
    if !ok {
      VisitBlocked(copy, i, subs0, subs1, e);
      return;
    }
    assert Visited(sid, kept, copy[i + 1..], items1, subs1, store.db.subs, e, now, stays, live.items, ex1, cp1, notify.expired, notify.canPay);
    VisitStep(copy, i, kept, items1, subs0, subs1, store.db.subs, e, now, stays, live.items,
              kept2, ex0, cp0, ex1, cp1, notify.expired, notify.canPay, store.db.events);
  }

  /** The loop of the walk over `copy`, a copy of the stored queue. Returns
      false where the source raises, and otherwise the live list, which
      holds the kept entries. */
  method WalkLoop(store: Store, e: Event, notify: BatchNotifier, copy: seq<int>, now: int)
    returns (ok: bool, walked: seq<int>, ghost kept: seq<int>)
    requires NoDup(copy)
    requires forall k :: k in store.db.subs ==> store.db.subs[k].event in store.db.events
    modifies store, notify
    ensures store.db == old(store.db).(subs := store.db.subs) && notify.toggled == old(notify.toggled)
    ensures ok ==> Walked(copy, |copy|, kept, walked, old(store.db.subs), store.db.subs, e, now,
                          old(notify.expired), old(notify.canPay), notify.expired, notify.canPay, store.db.events)
    ensures !ok ==>
      !Clear(copy, old(store.db.subs), e) && SameRows(old(store.db.subs), store.db.subs) &&
      NewNotices(old(notify.expired), old(notify.canPay), notify.expired, notify.canPay, e.capacity, store.db.events)
  {
    var live := new IdList(copy);
    var position := 0;
    kept := [];
    var i := 0;
    WalkStart(copy, store.db.subs, e.capacity);
    TraceStart(copy, store.db.subs, e, now, notify.expired, notify.canPay);
    while i < |copy|
      invariant 0 <= i <= |copy| && |kept| == position
      invariant Walked(copy, i, kept, live.items, old(store.db.subs), store.db.subs, e, now,
                       old(notify.expired), old(notify.canPay), notify.expired, notify.canPay, store.db.events)
      invariant store.db == old(store.db).(subs := store.db.subs) && notify.toggled == old(notify.toggled)
    {
      var stays;
      ghost var kept2;
      ok, stays, kept2 := VisitAt(store, e, notify, live, copy, i, kept, position, now, old(store.db.subs), old(notify.expired), old(notify.canPay));
      if !ok {
        return false, live.items, kept;
      }
      if stays {
        position := position + 1;
      }
      kept := kept2;
      i := i + 1;
    }
    return true, live.items, kept;
  }

  /** The walk over a copy of the queue. Returns false where the source
      raises `NotImplementedError`, and otherwise the queue as it stands
      after the walk: exactly the surviving entries in their old order,
      each with its kept row, every other entry of the old queue with its
      dropped row, and the notices of the whole queue recorded. */
  method Walk(store: Store, e: Event, notify: BatchNotifier, now: int) returns (ok: bool, walked: seq<int>)
    requires e.id in store.db.queues && NoDup(store.db.queues[e.id])
    requires forall k :: k in store.db.subs ==> store.db.subs[k].event in store.db.events
    modifies store, notify
    ensures store.db == old(store.db).(subs := store.db.subs) && notify.toggled == old(notify.toggled)
    ensures SameRows(old(store.db.subs), store.db.subs)
    ensures ok ==> NoDup(walked) && Placed(store.db.subs, walked, e.capacity)
    ensures ok <==> Clear(old(store.db.queues[e.id]), old(store.db.subs), e)
    ensures ok ==> walked == Survivors(old(store.db.queues[e.id]), old(store.db.subs), now)
    ensures ok ==> forall k :: 0 <= k < |walked| ==>
      walked[k] in old(store.db.subs) && store.db.subs[walked[k]] == KeptRow(old(store.db.subs)[walked[k]], k, e, now)
    ensures ok ==> forall x :: x in old(store.db.queues[e.id]) && x in old(store.db.subs) && x !in walked ==>
      store.db.subs[x] == DroppedRow(old(store.db.subs)[x], now)
    ensures ok ==> forall x :: x in old(store.db.subs) && x !in old(store.db.queues[e.id]) ==>
      store.db.subs[x] == old(store.db.subs)[x]
    ensures ok ==> notify.expired == old(notify.expired) + ExpiredRows(old(store.db.queues[e.id]), old(store.db.subs), now)
    ensures ok ==> notify.canPay == old(notify.canPay) + PromotedRows(old(store.db.queues[e.id]), old(store.db.subs), e, now)
    ensures NewNotices(old(notify.expired), old(notify.canPay), notify.expired, notify.canPay, e.capacity, store.db.events)
  {
    var copy := store.db.queues[e.id];
    ghost var kept;
    ok, walked, kept := WalkLoop(store, e, notify, copy, now);
    if ok {
      WalkDone(copy, kept, walked, old(store.db.subs), store.db.subs, e, now,
               old(notify.expired), old(notify.canPay), notify.expired, notify.canPay, store.db.events);
    }
  }

  /** One subscription of the second loop of the sweep: one of the event's
      subscriptions that the walk did not keep is appended when staff-level
      (UNPAID_STAFF or above) and otherwise loses any stored position. */
  method Gather(store: Store, e: Event, live: IdList, walked: seq<int>, ghost appended: seq<int>, sid: int) returns (added: bool)
    requires live.items == walked + appended && sid !in appended
    modifies store, live
    ensures store.db == old(store.db).(subs := store.db.subs)
    ensures SameRows(old(store.db.subs), store.db.subs) && OnlyRow(old(store.db.subs), store.db.subs, sid)
    ensures forall k :: k in old(store.db.subs) ==> store.db.subs[k] == old(store.db.subs)[k].(position := store.db.subs[k].position)
    ensures added ==> (live.items == old(live.items) + [sid] && sid in store.db.subs &&
      store.db.subs[sid].event == e.id && store.db.subs[sid].state >= UNPAID_STAFF &&
      Fits(store.db.subs[sid], |old(live.items)|, e.capacity))
    ensures !added ==> live.items == old(live.items)
    ensures sid in walked ==> !added && store.db == old(store.db)
    ensures !added && sid in store.db.subs && store.db.subs[sid].event == e.id && sid !in walked ==>
      store.db.subs[sid].position.None? && store.db.subs[sid].state < UNPAID_STAFF
  {
    if sid in store.db.subs && store.db.subs[sid].event == e.id && sid !in walked {
      assert sid !in live.items;
      var s := store.db.subs[sid];
      if s.state >= UNPAID_STAFF {
        var index := live.Add(sid);
        s := s.(position := Some(index));
        store.db := store.db.(subs := store.db.subs[sid := s]);
        return true;
      } else if s.position.Some? {
        s := s.(position := None);
        store.db := store.db.(subs := store.db.subs[sid := s]);
      }
    }
    return false;
  }

  /** Rows that differ only in state, deadline and position compose. */
  lemma SameRowsTrans(a: map<int, Subscription>, b: map<int, Subscription>, c: map<int, Subscription>)
    requires SameRows(a, b) && SameRows(b, c)
    ensures SameRows(a, c)
  {
    forall k | k in a
      ensures c[k] == a[k].(state := c[k].state, waitUntil := c[k].waitUntil, position := c[k].position)
    {
      assert b[k] == a[k].(state := b[k].state, waitUntil := b[k].waitUntil, position := b[k].position);
    }
  }

  lemma NoDupSnoc(q: seq<int>, x: int)
    requires NoDup(q) && x !in q
    ensures NoDup(q + [x])
  {
    var r := q + [x];
    forall i, j | 0 <= i < j < |r|
      ensures r[i] != r[j]
    {
      if j == |q| {
        assert r[i] == q[i];
      } else {
        assert r[i] == q[i] && r[j] == q[j];
      }
    }
  }

  /** What holds after the second loop has gone through `order[..j]`: the
      live list is the walked queue followed by the appended entries, without
      repeats and placed; each appended entry is a staff-level subscription
      of the event met so far; each subscription of the event met so far
      and outside the list is below staff level and has no position. */
  predicate GatherInv(order: seq<int>, j: int, walked: seq<int>, appended: seq<int>, items: seq<int>,
                      subs0: map<int, Subscription>, subs: map<int, Subscription>, eid: int, capacity: int)
  {
    0 <= j <= |order| && items == walked + appended && NoDup(items) &&
    SameRows(subs0, subs) && Placed(subs, items, capacity) &&
    (forall x :: x in subs0 ==> subs[x] == subs0[x].(position := subs[x].position)) &&
    (forall x :: x in walked ==> x in subs0 && subs[x] == subs0[x]) &&
    (forall x :: x in appended ==> x in order[..j] && x in subs && subs[x].event == eid && subs[x].state >= UNPAID_STAFF) &&
    (forall x :: x in order[..j] && x in subs && subs[x].event == eid && x !in items ==>
      (subs[x].position.None? && subs[x].state < UNPAID_STAFF))
  }

  lemma GatherStart(order: seq<int>, walked: seq<int>, subs: map<int, Subscription>, eid: int, capacity: int)
    requires NoDup(walked) && Placed(subs, walked, capacity)
    ensures GatherInv(order, 0, walked, [], walked, subs, subs, eid, capacity)
  {
    assert walked + [] == walked;
    RowKept(subs, 0);
    forall x | x in subs
      ensures subs[x] == subs[x].(position := subs[x].position)
    {
    }
  }

  /** The subscription about to be met has not been appended yet. */
  lemma GatherNext(order: seq<int>, j: int, walked: seq<int>, appended: seq<int>, items: seq<int>,
                   subs0: map<int, Subscription>, subs: map<int, Subscription>, eid: int, capacity: int)
    requires GatherInv(order, j, walked, appended, items, subs0, subs, eid, capacity) && j < |order| && NoDup(order)
    ensures order[j] !in appended
  {
    forall k | 0 <= k < j
      ensures order[k] != order[j]
    {
    }
    assert order[j] !in order[..j];
    forall x | x in appended
      ensures x != order[j]
    {
      assert x in order[..j];
    }
  }

  /** Meeting one subscription changes at most its position, and no walked
      entry's row. */
  lemma GatherStepFrame(walked: seq<int>, subs0: map<int, Subscription>, subs1: map<int, Subscription>,
                        subs2: map<int, Subscription>, sid: int)
    requires SameRows(subs0, subs1) && SameRows(subs1, subs2) && OnlyRow(subs1, subs2, sid)
    requires forall x :: x in subs0 ==> subs1[x] == subs0[x].(position := subs1[x].position)
    requires forall k :: k in subs1 ==> subs2[k] == subs1[k].(position := subs2[k].position)
    requires forall x :: x in walked ==> x in subs0 && subs1[x] == subs0[x]
    requires sid in walked ==> subs2 == subs1
    ensures SameRows(subs0, subs2)
    ensures forall x :: x in subs0 ==> subs2[x] == subs0[x].(position := subs2[x].position)
    ensures forall x :: x in walked ==> x in subs0 && subs2[x] == subs0[x]
  {
    SameRowsTrans(subs0, subs1, subs2);
    forall x | x in subs0
      ensures subs2[x] == subs0[x].(position := subs2[x].position)
    {
      assert subs1[x] == subs0[x].(position := subs1[x].position);
    }
    forall x | x in walked
      ensures x in subs0 && subs2[x] == subs0[x]
    {
      assert x in subs0 && subs1[x] == subs0[x];
      if sid !in walked {
        assert x != sid;
      }
    }
  }

  /** Meeting one subscription keeps the gathered list free of repeats
      and placed. */
  lemma GatherStepPlaced(order: seq<int>, j: int, walked: seq<int>, appended: seq<int>, items: seq<int>,
                         subs0: map<int, Subscription>, subs1: map<int, Subscription>, subs2: map<int, Subscription>,
                         eid: int, capacity: int, added: bool, items2: seq<int>, appended2: seq<int>)
    requires GatherInv(order, j, walked, appended, items, subs0, subs1, eid, capacity) && j < |order|
    requires order[j] !in appended
    requires appended2 == if added then appended + [order[j]] else appended
    requires OnlyRow(subs1, subs2, order[j])
    requires added ==> (items2 == items + [order[j]] && order[j] in subs2 && Fits(subs2[order[j]], |items|, capacity))
    requires !added ==> items2 == items
    requires order[j] in walked ==> !added && subs2 == subs1
    ensures items2 == walked + appended2 && NoDup(items2) && Placed(subs2, items2, capacity)
  {
    var sid := order[j];
    if sid !in walked {
      assert sid !in items;
      forall x | x in items
        ensures x in subs2 && subs2[x] == subs1[x]
      {
        assert x in subs1 && x != sid;
      }
      PlacedFrame(subs1, subs2, items, capacity);
      if added {
        NoDupSnoc(items, sid);
        PlacedSnoc(subs2, items, sid, capacity);
        assert items2 == walked + appended2;
      }
    }
  }

  /** Meeting one subscription, as `Gather` promises it, keeps `GatherInv`. */
  lemma GatherStep(order: seq<int>, j: int, walked: seq<int>, appended: seq<int>, items: seq<int>,
                   subs0: map<int, Subscription>, subs1: map<int, Subscription>, subs2: map<int, Subscription>,
                   eid: int, capacity: int, added: bool, items2: seq<int>, appended2: seq<int>)
    requires GatherInv(order, j, walked, appended, items, subs0, subs1, eid, capacity) && j < |order| && NoDup(order)
    requires order[j] !in appended
    requires appended2 == if added then appended + [order[j]] else appended
    requires SameRows(subs1, subs2) && OnlyRow(subs1, subs2, order[j])
    requires forall k :: k in subs1 ==> subs2[k] == subs1[k].(position := subs2[k].position)
    requires added ==> (items2 == items + [order[j]] && order[j] in subs2 && subs2[order[j]].event == eid &&
      subs2[order[j]].state >= UNPAID_STAFF && Fits(subs2[order[j]], |items|, capacity))
    requires !added ==> items2 == items
    requires !added && order[j] in subs2 && subs2[order[j]].event == eid && order[j] !in walked ==>
      (subs2[order[j]].position.None? && subs2[order[j]].state < UNPAID_STAFF)
    requires order[j] in walked ==> !added && subs2 == subs1
    ensures GatherInv(order, j + 1, walked, appended2, items2, subs0, subs2, eid, capacity)
  {
    var sid := order[j];
    assert order[..j + 1] == order[..j] + [sid];
    GatherStepFrame(walked, subs0, subs1, subs2, sid);
    GatherStepPlaced(order, j, walked, appended, items, subs0, subs1, subs2, eid, capacity, added, items2, appended2);
    forall x | x in order[..j + 1] && x in subs2 && subs2[x].event == eid && x !in items2
      ensures subs2[x].position.None? && subs2[x].state < UNPAID_STAFF
    {
      if x != sid {
        assert x in order[..j] && x in subs1;
        assert x !in items;
      }
    }
    forall x | x in appended2
      ensures x in order[..j + 1] && x in subs2 && subs2[x].event == eid && subs2[x].state >= UNPAID_STAFF
    {
      if x != sid {
        assert x in appended && x in subs1;
      }
    }
  }

  /** The second loop of the sweep over the event's subscriptions, in the
      order `order` in which the database lists them. */
  method AppendStaff(store: Store, e: Event, walked: seq<int>, order: seq<int>) returns (q: seq<int>)
    requires NoDup(walked) && Placed(store.db.subs, walked, e.capacity)
    requires NoDup(order) && forall k :: k in store.db.subs ==> k in order
    modifies store
    ensures store.db == old(store.db).(subs := store.db.subs)
    ensures SameRows(old(store.db.subs), store.db.subs)
    ensures forall x :: x in old(store.db.subs) ==> store.db.subs[x] == old(store.db.subs)[x].(position := store.db.subs[x].position)
    ensures forall x :: x in walked ==> x in old(store.db.subs) && store.db.subs[x] == old(store.db.subs)[x]
    ensures |walked| <= |q| && q[..|walked|] == walked
    ensures NoDup(q) && Placed(store.db.subs, q, e.capacity)
    ensures forall x :: x in q[|walked|..] ==> x in store.db.subs && store.db.subs[x].event == e.id && store.db.subs[x].state >= UNPAID_STAFF
    ensures forall x :: x in store.db.subs && store.db.subs[x].event == e.id && x !in q ==>
      store.db.subs[x].position.None? && store.db.subs[x].state < UNPAID_STAFF
  {
    var live := new IdList(walked);
    ghost var appended: seq<int> := [];
    var j := 0;
    GatherStart(order, walked, store.db.subs, e.id, e.capacity);
    while j < |order|
      invariant GatherInv(order, j, walked, appended, live.items, old(store.db.subs), store.db.subs, e.id, e.capacity)
      invariant store.db == old(store.db).(subs := store.db.subs)
    {
      var sid := order[j];
      GatherNext(order, j, walked, appended, live.items, old(store.db.subs), store.db.subs, e.id, e.capacity);
      ghost var subs1, items1, appended1 := store.db.subs, live.items, appended;
      var added := Gather(store, e, live, walked, appended, sid);
      if added {
        appended := appended + [sid];
      }
      GatherStep(order, j, walked, appended1, items1, old(store.db.subs), subs1, store.db.subs,
                 e.id, e.capacity, added, live.items, appended);
      j := j + 1;
    }
    q := live.items;
    GatherDone(order, walked, appended, q, old(store.db.subs), store.db.subs, e.id, e.capacity);
  }

  /** After the whole listing, the second loop's promises hold. */
  lemma GatherDone(order: seq<int>, walked: seq<int>, appended: seq<int>, q: seq<int>,
                   subs0: map<int, Subscription>, subs: map<int, Subscription>, eid: int, capacity: int)
    requires GatherInv(order, |order|, walked, appended, q, subs0, subs, eid, capacity)
    requires forall k :: k in subs0 ==> k in order
    ensures |walked| <= |q| && q[..|walked|] == walked && q[|walked|..] == appended
    ensures forall x :: x in subs0 ==> subs[x] == subs0[x].(position := subs[x].position)
    ensures forall x :: x in walked ==> x in subs0 && subs[x] == subs0[x]
    ensures forall x :: x in subs && subs[x].event == eid && x !in q ==>
      subs[x].position.None? && subs[x].state < UNPAID_STAFF
  {
    assert order[..|order|] == order;
    assert q[..|walked|] == walked;
    assert q[|walked|..] == appended;
  }

  /** The queue of the event after a sweep: no repeats, every entry placed
      at its index, every entry from the old queue or a staff-level
      subscription of the event, and every subscription of the event outside
      the queue below staff level and without a position. */
  predicate Settled(before: seq<int>, after: Db, eid: int, capacity: int)
    requires eid in after.queues
  {
    var q := after.queues[eid];
    NoDup(q) && Placed(after.subs, q, capacity) &&
    (forall x :: x in q ==> (x in before ||
      (x in after.subs && after.subs[x].event == eid && after.subs[x].state >= UNPAID_STAFF))) &&
    (forall x :: x in after.subs && after.subs[x].event == eid && x !in q ==>
      (after.subs[x].position.None? && after.subs[x].state < UNPAID_STAFF))
  }

  /** What the sweep did to the entries of the old queue `before`, judged
      against the rows `subs0` it started from: the queue now begins with
      the survivors in their old order, each with its kept row (a queued
      entry within the capacity promoted, every other one with its index as
      position); every other stored entry of the old queue is out of the
      queue with its dropped state and deadline, and without a position when
      it belongs to the event. */
  predicate SweptAsCode(before: seq<int>, subs0: map<int, Subscription>, after: Db, e: Event, now: int)
    requires e.id in after.queues
  {
    var q := after.queues[e.id];
    var w := Survivors(before, subs0, now);
    |w| <= |q| && q[..|w|] == w &&
    (forall k :: 0 <= k < |w| ==> w[k] in subs0 && w[k] in after.subs && after.subs[w[k]] == KeptRow(subs0[w[k]], k, e, now)) &&
    (forall x :: x in before && x in subs0 && x !in w ==>
      x !in q && x in after.subs && after.subs[x] == DroppedRow(subs0[x], now).(position := after.subs[x].position) &&
      (subs0[x].event == e.id ==> after.subs[x].position.None?))
  }

  /** The walk's and the second loop's promises give `SweptAsCode`. */
  lemma ResettleDone(before: seq<int>, subs0: map<int, Subscription>, subs1: map<int, Subscription>, subs2: map<int, Subscription>,
                     walked: seq<int>, after: Db, e: Event, now: int)
    requires e.id in after.queues && after.subs == subs2
    requires SameRows(subs0, subs1) && SameRows(subs1, subs2)
    requires walked == Survivors(before, subs0, now)
    requires forall k :: 0 <= k < |walked| ==> walked[k] in subs0 && subs1[walked[k]] == KeptRow(subs0[walked[k]], k, e, now)
    requires forall x :: x in before && x in subs0 && x !in walked ==> subs1[x] == DroppedRow(subs0[x], now)
    requires forall x :: x in subs1 ==> subs2[x] == subs1[x].(position := subs2[x].position)
    requires forall x :: x in walked ==> x in subs1 && subs2[x] == subs1[x]
    requires |walked| <= |after.queues[e.id]| && after.queues[e.id][..|walked|] == walked
    requires forall x :: x in after.queues[e.id][|walked|..] ==> x in subs2 && subs2[x].state >= UNPAID_STAFF
    requires forall x :: x in subs2 && subs2[x].event == e.id && x !in after.queues[e.id] ==> subs2[x].position.None?
    ensures SweptAsCode(before, subs0, after, e, now)
  {
    KeptPart(subs0, subs1, subs2, walked, e, now);
    DroppedPart(before, subs0, subs1, subs2, walked, after.queues[e.id], e.id, now);
  }

  /** The kept entries keep their walked rows through the second loop. */
  lemma KeptPart(subs0: map<int, Subscription>, subs1: map<int, Subscription>, subs2: map<int, Subscription>,
                 walked: seq<int>, e: Event, now: int)
    requires subs2.Keys == subs1.Keys
    requires forall k :: 0 <= k < |walked| ==> walked[k] in subs0 && walked[k] in subs1 && subs1[walked[k]] == KeptRow(subs0[walked[k]], k, e, now)
    requires forall x :: x in walked ==> x in subs1 && subs2[x] == subs1[x]
    ensures forall k :: 0 <= k < |walked| ==> walked[k] in subs0 && walked[k] in subs2 && subs2[walked[k]] == KeptRow(subs0[walked[k]], k, e, now)
  {
    forall k | 0 <= k < |walked|
      ensures walked[k] in subs0 && walked[k] in subs2 && subs2[walked[k]] == KeptRow(subs0[walked[k]], k, e, now)
    {
      var x := walked[k];
      assert x in walked;
      assert subs2[x] == subs1[x];
    }
  }

  /** The dropped entries are out of the final queue, with their dropped
      state and deadline, and without a position when of the event. */
  lemma DroppedPart(before: seq<int>, subs0: map<int, Subscription>, subs1: map<int, Subscription>, subs2: map<int, Subscription>,
                    walked: seq<int>, q: seq<int>, eid: int, now: int)
    requires SameRows(subs0, subs1) && SameRows(subs1, subs2)
    requires walked == Survivors(before, subs0, now)
    requires forall x :: x in before && x in subs0 && x !in walked ==> subs1[x] == DroppedRow(subs0[x], now)
    requires forall x :: x in subs1 ==> subs2[x] == subs1[x].(position := subs2[x].position)
    requires |walked| <= |q| && q[..|walked|] == walked
    requires forall x :: x in q[|walked|..] ==> x in subs2 && subs2[x].state >= UNPAID_STAFF
    requires forall x :: x in subs2 && subs2[x].event == eid && x !in q ==> subs2[x].position.None?
    ensures forall x :: x in before && x in subs0 && x !in walked ==>
      x !in q && x in subs2 && subs2[x] == DroppedRow(subs0[x], now).(position := subs2[x].position) &&
      (subs0[x].event == eid ==> subs2[x].position.None?)
  {
    SettledFromParts(walked, q);
    forall x | x in before && x in subs0 && x !in walked
      ensures x !in q && x in subs2 && subs2[x] == DroppedRow(subs0[x], now).(position := subs2[x].position)
      ensures subs0[x].event == eid ==> subs2[x].position.None?
    {
      assert x in subs1;
      DroppedStaysOut(subs0[x], subs1[x], subs2[x], now);
    }
  }

  /** A dropped row that the second loop changes only in position stays
      below staff level, so it is not appended, and keeps its event. */
  lemma DroppedStaysOut(s0: Subscription, s1: Subscription, s2: Subscription, now: int)
    requires !Stays(s0, now) && s1 == DroppedRow(s0, now) && s2 == s1.(position := s2.position)
    ensures s2 == DroppedRow(s0, now).(position := s2.position)
    ensures s2.state < UNPAID_STAFF && s2.event == s0.event
  {
  }

  /** A sweep changes nothing but subscription states, deadlines and
      positions, the event's toggles and the event's queue, so the database
      stays well formed. */
  lemma SweepKeepsValid(a: Db, b: Db, eid: int, t: Event)
    requires a.Valid() && eid in a.events && eid in a.queues
    requires t.id == a.events[eid].id && t.slug == a.events[eid].slug
    requires SameRows(a.subs, b.subs) && eid in b.queues && NoDup(b.queues[eid])
    requires b == a.(events := a.events[eid := t], subs := b.subs, queues := a.queues[eid := b.queues[eid]])
    ensures b.Valid()
  {
    forall k | k in b.subs
      ensures b.subs[k].id == Some(k) && b.subs[k].event in b.events
    {
      assert b.subs[k] == a.subs[k].(state := b.subs[k].state, waitUntil := b.subs[k].waitUntil, position := b.subs[k].position);
    }
  }

  /** The part of the sweep after the toggles, on an event that has a queue
      container: the walk, the second loop, and the single write of the
      queue. Fails exactly when an entry of the old queue blocks the walk. */
  method Resettle(store: Store, e: Event, notify: BatchNotifier, order: seq<int>, now: int) returns (ok: bool)
    requires e.id in store.db.queues && NoDup(store.db.queues[e.id])
    requires forall k :: k in store.db.subs ==> store.db.subs[k].event in store.db.events
    requires NoDup(order) && forall k :: k in store.db.subs ==> k in order
    modifies store, notify
    ensures store.db == old(store.db).(subs := store.db.subs, queues := store.db.queues)
    ensures SameRows(old(store.db.subs), store.db.subs)
    ensures ok <==> Clear(old(store.db.queues[e.id]), old(store.db.subs), e)
    ensures !ok ==> store.db.queues == old(store.db.queues)
    ensures ok ==> e.id in store.db.queues && store.db.queues == old(store.db.queues)[e.id := store.db.queues[e.id]]
    ensures ok ==> Settled(old(store.db.queues[e.id]), store.db, e.id, e.capacity)
    ensures ok ==> SweptAsCode(old(store.db.queues[e.id]), old(store.db.subs), store.db, e, now)
    ensures ok ==> notify.expired == old(notify.expired) + ExpiredRows(old(store.db.queues[e.id]), old(store.db.subs), now)
    ensures ok ==> notify.canPay == old(notify.canPay) + PromotedRows(old(store.db.queues[e.id]), old(store.db.subs), e, now)
    ensures notify.toggled == old(notify.toggled)
    ensures NewNotices(old(notify.expired), old(notify.canPay), notify.expired, notify.canPay, e.capacity, store.db.events)
  {
    var walked;
    ok, walked := Walk(store, e, notify, now);
    if !ok {
      return;
    }
    ghost var subs1 := store.db.subs;
    var q := AppendStaff(store, e, walked, order);
    store.db := store.db.(queues := store.db.queues[e.id := q]);
    SettledFromParts(walked, q);
    ResettleDone(old(store.db.queues[e.id]), old(store.db.subs), subs1, store.db.subs, walked, store.db, e, now);
  }

  /** Every entry of the final queue is walked or appended. */
  lemma SettledFromParts(walked: seq<int>, q: seq<int>)
    requires |walked| <= |q| && q[..|walked|] == walked
    ensures forall x :: x in q ==> x in walked || x in q[|walked|..]
  {
    forall x | x in q
      ensures x in walked || x in q[|walked|..]
    {
      var k :| 0 <= k < |q| && q[k] == x;
      if k < |walked| {
        assert q[..|walked|][k] == x;
      } else {
        assert q[|walked|..][k - |walked|] == x;
      }
    }
  }

  /** `_update_all_subscriptions`: runs the event's toggles (recording a
      toggled notice in the batch when a flag flipped), then, when the event
      has a queue container, walks the queue and appends the missing
      staff-level subscriptions, writing the queue once at the end. The
      event method called here, `check_toggles`, is defined nowhere; the
      toggles are `Event.cron` at `now`, and they count as having fired
      exactly when they changed the event. */
  method UpdateAllSubscriptions(store: Store, e: Event, notify: BatchNotifier, order: seq<int>, now: int)
    returns (r: Outcome)
    requires store.db.Valid() && e.id in store.db.events && store.db.events[e.id] == e
    requires NoDup(order) && forall k :: k in store.db.subs ==> k in order
    modifies store, notify
    ensures r.Pass? || r == Fail(NotImplemented)
    ensures r.Pass? ==> store.db.Valid()
    ensures store.db.events == old(store.db.events)[e.id := EventCron(e, now)]
    ensures SameRows(old(store.db.subs), store.db.subs)
    ensures notify.toggled == old(notify.toggled) + (if EventCron(e, now) != e then [e.id] else [])
    ensures e.id !in old(store.db.queues) ==>
      r.Pass? && store.db == old(store.db).(events := store.db.events) &&
      notify.expired == old(notify.expired) && notify.canPay == old(notify.canPay)
    ensures e.id in old(store.db.queues) ==> (r.Pass? <==> Clear(old(store.db.queues[e.id]), old(store.db.subs), EventCron(e, now)))
    ensures r.Pass? && e.id in old(store.db.queues) ==>
      e.id in store.db.queues && Settled(old(store.db.queues)[e.id], store.db, e.id, e.capacity) &&
      SweptAsCode(old(store.db.queues)[e.id], old(store.db.subs), store.db, EventCron(e, now), now)
    ensures r.Pass? ==> notify.expired == old(notify.expired) + ExpiredRows(QueueOf(old(store.db), e.id), old(store.db.subs), now)
    ensures r.Pass? ==> notify.canPay == old(notify.canPay) + PromotedRows(QueueOf(old(store.db), e.id), old(store.db.subs), EventCron(e, now), now)
    ensures NewNotices(old(notify.expired), old(notify.canPay), notify.expired, notify.canPay, e.capacity, store.db.events)
  {
    var toggled := EventCron(e, now);
    store.db := store.db.(events := store.db.events[e.id := toggled]);
    if toggled != e {
      notify.Toggled(e.id);
    }
    if e.id !in store.db.queues {
      return Pass;
    }
    ghost var q0, subs0 := store.db.queues[e.id], store.db.subs;
    assert q0 == QueueOf(old(store.db), e.id) && subs0 == old(store.db.subs);
    var ok := Resettle(store, toggled, notify, order, now);
    if !ok {
      return Fail(NotImplemented);
    }
    SweepKeepsValid(old(store.db), store.db, e.id, toggled);
    r := Pass;
  }

  /** One event of `cron`: the sweep of the event inside its own
      transaction, then its batch of notices. A failed sweep is rolled back
      and its batch is never sent. */
  method SweepEvent(store: Store, outbox: Outbox, eid: int, order: seq<int>, now: int) returns (r: Outcome)
    requires store.db.Valid() && eid in store.db.events
    requires NoDup(order) && forall k :: k in store.db.subs ==> k in order
    modifies store, outbox
    ensures store.db.Valid()
    ensures store.db.events.Keys == old(store.db.events.Keys) && store.db.subs.Keys == old(store.db.subs.Keys)
    ensures r.Fail? ==> store.db == old(store.db) && r.error == NotImplemented && outbox.sent == old(outbox.sent)
    ensures r.Fail? <==>
      eid in old(store.db.queues) && !Clear(old(store.db.queues[eid]), old(store.db.subs), EventCron(old(store.db.events[eid]), now))
    ensures r.Pass? ==> store.db.events == old(store.db.events)[eid := EventCron(old(store.db.events[eid]), now)]
    ensures r.Pass? ==> SameRows(old(store.db.subs), store.db.subs)
    ensures r.Pass? && eid in old(store.db.queues) ==>
      eid in store.db.queues && Settled(old(store.db.queues)[eid], store.db, eid, old(store.db.events[eid]).capacity) &&
      SweptAsCode(old(store.db.queues)[eid], old(store.db.subs), store.db, EventCron(old(store.db.events[eid]), now), now)
    ensures r.Pass? ==> outbox.sent == old(outbox.sent) + SweepMails(old(store.db), eid, now)
  {
    var e := store.db.events[eid];
    var notify := new BatchNotifier();
    var saved := store.db;
    r := UpdateAllSubscriptions(store, e, notify, order, now);
    if r.Fail? {
      store.db := saved;
      return;
    }
    assert notify.toggled == [] + (if EventCron(e, now) != e then [eid] else []);
    assert notify.expired == [] + ExpiredRows(QueueOf(old(store.db), eid), old(store.db.subs), now);
    assert notify.canPay == [] + PromotedRows(QueueOf(old(store.db), eid), old(store.db.subs), EventCron(e, now), now);
    SendSweep(notify, outbox, old(store.db), store.db.events, eid, now);
  }

  /** Sending the batch a successful sweep of event `eid` of `db` filled. */
  method SendSweep(notify: BatchNotifier, outbox: Outbox, ghost db: Db, events: map<int, Event>, eid: int, now: int)
    requires db.Valid() && eid in db.events
    requires events == db.events[eid := EventCron(db.events[eid], now)]
    requires notify.toggled == (if EventCron(db.events[eid], now) != db.events[eid] then [eid] else [])
    requires notify.expired == ExpiredRows(QueueOf(db, eid), db.subs, now)
    requires notify.canPay == PromotedRows(QueueOf(db, eid), db.subs, EventCron(db.events[eid], now), now)
    modifies outbox
    ensures outbox.sent == old(outbox.sent) + SweepMails(db, eid, now)
  {
    NoticeRowsKnown(QueueOf(db, eid), db.subs, EventCron(db.events[eid], now), now, events);
    notify.SendNotifications(outbox, events);
    MailsOfSweep(db, events, eid, now, notify.toggled, notify.expired, notify.canPay);
    AppendThree(old(outbox.sent), Toggles(notify.toggled), Batch(Notice.Expired, notify.expired, events),
                Batch(Notice.CanPay, notify.canPay, events));
  }

  lemma AppendThree(sent: seq<Message>, a: seq<Message>, b: seq<Message>, c: seq<Message>)
    ensures sent + a + b + c == sent + (a + b + c)
  {
  }

  /** The batch a sweep fills is the one `SweepMails` describes. */
  lemma MailsOfSweep(db: Db, events: map<int, Event>, eid: int, now: int,
                     toggled: seq<int>, expired: seq<Subscription>, canPay: seq<Subscription>)
    requires db.Valid() && eid in db.events
    requires events == db.events[eid := EventCron(db.events[eid], now)]
    requires toggled == (if EventCron(db.events[eid], now) != db.events[eid] then [eid] else [])
    requires expired == ExpiredRows(QueueOf(db, eid), db.subs, now)
    requires canPay == PromotedRows(QueueOf(db, eid), db.subs, EventCron(db.events[eid], now), now)
    requires forall j :: 0 <= j < |expired| ==> expired[j].event in events
    requires forall j :: 0 <= j < |canPay| ==> canPay[j].event in events
    ensures Toggles(toggled) + Batch(Notice.Expired, expired, events) + Batch(Notice.CanPay, canPay, events) == SweepMails(db, eid, now)
  {
  }

  /** The mails a successful sweep of event `eid` of `db` sends, in order:
      the toggled notice when a flag flipped, the expiry notices, then the
      can-pay notices, rendered with the event as the sweep left it. */
  function SweepMails(db: Db, eid: int, now: int): seq<Message>
    requires db.Valid() && eid in db.events
  {
    var e := db.events[eid];
    var toggled := EventCron(e, now);
    var events := db.events[eid := toggled];
    var q := QueueOf(db, eid);
    NoticeRowsKnown(q, db.subs, toggled, now, events);
    Toggles(if toggled != e then [eid] else []) +
    Batch(Notice.Expired, ExpiredRows(q, db.subs, now), events) +
    Batch(Notice.CanPay, PromotedRows(q, db.subs, toggled, now), events)
  }

  /** `cron`: sweeps every event that has not started yet, in the order the
      database lists them (`listing`), and sends each event's batch of
      notices after its sweep. A sweep that fails ends the run: the events
      after it are not swept. */
  method Cron(store: Store, outbox: Outbox, listing: seq<int>, order: seq<int>, now: int) returns (r: Outcome)
    requires store.db.Valid() && forall k :: k in listing ==> k in store.db.events
    requires NoDup(order) && forall k :: k in store.db.subs ==> k in order
    modifies store, outbox
    ensures store.db.Valid()
    ensures store.db.events.Keys == old(store.db.events.Keys) && store.db.subs.Keys == old(store.db.subs.Keys)
    ensures r.Pass? || r == Fail(NotImplemented)
    ensures forall k :: k in old(store.db.events) && (k !in listing || old(store.db.events[k]).startsAt <= now) ==>
      store.db.events[k] == old(store.db.events[k])
  {
    var i := 0;
    while i < |listing|
      invariant 0 <= i <= |listing|
      invariant store.db.Valid()
      invariant store.db.events.Keys == old(store.db.events.Keys) && store.db.subs.Keys == old(store.db.subs.Keys)
      invariant forall k :: k in listing ==> k in store.db.events
      invariant forall k :: k in old(store.db.events) ==> store.db.events[k].startsAt == old(store.db.events[k]).startsAt
      invariant forall k :: k in old(store.db.events) && (k !in listing[..i] || old(store.db.events[k]).startsAt <= now) ==>
        store.db.events[k] == old(store.db.events[k])
    {
      assert listing[i] in listing;
      var result := CronStep(store, outbox, listing[i], order, now);
      if result.Fail? {
        return result;
      }
      assert listing[..i + 1] == listing[..i] + [listing[i]];
      i := i + 1;
    }
    assert listing[..i] == listing;
    return Pass;
  }

  /** One turn of the loop of `cron`: the event is swept when it has not
      started yet and left alone otherwise. */
  method CronStep(store: Store, outbox: Outbox, eid: int, order: seq<int>, now: int) returns (r: Outcome)
    requires store.db.Valid() && eid in store.db.events
    requires NoDup(order) && forall k :: k in store.db.subs ==> k in order
    modifies store, outbox
    ensures store.db.Valid()
    ensures store.db.events.Keys == old(store.db.events.Keys) && store.db.subs.Keys == old(store.db.subs.Keys)
    ensures r.Pass? || r == Fail(NotImplemented)
    ensures forall k :: k in old(store.db.events) ==> store.db.events[k].startsAt == old(store.db.events[k]).startsAt
    ensures forall k :: k in old(store.db.events) && (k != eid || old(store.db.events[k]).startsAt <= now) ==>
      store.db.events[k] == old(store.db.events[k])
  {
    if store.db.events[eid].startsAt > now {
      r := SweepEvent(store, outbox, eid, order, now);
    } else {
      r := Pass;
    }
  }
}
